/**
 * apps/cluster-api-manager/dns/dns.go: DNS names turned into Kubernetes
 * object names, and the create-or-update of an external-dns `DNSEndpoint`
 * in the target namespace.
 *
 * The Kubernetes API server is `EndpointStore`, a map from
 * (namespace, name) to the stored object with a resource-version counter;
 * a request that the server fails for a reason other than the ones the
 * code tests for is a `fault` flag of the call.
 */
module Dns {
  import opened Wrappers
  import opened GoStrings
  import opened Common

  /** A basic DNS record request. */
  datatype Entry = Entry(subdomain: string, values: seq<string>)

  /** One record of a DNSEndpoint. */
  datatype Endpoint = Endpoint(dnsName: string, targets: seq<string>, recordTTL: int, recordType: string)

  /** A DNSEndpoint object; `resourceVersion` 0 means unset. */
  datatype DNSEndpoint = DNSEndpoint(
    name: string,
    namespace: string,
    labels: map<string, string>,
    endpoints: seq<Endpoint>,
    resourceVersion: nat)

  const SpecNameLabel: string := "io.sharing.pair-spec-name"
  const RecordTTL: int := 60

  /** ReverseDomain: the dot-separated labels of `name` in the opposite order. */
  function ReverseDomain(name: string): (output: string)
    ensures Split(output, '.') == Reversed(Split(name, '.'))
  {
    var labels := Reversed(Split(name, '.'));
    SplitJoin(labels, '.');
    Join(labels, ".")
  }

  /** Reversing the labels twice gives back the name. */
  lemma ReverseDomainTwice(name: string)
    ensures ReverseDomain(ReverseDomain(name)) == name
  {
    var labels := Split(name, '.');
    ReversedTwice(labels);
    assert Reversed(Split(ReverseDomain(name), '.')) == labels;
    JoinSplit(name, '.');
  }

  /** The number of labels does not change. */
  lemma ReverseDomainKeepsLabelCount(name: string)
    ensures Count(ReverseDomain(name), '.') == Count(name, '.')
  {
    SplitCount(name, '.');
    SplitCount(ReverseDomain(name), '.');
  }

  /** A two-part name `a.b` becomes `b.a`. */
  lemma ReverseTwoLabels(a: string, b: string)
    requires '.' !in a && '.' !in b
    ensures ReverseDomain(a + "." + b) == b + "." + a
  {
    SplitAtSep(a, b, '.');
    SplitWithoutSep(b, '.');
    assert Split(a + "." + b, '.') == [a, b];
    var labels := Reversed([a, b]);
    assert labels == [b, a];
    assert labels[1..] == [a];
    assert Join(labels, ".") == b + "." + Join([a], ".");
  }

  /** FormatAsName: every "." replaced by "-", everything else kept. */
  function FormatAsName(name: string): (output: string)
    ensures |output| == |name|
    ensures forall i :: 0 <= i < |name| ==> output[i] == if name[i] == '.' then '-' else name[i]
    ensures '.' !in output
  {
    JoinSplitReplaces(name, '.', '-');
    Join(Split(name, '.'), "-")
  }

  /** The host a DNS entry is published under. */
  function RecordHost(entry: Entry, baseHost: string): string
  {
    entry.subdomain + "." + baseHost
  }

  /** The name-server host of a record host. */
  function NameServerHost(host: string): string
  {
    "ns1." + host
  }

  /**
   * The object name of a host's DNSEndpoint: the reversed host flattened
   * with "-", then every "*" spelled out as "wildcard".
   */
  function EndpointName(host: string): (name: string)
    ensures '.' !in name && '*' !in name
    ensures |name| >= |host|
  {
    var flat := FormatAsName(ReverseDomain(host));
    ReverseDomainLength(host);
    ReplaceAllLength(flat, '*', "wildcard");
    ReplaceAll(flat, '*', "wildcard")
  }

  /** Replacing one character by a non-empty text never shortens a string. */
  lemma {:induction false} ReplaceAllLength(s: string, c: char, r: string)
    requires |r| >= 1
    ensures |ReplaceAll(s, c, r)| >= |s|
    decreases |s|
  {
    if s != [] {
      ReplaceAllLength(s[1..], c, r);
    }
  }

  /** The length of a reversed domain equals the length of the domain. */
  lemma ReverseDomainLength(name: string)
    ensures |ReverseDomain(name)| == |name|
  {
    var labels := Split(name, '.');
    JoinSplit(name, '.');
    JoinLength(labels, '.');
    JoinLength(Reversed(labels), '.');
    SumLengthsReversed(labels);
  }

  /** The total length of some strings. */
  function SumLengths(parts: seq<string>): nat
    decreases |parts|
  {
    if parts == [] then 0 else |parts[0]| + SumLengths(parts[1..])
  }

  lemma {:induction false} SumLengthsAppend(a: seq<string>, b: seq<string>)
    ensures SumLengths(a + b) == SumLengths(a) + SumLengths(b)
    decreases |a|
  {
    if a == [] {
      assert a + b == b;
    } else {
      assert (a + b)[1..] == a[1..] + b;
      SumLengthsAppend(a[1..], b);
    }
  }

  lemma {:induction false} SumLengthsReversed(parts: seq<string>)
    ensures SumLengths(Reversed(parts)) == SumLengths(parts)
    decreases |parts|
  {
    if parts != [] {
      SumLengthsReversed(parts[1..]);
      SumLengthsAppend(Reversed(parts[1..]), [parts[0]]);
    }
  }

  /** Joining `n >= 1` parts with a one-character separator adds `n - 1` characters. */
  lemma {:induction false} JoinLength(parts: seq<string>, c: char)
    requires |parts| >= 1
    ensures |Join(parts, [c])| == SumLengths(parts) + |parts| - 1
    decreases |parts|
  {
    if |parts| > 1 {
      JoinLength(parts[1..], c);
    }
  }

  /**
   * The DNSEndpoint UpsertDNSEndpoint writes for `entry`: an A record for
   * the name-server host pointing at the entry's values and an NS record
   * for the host pointing at the name-server host, both with TTL 60,
   * labelled with the instance name.
   */
  function BuildEndpoint(entry: Entry, instanceName: string, env: Env): (ep: DNSEndpoint)
    ensures var host := RecordHost(entry, GetBaseHost(env));
      && ep.name == EndpointName(host)
      && ep.namespace == GetTargetNamespace(env)
      && ep.labels == map[SpecNameLabel := instanceName]
      && |ep.endpoints| == 2
      && (forall i :: 0 <= i < 2 ==> ep.endpoints[i].recordTTL == RecordTTL)
      && ep.endpoints[0] == Endpoint(NameServerHost(host), entry.values, RecordTTL, "A")
      && ep.endpoints[1] == Endpoint(host, [NameServerHost(host)], RecordTTL, "NS")
      && ep.resourceVersion == 0
  {
    var host := RecordHost(entry, GetBaseHost(env));
    var nsHost := NameServerHost(host);
    DNSEndpoint(
      EndpointName(host),
      GetTargetNamespace(env),
      map[SpecNameLabel := instanceName],
      [Endpoint(nsHost, entry.values, RecordTTL, "A"), Endpoint(host, [nsHost], RecordTTL, "NS")],
      0)
  }

  // ---------------------------------------------------------------------
  // The API server

  /** Errors the code tells apart. */
  datatype ApiError = AlreadyExists | NotFound | Conflict | ServerError

  type Key = (string, string)

  function KeyOf(ep: DNSEndpoint): Key
  {
    (ep.namespace, ep.name)
  }

  /** The DNSEndpoint objects of the cluster. */
  class EndpointStore {
    var objects: map<Key, DNSEndpoint>
    var lastVersion: nat

    /** Every object sits under its own key with a version the store handed out. */
    ghost predicate Valid()
      reads this
    {
      forall k :: k in objects ==>
        KeyOf(objects[k]) == k && 1 <= objects[k].resourceVersion <= lastVersion
    }

    constructor ()
      ensures Valid()
      ensures objects == map[] && lastVersion == 0
    {
      objects := map[];
      lastVersion := 0;
    }

    /** Create: stores a new object under a fresh version; refuses an existing name. */
    method Create(ep: DNSEndpoint, fault: bool) returns (err: Option<ApiError>)
      requires Valid()
      modifies this
      ensures Valid()
      ensures fault ==> err == Some(ServerError) && objects == old(objects) && lastVersion == old(lastVersion)
      ensures !fault && KeyOf(ep) in old(objects) ==>
        err == Some(AlreadyExists) && objects == old(objects) && lastVersion == old(lastVersion)
      ensures !fault && KeyOf(ep) !in old(objects) ==>
        && err.None?
        && lastVersion == old(lastVersion) + 1
        && objects == old(objects)[KeyOf(ep) := ep.(resourceVersion := lastVersion)]
    {
      if fault {
        return Some(ServerError);
      }
      if KeyOf(ep) in objects {
        return Some(AlreadyExists);
      }
      lastVersion := lastVersion + 1;
      objects := objects[KeyOf(ep) := ep.(resourceVersion := lastVersion)];
      return None;
    }

    /** Get: the stored object, NotFound, or a server error. */
    method Get(key: Key, fault: bool) returns (ep: Option<DNSEndpoint>, err: Option<ApiError>)
      ensures fault ==> ep.None? && err == Some(ServerError)
      ensures !fault && key !in objects ==> ep.None? && err == Some(NotFound)
      ensures !fault && key in objects ==> ep == Some(objects[key]) && err.None?
    {
      if fault {
        return None, Some(ServerError);
      }
      if key !in objects {
        return None, Some(NotFound);
      }
      return Some(objects[key]), None;
    }

    /**
     * Update: replaces the stored object when the request carries its
     * current resource version, and hands out a new version.
     */
    method Update(ep: DNSEndpoint, fault: bool) returns (err: Option<ApiError>)
      requires Valid()
      modifies this
      ensures Valid()
      ensures err.Some? ==> objects == old(objects) && lastVersion == old(lastVersion)
      ensures fault ==> err == Some(ServerError)
      ensures !fault && KeyOf(ep) !in old(objects) ==> err == Some(NotFound)
      ensures !fault && KeyOf(ep) in old(objects) && old(objects)[KeyOf(ep)].resourceVersion != ep.resourceVersion ==>
        err == Some(Conflict)
      ensures !fault && KeyOf(ep) in old(objects) && old(objects)[KeyOf(ep)].resourceVersion == ep.resourceVersion ==>
        && err.None?
        && lastVersion == old(lastVersion) + 1
        && objects == old(objects)[KeyOf(ep) := ep.(resourceVersion := lastVersion)]
    {
      if fault {
        return Some(ServerError);
      }
      var key := KeyOf(ep);
      if key !in objects {
        return Some(NotFound);
      }
      if objects[key].resourceVersion != ep.resourceVersion {
        return Some(Conflict);
      }
      lastVersion := lastVersion + 1;
      objects := objects[key := ep.(resourceVersion := lastVersion)];
      return None;
    }
  }

  /** Which API requests the server fails. */
  datatype Faults = Faults(createFails: bool, getFails: bool, updateFails: bool)

  datatype UpsertError = CreateFailed | GetFailed | UpdateFailed

  /** The outcome UpsertDNSEndpoint reports, given whether the object existed. */
  function UpsertOutcome(existed: bool, faults: Faults): (err: Option<UpsertError>)
    ensures err.None? <==> !faults.createFails && (!existed || (!faults.getFails && !faults.updateFails))
    ensures !existed && !faults.createFails ==> err.None?
    ensures err == Some(CreateFailed) <==> faults.createFails
    ensures err == Some(GetFailed) ==> existed
  {
    if faults.createFails then Some(CreateFailed)
    else if !existed then None
    else if faults.getFails then Some(GetFailed)
    else if faults.updateFails then Some(UpdateFailed)
    else None
  }

  /**
   * UpsertDNSEndpoint: creates the entry's DNSEndpoint, or, when one of
   * that name exists, reads its resource version and updates it. On
   * success the store holds exactly the built endpoint under its name; on
   * any failure nothing changes; no other object is ever touched.
   */
  method UpsertDNSEndpoint(store: EndpointStore, env: Env, entry: Entry, instanceName: string, faults: Faults)
    returns (err: Option<UpsertError>)
    requires store.Valid()
    modifies store
    ensures store.Valid()
    ensures var ep := BuildEndpoint(entry, instanceName, env);
      && err == UpsertOutcome(KeyOf(ep) in old(store.objects), faults)
      && (err.Some? ==> store.objects == old(store.objects) && store.lastVersion == old(store.lastVersion))
      && (err.None? ==>
            && KeyOf(ep) in store.objects
            && store.objects[KeyOf(ep)] == ep.(resourceVersion := store.lastVersion)
            && store.lastVersion == old(store.lastVersion) + 1
            && store.objects == old(store.objects)[KeyOf(ep) := store.objects[KeyOf(ep)]])
  {
    var endpoint := BuildEndpoint(entry, instanceName, env);
    var createErr := store.Create(endpoint, faults.createFails);
    if createErr.Some? && createErr != Some(AlreadyExists) {
      return Some(CreateFailed);
    }
    if createErr == Some(AlreadyExists) {
      var current, getErr := store.Get(KeyOf(endpoint), faults.getFails);
      if getErr.Some? {
        return Some(GetFailed);
      }
      endpoint := endpoint.(resourceVersion := current.value.resourceVersion);
      var updateErr := store.Update(endpoint, faults.updateFails);
      if updateErr.Some? {
        return Some(UpdateFailed);
      }
    }
    return None;
  }
}
