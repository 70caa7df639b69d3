/**
 * apps/reconciler/main.go: the reconciler's configuration, the Clusters it
 * works on, the URLs it calls on the cluster-api-manager for each of them,
 * and the removal of an instance's cached TLS certificate once it is close
 * to expiry.
 *
 * Time is whole seconds since the epoch; the current time is a parameter.
 * Decoding a PEM certificate is the parameter `decode`.
 */
module Reconciler {
  import opened Wrappers
  import opened GoStrings
  import opened Common
  import Seqs
  import opened ClusterObjects

  const DefaultClusterAPIManagerHost: string := "http://sharingio-pair-clusterapimanager:8080"
  const DefaultSleepTime: int := 60
  const DefaultCertDaysToPreExpire: int := 5
  const SecondsPerDay: int := 24 * 60 * 60

  /** The settings NewReconciler reads; the API clients are not part of this model. */
  datatype Config = Config(
    targetNamespace: string,
    clusterAPIManagerHost: string,
    sleepTime: int,
    certDaysToPreExpire: int)

  /** An integer setting: the parsed variable, or the default when that is unparsable or 0. */
  function IntSetting(env: Env, name: string, default: int): (value: int)
    requires default != 0
    ensures value != 0
    ensures AtoiSyntax(GetEnvOrDefault(env, name, Itoa(default))) && Atoi(GetEnvOrDefault(env, name, Itoa(default))) != 0 ==>
      value == Atoi(GetEnvOrDefault(env, name, Itoa(default)))
    ensures !AtoiSyntax(GetEnvOrDefault(env, name, Itoa(default))) ==> value == default
  {
    var parsed := Atoi(GetEnvOrDefault(env, name, Itoa(default)));
    if parsed == 0 then default else parsed
  }

  function SleepTime(env: Env): int
  {
    IntSetting(env, "APP_SLEEP_TIME", DefaultSleepTime)
  }

  function CertDaysToPreExpire(env: Env): int
  {
    IntSetting(env, "APP_CERT_DAYS_TO_PRE_EXPIRE", DefaultCertDaysToPreExpire)
  }

  /** An unset or empty setting is its default: the default's text parses back to it. */
  lemma UnsetSettingIsDefault(env: Env, name: string, default: int)
    requires default != 0 && MinInt64 <= default <= MaxInt64
    requires MapIndex(env, name) == ""
    ensures IntSetting(env, name, default) == default
  {
    AtoiItoa(default);
  }

  /**
   * The sleep time is 60 seconds and the pre-expiry 5 days when the
   * variables are unset, empty, unparsable or "0"; neither is ever 0.
   */
  lemma SettingDefaults(env: Env)
    ensures SleepTime(env) != 0 && CertDaysToPreExpire(env) != 0
    ensures MapIndex(env, "APP_SLEEP_TIME") == "" ==> SleepTime(env) == 60
    ensures MapIndex(env, "APP_CERT_DAYS_TO_PRE_EXPIRE") == "" ==> CertDaysToPreExpire(env) == 5
    ensures MapIndex(env, "APP_SLEEP_TIME") != "" && (!AtoiSyntax(env["APP_SLEEP_TIME"]) || Atoi(env["APP_SLEEP_TIME"]) == 0) ==>
      SleepTime(env) == 60
    ensures MapIndex(env, "APP_CERT_DAYS_TO_PRE_EXPIRE") != ""
            && (!AtoiSyntax(env["APP_CERT_DAYS_TO_PRE_EXPIRE"]) || Atoi(env["APP_CERT_DAYS_TO_PRE_EXPIRE"]) == 0) ==>
      CertDaysToPreExpire(env) == 5
  {
    if MapIndex(env, "APP_SLEEP_TIME") == "" {
      UnsetSettingIsDefault(env, "APP_SLEEP_TIME", DefaultSleepTime);
    }
    if MapIndex(env, "APP_CERT_DAYS_TO_PRE_EXPIRE") == "" {
      UnsetSettingIsDefault(env, "APP_CERT_DAYS_TO_PRE_EXPIRE", DefaultCertDaysToPreExpire);
    }
  }

  /** NewReconciler: reads the settings, replacing a zero sleep time or pre-expiry by its default. */
  method NewReconciler(env: Env) returns (r: Config)
    ensures r.targetNamespace == GetTargetNamespace(env)
    ensures r.clusterAPIManagerHost == GetEnvOrDefault(env, "APP_CLUSTER_API_MANAGER_HOST", DefaultClusterAPIManagerHost)
    ensures r.sleepTime == SleepTime(env) && r.certDaysToPreExpire == CertDaysToPreExpire(env)
  {
    var targetNamespace := GetTargetNamespace(env);
    var clusterAPIManagerHost := GetEnvOrDefault(env, "APP_CLUSTER_API_MANAGER_HOST", DefaultClusterAPIManagerHost);
    assert Itoa(DefaultSleepTime) == "60" && Itoa(DefaultCertDaysToPreExpire) == "5";
    var sleepTime := Atoi(GetEnvOrDefault(env, "APP_SLEEP_TIME", "60"));
    if sleepTime == 0 {
      sleepTime := DefaultSleepTime;
    }
    var certDaysToPreExpire := Atoi(GetEnvOrDefault(env, "APP_CERT_DAYS_TO_PRE_EXPIRE", "5"));
    if certDaysToPreExpire == 0 {
      certDaysToPreExpire := DefaultCertDaysToPreExpire;
    }
    return Config(targetNamespace, clusterAPIManagerHost, sleepTime, certDaysToPreExpire);
  }

  // ---------------------------------------------------------------------
  // Clusters and URLs

  /** getClustersList: the managed Clusters of the listing, in listing order. */
  method GetClustersList(listing: Listing) returns (clusters: seq<Object>, err: Option<string>)
    ensures listing.ListFailed? ==> clusters == [] && err == Some("Failed to list Cluster")
    ensures listing.Listed? ==> clusters == Seqs.Filter(listing.items, IsManagedInstance) && err.None?
  {
    clusters := [];
    if listing.ListFailed? {
      return clusters, Some("Failed to list Cluster");
    }
    var items := listing.items;
    for j := 0 to |items|
      invariant clusters == Seqs.Filter(items[..j], IsManagedInstance)
    {
      Seqs.FilterSnoc(items[..j], items[j], IsManagedInstance);
      assert items[..j + 1] == items[..j] + [items[j]];
      if !IsManagedInstance(items[j]) {
        continue;
      }
      clusters := clusters + [items[j]];
    }
    assert items[..|items|] == items;
    return clusters, None;
  }

  /** A listing of managed Clusters only is kept whole. */
  lemma ManagedListingKeptWhole(items: seq<Object>)
    requires forall i :: 0 <= i < |items| ==> IsManagedInstance(items[i])
    ensures Seqs.Filter(items, IsManagedInstance) == items
  {
    Seqs.FilterAll(items, IsManagedInstance);
  }

  const EndpointsForReconciliation: seq<string> := ["certmanage", "dnsmanage", "syncProviderID"]

  /** The URL of one reconciliation endpoint of an instance. */
  function ReconciliationURL(host: string, name: string, endpoint: string): string
  {
    host + "/api/instance/kubernetes/" + name + "/" + endpoint
  }

  /** The URLs one round of the main loop requests: per Cluster, the three endpoints in order. */
  method ReconciliationURLs(host: string, clusters: seq<Object>) returns (urls: seq<string>)
    ensures |urls| == |clusters| * |EndpointsForReconciliation|
    ensures forall i, k :: 0 <= i < |clusters| && 0 <= k < |EndpointsForReconciliation| ==>
      urls[i * |EndpointsForReconciliation| + k] == ReconciliationURL(host, clusters[i].name, EndpointsForReconciliation[k])
  {
    var n := |EndpointsForReconciliation|;
    urls := [];
    for j := 0 to |clusters|
      invariant |urls| == j * n
      invariant forall i, k :: 0 <= i < j && 0 <= k < n ==>
        urls[i * n + k] == ReconciliationURL(host, clusters[i].name, EndpointsForReconciliation[k])
    {
      var c := clusters[j];
      ghost var before := urls;
      for e := 0 to n
        invariant |urls| == j * n + e
        invariant urls[..j * n] == before
        invariant forall k :: 0 <= k < e ==>
          urls[j * n + k] == ReconciliationURL(host, c.name, EndpointsForReconciliation[k])
      {
        urls := urls + [ReconciliationURL(host, c.name, EndpointsForReconciliation[e])];
      }
      forall i, k | 0 <= i < j && 0 <= k < n
        ensures urls[i * n + k] == ReconciliationURL(host, clusters[i].name, EndpointsForReconciliation[k])
      {
        assert i * n + k < j * n;
        assert urls[i * n + k] == before[i * n + k];
      }
    }
  }

  /**
   * httpGetJSON's clean-up of its URL: one leading "/" is dropped. Go
   * slices `url[:1]`, which fails on an empty URL: that case is None.
   */
  function StripLeadingSlash(url: string): (r: Option<string>)
    ensures r.None? <==> url == ""
    ensures r.Some? && url[0] == '/' ==> r.value == url[1..] && "/" + r.value == url
    ensures r.Some? && url[0] != '/' ==> r.value == url
  {
    if url == [] then None
    else if url[..1] == "/" then Some(url[1..])
    else Some(url)
  }

  /** Exactly one slash goes: a URL that starts with "//" keeps the second. */
  lemma StripsOneSlash(rest: string)
    ensures StripLeadingSlash("/" + rest) == Some(rest)
    ensures StripLeadingSlash("//" + rest) == Some("/" + rest)
  {
    assert ("//" + rest)[1..] == "/" + rest;
  }

  // ---------------------------------------------------------------------
  // TLS certificates

  /** The part of an x509 certificate the reconciler reads. */
  datatype Certificate = Certificate(notAfter: int)

  /** The name of an instance's TLS secret. */
  function TLSSecretName(name: string): string
  {
    name + "-tls"
  }

  /** The namespace's secrets, by name, each holding its PEM-encoded `tls.crt`. */
  class SecretStore {
    var secrets: map<string, string>

    constructor (secrets: map<string, string>)
      ensures this.secrets == secrets
    {
      this.secrets := secrets;
    }

    /** Get: the secret's certificate data, NotFound, or another error when the API server fails. */
    method Get(secretName: string, fault: bool) returns (data: Option<string>, notFound: bool, err: Option<string>)
      ensures fault ==> data.None? && !notFound && err.Some?
      ensures !fault && secretName !in secrets ==> data.None? && notFound && err.Some?
      ensures !fault && secretName in secrets ==> data == Some(secrets[secretName]) && !notFound && err.None?
    {
      if fault {
        return None, false, Some("server error");
      }
      if secretName !in secrets {
        return None, true, Some("not found");
      }
      return Some(secrets[secretName]), false, None;
    }

    /** Delete: removes the secret, unless the API server fails. */
    method Delete(secretName: string, fault: bool) returns (err: Option<string>)
      modifies this
      ensures fault ==> err.Some? && secrets == old(secrets)
      ensures !fault ==> err.None? && secrets == old(secrets) - {secretName}
    {
      if fault {
        return Some("server error");
      }
      secrets := secrets - {secretName};
      return None;
    }
  }

  /** What getCertForInstance reports: the certificate, whether the secret exists, and an error. */
  datatype CertLookup = CertLookup(certificate: Option<Certificate>, secretExists: bool, err: Option<string>)

  /** getCertForInstance on a snapshot of the secrets. */
  function CertFor(secrets: map<string, string>, name: string, fault: bool,
                   decode: string -> Result<Certificate, string>): (r: CertLookup)
    ensures r.certificate.Some? ==> r.secretExists && r.err.None?
    ensures !fault && TLSSecretName(name) !in secrets ==> r == CertLookup(None, false, None)
    ensures r.secretExists <==> !fault && TLSSecretName(name) in secrets
  {
    var secretName := TLSSecretName(name);
    if fault then CertLookup(None, false, Some("Failed to get Secret '" + secretName + "'"))
    else if secretName !in secrets then CertLookup(None, false, None)
    else
      var decoded := decode(secrets[secretName]);
      if decoded.Success? then CertLookup(Some(decoded.value), true, None)
      else CertLookup(None, true, Some(decoded.error))
  }

  /** getCertForInstance: a missing secret is not an error; another lookup failure is. */
  method GetCertForInstance(store: SecretStore, name: string, fault: bool,
                            decode: string -> Result<Certificate, string>)
    returns (certificate: Option<Certificate>, secretExists: bool, err: Option<string>)
    ensures CertLookup(certificate, secretExists, err) == CertFor(store.secrets, name, fault, decode)
  {
    var templatedSecretName := TLSSecretName(name);
    var data, notFound, getErr := store.Get(templatedSecretName, fault);
    if notFound {
      return None, false, None;
    }
    if getErr.Some? {
      return None, false, Some("Failed to get Secret '" + templatedSecretName + "'");
    }
    var decoded := decode(data.value);
    if decoded.Success? {
      return Some(decoded.value), true, None;
    }
    return None, true, Some(decoded.error);
  }

  /** A certificate is expired when `now` minus the pre-expiry days is strictly after its NotAfter. */
  predicate Expired(notAfter: int, now: int, days: int)
  {
    now - days * SecondsPerDay > notAfter
  }

  /** Expiry is monotone: it stays expired as time passes, and fewer pre-expiry days never un-expire it. */
  lemma ExpiredMonotone(notAfter: int, now: int, later: int, days: int, fewer: int)
    requires now <= later && fewer <= days
    ensures Expired(notAfter, now, days) ==> Expired(notAfter, later, days)
    ensures Expired(notAfter, now, days) ==> Expired(notAfter, now, fewer)
  {
    assert fewer * SecondsPerDay <= days * SecondsPerDay;
  }

  /** isCertExpired: without a certificate it is not expired. */
  function IsCertExpired(lookup: CertLookup, now: int, days: int): (expired: bool)
    ensures expired ==> lookup.certificate.Some?
    ensures lookup.certificate.Some? ==> (expired <==> Expired(lookup.certificate.value.notAfter, now, days))
  {
    lookup.certificate.Some? && Expired(lookup.certificate.value.notAfter, now, days)
  }

  /** The secrets after removeExpiredCertificate, when the delete succeeds. */
  function AfterRemoval(secrets: map<string, string>, name: string, now: int, days: int, lookupFault: bool,
                        decode: string -> Result<Certificate, string>): (after: map<string, string>)
    ensures after.Keys <= secrets.Keys
    ensures forall k :: k in secrets && k != TLSSecretName(name) ==> k in after && after[k] == secrets[k]
    ensures TLSSecretName(name) !in after <==>
      TLSSecretName(name) !in secrets || IsCertExpired(CertFor(secrets, name, lookupFault, decode), now, days)
  {
    var lookup := CertFor(secrets, name, lookupFault, decode);
    if lookup.secretExists && IsCertExpired(lookup, now, days) then secrets - {TLSSecretName(name)} else secrets
  }

  /**
   * removeExpiredCertificate: without a secret it returns the lookup's
   * error; with one, it deletes the secret when the certificate has
   * expired and returns no error, even when the delete failed.
   */
  method RemoveExpiredCertificate(config: Config, store: SecretStore, name: string, now: int, lookupFault: bool,
                                  deleteFault: bool, decode: string -> Result<Certificate, string>)
    returns (err: Option<string>)
    modifies store
    ensures var lookup := CertFor(old(store.secrets), name, lookupFault, decode);
      && (!lookup.secretExists ==> err == lookup.err)
      && (lookup.secretExists ==> err.None?)
    ensures !deleteFault ==>
      store.secrets == AfterRemoval(old(store.secrets), name, now, config.certDaysToPreExpire, lookupFault, decode)
    ensures deleteFault ==> store.secrets == old(store.secrets)
  {
    var templatedSecretName := TLSSecretName(name);
    var certificate, secretExists, lookupErr := GetCertForInstance(store, name, lookupFault, decode);
    var expired := IsCertExpired(CertLookup(certificate, secretExists, lookupErr), now, config.certDaysToPreExpire);
    if secretExists == false {
      return lookupErr;
    }
    if expired == true {
      var deleteErr := store.Delete(templatedSecretName, deleteFault);
    }
    return None;
  }

  /**
   * Removing twice is removing once: the main loop runs the removal once
   * per endpoint, and the repeats change nothing.
   */
  lemma {:induction false} RemovalIdempotent(secrets: map<string, string>, name: string, now: int, days: int,
                                             decode: string -> Result<Certificate, string>)
    ensures var once := AfterRemoval(secrets, name, now, days, false, decode);
      AfterRemoval(once, name, now, days, false, decode) == once
  {
    var once := AfterRemoval(secrets, name, now, days, false, decode);
    if TLSSecretName(name) in once {
      assert TLSSecretName(name) in secrets && once[TLSSecretName(name)] == secrets[TLSSecretName(name)];
      assert CertFor(once, name, false, decode) == CertFor(secrets, name, false, decode);
    }
  }
}
