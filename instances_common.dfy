/**
 * apps/cluster-api-manager/instances/common.go: the instance defaults and
 * their environment overrides, the generated instance name, the "add"
 * template helper, and the lookups in the per-instance `env` maps.
 */
module InstancesCommon {
  import opened GoStrings
  import opened Common
  import opened InstanceTypes

  const DefaultNodeSize: string := "c3.small.x86"
  const DefaultTimezone: string := "Pacific/Auckland"
  const DefaultEnvironmentRepository: string := "registry.gitlab.com/sharingio/environment/environment"
  const DefaultEnvironmentVersion: string := "2022.03.30.1618"
  const DefaultKubernetesVersion: string := "1.23.5"

  /** GetEnvironmentRepository: APP_ENVIRONMENT_REPOSITORY, or the built-in repository. */
  function GetEnvironmentRepository(env: Env): (r: string)
    ensures r != ""
    ensures MapIndex(env, "APP_ENVIRONMENT_REPOSITORY") == "" ==> r == DefaultEnvironmentRepository
    ensures MapIndex(env, "APP_ENVIRONMENT_REPOSITORY") != "" ==> r == env["APP_ENVIRONMENT_REPOSITORY"]
  {
    GetEnvOrDefault(env, "APP_ENVIRONMENT_REPOSITORY", DefaultEnvironmentRepository)
  }

  /** GetEnvironmentVersion: APP_ENVIRONMENT_VERSION, or the built-in version. */
  function GetEnvironmentVersion(env: Env): (r: string)
    ensures r != ""
    ensures MapIndex(env, "APP_ENVIRONMENT_VERSION") == "" ==> r == DefaultEnvironmentVersion
    ensures MapIndex(env, "APP_ENVIRONMENT_VERSION") != "" ==> r == env["APP_ENVIRONMENT_VERSION"]
  {
    GetEnvOrDefault(env, "APP_ENVIRONMENT_VERSION", DefaultEnvironmentVersion)
  }

  /** GetKubernetesVersion: APP_INSTANCE_KUBERNETES_VERSION, or "1.23.5". */
  function GetKubernetesVersion(env: Env): (r: string)
    ensures r != ""
    ensures MapIndex(env, "APP_INSTANCE_KUBERNETES_VERSION") == "" ==> r == DefaultKubernetesVersion
    ensures MapIndex(env, "APP_INSTANCE_KUBERNETES_VERSION") != "" ==> r == env["APP_INSTANCE_KUBERNETES_VERSION"]
  {
    GetEnvOrDefault(env, "APP_INSTANCE_KUBERNETES_VERSION", DefaultKubernetesVersion)
  }

  /** GetInstanceDefaultNodeSize: APP_INSTANCE_NODE_SIZE, or "c3.small.x86". */
  function GetInstanceDefaultNodeSize(env: Env): (r: string)
    ensures r != ""
    ensures MapIndex(env, "APP_INSTANCE_NODE_SIZE") == "" ==> r == DefaultNodeSize
    ensures MapIndex(env, "APP_INSTANCE_NODE_SIZE") != "" ==> r == env["APP_INSTANCE_NODE_SIZE"]
  {
    GetEnvOrDefault(env, "APP_INSTANCE_NODE_SIZE", DefaultNodeSize)
  }

  // ---------------------------------------------------------------------
  // Generated names

  /** The name GenerateName builds from a user and four letter draws. */
  function GeneratedName(user: string, draws: seq<LetterDraw>): (name: string)
    requires |draws| == 4
    ensures |name| == |user| + 5
    ensures IsLower(name)
    ensures name[..|user|] == ToLower(user) && name[|user|] == '-'
    ensures name[|user| + 1..] == Drawn(draws)
  {
    var name := ToLower(user + "-" + Drawn(draws));
    ToLowerConcat(user + "-", Drawn(draws));
    ToLowerConcat(user, "-");
    DrawnIsLower(draws);
    ToLowerOfLower(Drawn(draws));
    assert ToLower("-") == "-";
    assert name == ToLower(user) + "-" + Drawn(draws);
    name
  }

  /** GenerateName: "<user>-<four random letters>", lower-cased. */
  method GenerateName(instance: InstanceSpec, draws: seq<LetterDraw>) returns (name: string)
    requires |draws| == 4
    ensures name == GeneratedName(instance.setup.user, draws)
  {
    var randomString := RandomSequence(4, draws);
    name := instance.setup.user + "-" + randomString;
    name := ToLower(name);
  }

  // ---------------------------------------------------------------------
  // The "add" template function

  /** The sum of some integers. */
  function Sum(ns: seq<int>): int
    decreases |ns|
  {
    if ns == [] then 0 else ns[0] + Sum(ns[1..])
  }

  /** "add": accumulates its arguments left to right. */
  method Add(n: seq<int>) returns (output: int)
    ensures output == Sum(n)
  {
    output := 0;
    for k := 0 to |n|
      invariant output == Sum(n[..k])
    {
      SumSnoc(n[..k], n[k]);
      assert n[..k + 1] == n[..k] + [n[k]];
      output := output + n[k];
    }
    assert n[..|n|] == n;
  }

  lemma {:induction false} SumSnoc(s: seq<int>, x: int)
    ensures Sum(s + [x]) == Sum(s) + x
    decreases |s|
  {
    if s == [] {
      assert [x][1..] == [];
    } else {
      assert (s + [x])[1..] == s[1..] + [x];
      SumSnoc(s[1..], x);
    }
  }

  /** Taking one argument out of the middle. */
  lemma {:induction false} SumRemove(s: seq<int>, i: nat)
    requires i < |s|
    ensures Sum(s) == s[i] + Sum(s[..i] + s[i + 1..])
    decreases i
  {
    if i == 0 {
      assert s[..0] + s[1..] == s[1..];
    } else {
      SumRemove(s[1..], i - 1);
      assert s[1..][..i - 1] + s[1..][i..] == (s[..i] + s[i + 1..])[1..];
    }
  }

  /** The sum does not depend on the order of the arguments. */
  lemma {:induction false} SumPermutation(a: seq<int>, b: seq<int>)
    requires multiset(a) == multiset(b)
    ensures Sum(a) == Sum(b)
    decreases |a|
  {
    if a == [] {
      assert |b| == |multiset(b)| == 0;
    } else {
      assert a[0] in multiset(b);
      var j :| 0 <= j < |b| && b[j] == a[0];
      var rest := b[..j] + b[j + 1..];
      assert b == b[..j] + [b[j]] + b[j + 1..];
      assert multiset(rest) == multiset(b) - multiset{b[j]};
      assert a == [a[0]] + a[1..];
      assert multiset(a[1..]) == multiset(a) - multiset{a[0]};
      SumPermutation(a[1..], rest);
      SumRemove(b, j);
    }
  }

  // ---------------------------------------------------------------------
  // Lookups in the env maps of a SetupSpec

  /** GetValueFromEnvMap: scans the map's keys; "" when `key` is absent. */
  method GetValueFromEnvMap(input: map<string, string>, key: string) returns (value: string)
    ensures value == MapIndex(input, key)
    ensures key !in input ==> value == ""
  {
    var keys := input.Keys;
    while keys != {}
      invariant keys <= input.Keys
      invariant key in input ==> key in keys
      decreases |keys|
    {
      var mapKey :| mapKey in keys;
      if mapKey == key {
        return input[mapKey];
      }
      keys := keys - {mapKey};
    }
    return "";
  }

  /** The first non-empty value of `key` in the maps, in slice order; "" if there is none. */
  function EnvSliceValue(input: seq<map<string, string>>, key: string): (value: string)
    ensures value == "" <==> forall i :: 0 <= i < |input| ==> MapIndex(input[i], key) == ""
    ensures value != "" ==> exists i :: 0 <= i < |input| && MapIndex(input[i], key) == value
    decreases |input|
  {
    if input == [] then ""
    else if MapIndex(input[0], key) != "" then MapIndex(input[0], key)
    else
      var rest := EnvSliceValue(input[1..], key);
      assert forall i :: 1 <= i < |input| ==> input[i] == input[1..][i - 1];
      rest
  }

  /** The map that holds the first non-empty value decides the result. */
  lemma {:induction false} EnvSliceFirstWins(input: seq<map<string, string>>, key: string, i: nat)
    requires i < |input| && MapIndex(input[i], key) != ""
    requires forall j :: 0 <= j < i ==> MapIndex(input[j], key) == ""
    ensures EnvSliceValue(input, key) == MapIndex(input[i], key)
    decreases i
  {
    if i > 0 {
      assert forall j :: 0 <= j < i - 1 ==> input[1..][j] == input[j + 1];
      EnvSliceFirstWins(input[1..], key, i - 1);
    }
  }

  /** GetValueFromEnvSlice: returns at the first map with a non-empty value for `key`. */
  method GetValueFromEnvSlice(input: seq<map<string, string>>, key: string) returns (value: string)
    ensures value == EnvSliceValue(input, key)
  {
    for k := 0 to |input|
      invariant forall j :: 0 <= j < k ==> MapIndex(input[j], key) == ""
    {
      value := GetValueFromEnvMap(input[k], key);
      if value != "" {
        EnvSliceFirstWins(input, key, k);
        return value;
      }
    }
    return "";
  }
}
