/**
 * The helpers of apps/cluster-api-manager/common/common.go: environment
 * lookups with defaults, slice helpers, the instance-name check and the
 * admin-account decision.
 *
 * The process environment is a parameter (`Env`); `os.Getenv` of a
 * variable that is not set is "". `govalidator.IsURL` and `rand.Intn` are
 * not part of this model: the first is a predicate parameter, the second a
 * sequence of draws supplied by the caller.
 */
module Common {
  import opened GoStrings

  /** The process environment. */
  type Env = map<string, string>

  /**
   * GetEnvOrDefault: the variable's value, or `defaultValue` when it is unset
   * or set to "" (the two cannot be told apart).
   */
  function GetEnvOrDefault(env: Env, envName: string, defaultValue: string): (output: string)
    ensures output == defaultValue || (envName in env && output == env[envName])
    ensures output == "" ==> defaultValue == ""
    ensures envName in env && env[envName] != "" ==> output == env[envName]
  {
    var output := MapIndex(env, envName);
    if output == "" then defaultValue else output
  }

  /** A variable set to "" reads exactly like an unset one. */
  lemma EmptyVariableIsUnset(env: Env, envName: string, defaultValue: string)
    ensures GetEnvOrDefault(env[envName := ""], envName, defaultValue)
         == GetEnvOrDefault(env - {envName}, envName, defaultValue)
         == defaultValue
  {
  }

  function GetTargetNamespace(env: Env): string
  {
    GetEnvOrDefault(env, "APP_TARGET_NAMESPACE", "sharingio-pair-instances")
  }

  function GetBaseHost(env: Env): string
  {
    GetEnvOrDefault(env, "APP_BASE_HOST", "")
  }

  function GetPacketProjectID(env: Env): string
  {
    GetEnvOrDefault(env, "APP_PACKET_PROJECT_ID", "")
  }

  function GetAdminEmailDomain(env: Env): string
  {
    GetEnvOrDefault(env, "APP_ADMIN_EMAIL_DOMAIN", "")
  }

  /** GetNonAdminInstanceMaxAmount: the parsed limit; -1 when the variable is unset. */
  function GetNonAdminInstanceMaxAmount(env: Env): int
  {
    Atoi(GetEnvOrDefault(env, "APP_NON_ADMIN_INSTANCE_MAX_AMOUNT", "-1"))
  }

  /** Without the variable, or with it empty, the limit is -1, which no instance count equals. */
  lemma UnsetInstanceMaxIsMinusOne(env: Env)
    requires MapIndex(env, "APP_NON_ADMIN_INSTANCE_MAX_AMOUNT") == ""
    ensures GetNonAdminInstanceMaxAmount(env) == -1
  {
    assert DigitsValue("1") == 1 by {
      assert "1"[..0] == "";
    }
  }

  /**
   * GetInstanceContainerRegistryMirrors: the space-separated mirror list;
   * without the variable it is one empty entry, never an empty list.
   * Joining the entries with spaces gives the variable back.
   */
  function GetInstanceContainerRegistryMirrors(env: Env): (mirrors: seq<string>)
    ensures |mirrors| >= 1
    ensures forall i :: 0 <= i < |mirrors| ==> ' ' !in mirrors[i]
    ensures Join(mirrors, " ") == GetEnvOrDefault(env, "APP_INSTANCE_CONTAINER_REGISTRY_MIRRORS", "")
  {
    var value := GetEnvOrDefault(env, "APP_INSTANCE_CONTAINER_REGISTRY_MIRRORS", "");
    JoinSplit(value, ' ');
    Split(value, ' ')
  }

  // ---------------------------------------------------------------------
  // Slices

  const GitHubPrefix: string := "https://github.com/"

  /** One repo as AddRepoGitHubPrefix leaves it. */
  function PrefixedRepo(repo: string, isURL: string -> bool): string
  {
    if isURL(repo) then repo else GitHubPrefix + repo
  }

  /** The repos with every non-URL entry turned into a GitHub link. */
  function WithGitHubPrefix(repos: seq<string>, isURL: string -> bool): (r: seq<string>)
    ensures |r| == |repos|
    ensures forall i :: 0 <= i < |repos| && isURL(repos[i]) ==> r[i] == repos[i]
    ensures forall i :: 0 <= i < |repos| && !isURL(repos[i]) ==> r[i] == GitHubPrefix + repos[i]
    decreases |repos|
  {
    if repos == [] then [] else [PrefixedRepo(repos[0], isURL)] + WithGitHubPrefix(repos[1..], isURL)
  }

  /** AddRepoGitHubPrefix: appends each repo, prefixed unless it is a URL. */
  method AddRepoGitHubPrefix(repos: seq<string>, isURL: string -> bool) returns (reposModified: seq<string>)
    ensures reposModified == WithGitHubPrefix(repos, isURL)
  {
    reposModified := [];
    for k := 0 to |repos|
      invariant |reposModified| == k
      invariant forall i :: 0 <= i < k ==> reposModified[i] == PrefixedRepo(repos[i], isURL)
    {
      var repo := repos[k];
      if !isURL(repo) {
        repo := GitHubPrefix + repo;
      }
      reposModified := reposModified + [repo];
    }
  }

  /** The elements of `s` in the opposite order. */
  function Reversed<T>(s: seq<T>): (r: seq<T>)
    ensures |r| == |s|
    ensures forall i :: 0 <= i < |s| ==> r[i] == s[|s| - 1 - i]
    decreases |s|
  {
    if s == [] then [] else Reversed(s[1..]) + [s[0]]
  }

  /** Reversing twice gives back the input. */
  lemma ReversedTwice<T>(s: seq<T>)
    ensures Reversed(Reversed(s)) == s
  {
  }

  /** ReverseStringArray: walks the input from the back, appending. */
  method ReverseStringArray(input: seq<string>) returns (output: seq<string>)
    ensures output == Reversed(input)
  {
    output := [];
    var i := |input| - 1;
    while i >= 0
      invariant -1 <= i < |input|
      invariant output == Reversed(input[i + 1..])
    {
      assert input[i..][1..] == input[i + 1..];
      output := output + [input[i]];
      i := i - 1;
    }
    assert input[0..] == input;
  }

  // ---------------------------------------------------------------------
  // Random sequences

  /** The alphabet of generated names: no vowels, no look-alike characters. */
  const Letters: string := "bcdfghjklmnpqrstvwxz2456789"

  /** One `rand.Intn(len(letters))` result. */
  type LetterDraw = i: int | 0 <= i < 27

  /** The characters picked by a sequence of draws. */
  function Drawn(draws: seq<LetterDraw>): (s: string)
    ensures |s| == |draws|
    ensures forall i :: 0 <= i < |s| ==> s[i] in Letters
  {
    seq(|draws|, i requires 0 <= i < |draws| => Letters[draws[i]])
  }

  /** RandomSequence: fills a rune buffer of length n from the draws. */
  method RandomSequence(n: nat, draws: seq<LetterDraw>) returns (s: string)
    requires |draws| == n
    ensures s == Drawn(draws)
  {
    var b := new char[n];
    for i := 0 to n
      invariant forall j :: 0 <= j < i ==> b[j] == Letters[draws[j]]
    {
      b[i] := Letters[draws[i]];
    }
    s := b[..];
  }

  /** The alphabet is lower-case, so drawn text is never changed by ToLower. */
  lemma DrawnIsLower(draws: seq<LetterDraw>)
    ensures IsLower(Drawn(draws))
  {
    forall i | 0 <= i < |draws| ensures !IsUpper(Drawn(draws)[i]) {
      assert Letters[draws[i]] in Letters;
    }
  }

  // ---------------------------------------------------------------------
  // Names

  predicate IsLowerAlnum(c: char) { 'a' <= c <= 'z' || '0' <= c <= '9' }

  predicate IsNameChar(c: char) { IsLowerAlnum(c) || c == '-' }

  /** One repetition of the group `[a-z0-9]([-a-z0-9]*[a-z0-9])?`. */
  predicate IsGroup(p: string)
  {
    || (|p| == 1 && IsLowerAlnum(p[0]))
    || (|p| >= 2 && IsLowerAlnum(p[0]) && IsLowerAlnum(p[|p| - 1])
        && forall i :: 0 < i < |p| - 1 ==> IsNameChar(p[i]))
  }

  /**
   * ValidateName: a match of the whole input against
   * `^([a-z0-9]([-a-z0-9]*[a-z0-9])?([a-z0-9]([-a-z0-9]*[a-z0-9])?)*)$`,
   * that is, one or more groups one after the other.
   */
  predicate ValidateName(input: string)
    decreases |input|
  {
    exists k | 1 <= k <= |input| ::
      IsGroup(input[..k]) && (k == |input| || ValidateName(input[k..]))
  }

  /** The language of the name pattern, stated directly. */
  predicate IsDNSLabelLike(s: string)
  {
    && |s| >= 1
    && IsLowerAlnum(s[0]) && IsLowerAlnum(s[|s| - 1])
    && forall i :: 0 <= i < |s| ==> IsNameChar(s[i])
  }

  /**
   * The name pattern accepts exactly the non-empty strings over [a-z0-9-]
   * that start and end with a letter or digit.
   */
  lemma {:induction false} ValidateNameIff(s: string)
    ensures ValidateName(s) <==> IsDNSLabelLike(s)
    decreases |s|
  {
    if ValidateName(s) {
      var k :| 1 <= k <= |s| && IsGroup(s[..k]) && (k == |s| || ValidateName(s[k..]));
      if k < |s| {
        ValidateNameIff(s[k..]);
        assert s == s[..k] + s[k..];
        forall i | 0 <= i < |s| ensures IsNameChar(s[i]) {
          if i >= k { assert s[i] == s[k..][i - k]; } else { assert s[i] == s[..k][i]; }
        }
        assert s[|s| - 1] == s[k..][|s| - k - 1];
      } else {
        assert s[..k] == s;
      }
    }
    if IsDNSLabelLike(s) {
      assert s[..|s|] == s;
      assert IsGroup(s[..|s|]);
    }
  }

  /** Accepted names have no upper-case letters, so ToLower keeps them. */
  lemma ValidNameIsLower(s: string)
    requires ValidateName(s)
    ensures IsLower(s)
  {
    ValidateNameIff(s);
  }

  lemma NameExamples()
    ensures ValidateName("bob-pair-2")
    ensures !ValidateName("Bob") && !ValidateName("a.b") && !ValidateName("-ab") && !ValidateName("ab-") && !ValidateName("")
  {
    ValidateNameIff("bob-pair-2");
    ValidateNameIff("Bob");
    ValidateNameIff("a.b");
    ValidateNameIff("-ab");
    ValidateNameIff("ab-");
    ValidateNameIff("");
    assert "a.b"[1] == '.';
  }

  // ---------------------------------------------------------------------
  // Email domains and admin accounts

  /** ReturnValueOrDefault: `first` unless it is empty, then `second`. */
  function ReturnValueOrDefault(first: string, second: string): (r: string)
    ensures r == first || r == second
    ensures first != "" ==> r == first
    ensures r == "" <==> first == "" && second == ""
  {
    if first != "" then first else second
  }

  /** GetEmailDomainFromEmail: the text after the last "@", or "" without one. */
  function GetEmailDomainFromEmail(email: string): (domain: string)
    ensures '@' !in domain
    ensures '@' !in email ==> domain == ""
    ensures '@' in email ==> |domain| < |email| && email[|email| - |domain| - 1..] == "@" + domain
  {
    var at := LastIndex(email, '@');
    if at >= 0 then email[at + 1..] else ""
  }

  datatype GitHubEmail = GitHubEmail(email: string)

  /** The admin rule: no admin domain configured, or some email in that exact domain. */
  predicate IsAdmin(emails: seq<GitHubEmail>, adminEmailDomain: string)
  {
    adminEmailDomain == ""
    || exists i :: 0 <= i < |emails| && GetEmailDomainFromEmail(emails[i].email) == adminEmailDomain
  }

  /** AccountIsAdmin: scans the emails for one in the admin domain. */
  method AccountIsAdmin(emails: seq<GitHubEmail>, env: Env) returns (admin: bool)
    ensures admin == IsAdmin(emails, GetAdminEmailDomain(env))
  {
    var adminEmailDomain := GetAdminEmailDomain(env);
    if adminEmailDomain == "" {
      return true;
    }
    for i := 0 to |emails|
      invariant forall j :: 0 <= j < i ==> GetEmailDomainFromEmail(emails[j].email) != adminEmailDomain
    {
      if GetEmailDomainFromEmail(emails[i].email) == adminEmailDomain {
        return true;
      }
    }
    return false;
  }

  /** A sub-domain of the admin domain does not make an account admin. */
  lemma SubdomainIsNotAdmin()
    ensures !IsAdmin([GitHubEmail("ann@dev.example.org")], "example.org")
  {
    var d := GetEmailDomainFromEmail("ann@dev.example.org");
    assert d != "example.org";
  }
}
