/**
 * apps/cluster-api-manager/instances/instances.go: validation of an
 * instance request, the admission decisions Create takes before handing the
 * request to the Kubernetes backend, and the List and Delete dispatch.
 *
 * The govalidator and net/url checks are the predicates of `Validators`.
 * The Kubernetes side is `KubernetesApi`: the four listings KubernetesList
 * reads, the tmate lookup, JSON encoding and the answers to creations.
 */
module Instances {
  import opened Wrappers
  import opened GoStrings
  import opened Common
  import Seqs
  import opened InstanceTypes
  import opened ClusterObjects
  import opened InstancesCommon
  import opened Kubernetes
  import opened KubernetesListing

  /** The foreign checks ValidateInstance and Create rely on. */
  datatype Validators = Validators(
    isURL: string -> bool,             // govalidator.IsURL
    parsesAsRequestURI: string -> bool, // url.ParseRequestURI returns no error
    isFilePath: string -> bool,        // govalidator.IsFilePath
    isEmail: string -> bool)           // govalidator.IsEmail

  /** The first check a request fails, with the offending values. */
  datatype ValidationError =
    | InvalidName(name: string)
    | InvalidType
    | NoUser
    | NoGuests
    | InvalidGuests(guests: seq<string>)
    | InvalidRepos(repos: seq<string>)
    | InvalidEmail

  predicate IsEmptyGuest(guest: string)
  {
    guest == ""
  }

  /** A repo is rejected when it is empty, or when it is both a request URI and a file path. */
  predicate IsInvalidRepo(v: Validators, repo: string)
  {
    repo == "" || (v.parsesAsRequestURI(repo) && v.isFilePath(repo))
  }

  function InvalidRepoTest(v: Validators): string -> bool
  {
    repo => IsInvalidRepo(v, repo)
  }

  /** The outcome of ValidateInstance: the checks in their fixed order, the first failure wins. */
  function Validation(instance: InstanceSpec, v: Validators): Option<ValidationError>
  {
    if !ValidateName(instance.name) && instance.name != "" then Some(InvalidName(instance.name))
    else if instance.instanceType == "" || !(instance.instanceType == TypeKubernetes || instance.instanceType == TypePlain)
    then Some(InvalidType)
    else if instance.setup.user == "" then Some(NoUser)
    else if instance.instanceType == TypePlain && |instance.setup.guests| < 1 then Some(NoGuests)
    else if instance.instanceType == TypePlain && |Seqs.Filter(instance.setup.guests, IsEmptyGuest)| > 0
    then Some(InvalidGuests(Seqs.Filter(instance.setup.guests, IsEmptyGuest)))
    else if |Seqs.Filter(instance.setup.repos, InvalidRepoTest(v))| > 0
    then Some(InvalidRepos(Seqs.Filter(instance.setup.repos, InvalidRepoTest(v))))
    else if !v.isEmail(instance.setup.email) || instance.setup.email == "" then Some(InvalidEmail)
    else None
  }

  /** What a valid request is: exactly the requests ValidateInstance accepts. */
  predicate Valid(instance: InstanceSpec, v: Validators)
  {
    && (instance.name == "" || ValidateName(instance.name))
    && (instance.instanceType == TypeKubernetes || instance.instanceType == TypePlain)
    && instance.setup.user != ""
    && (instance.instanceType == TypePlain ==>
          |instance.setup.guests| >= 1
          && forall i :: 0 <= i < |instance.setup.guests| ==> instance.setup.guests[i] != "")
    && (forall i :: 0 <= i < |instance.setup.repos| ==> !IsInvalidRepo(v, instance.setup.repos[i]))
    && instance.setup.email != "" && v.isEmail(instance.setup.email)
  }

  /** ValidateInstance succeeds exactly on valid requests; a reported guest or repo list names only offending entries. */
  lemma ValidationIff(instance: InstanceSpec, v: Validators)
    ensures Validation(instance, v).None? <==> Valid(instance, v)
    ensures Validation(instance, v).Some? && Validation(instance, v).value.InvalidGuests? ==>
      var bad := Validation(instance, v).value.guests;
      |bad| > 0 && forall g :: g in bad ==> g == ""
    ensures Validation(instance, v).Some? && Validation(instance, v).value.InvalidRepos? ==>
      var bad := Validation(instance, v).value.repos;
      |bad| > 0 && forall r :: r in bad ==> r in instance.setup.repos && IsInvalidRepo(v, r)
  {
    Seqs.FilterEmpty(instance.setup.guests, IsEmptyGuest);
    Seqs.FilterEmpty(instance.setup.repos, InvalidRepoTest(v));
  }

  /**
   * The error lists are complete: an InvalidGuests error holds one entry per
   * empty guest, and an InvalidRepos error holds every invalid repo as often
   * as the request does.
   */
  lemma ValidationReportsAll(instance: InstanceSpec, v: Validators)
    ensures Validation(instance, v).Some? && Validation(instance, v).value.InvalidGuests? ==>
      |Validation(instance, v).value.guests| == multiset(instance.setup.guests)[""]
    ensures Validation(instance, v).Some? && Validation(instance, v).value.InvalidRepos? ==>
      var bad := Validation(instance, v).value.repos;
      forall r :: r in instance.setup.repos && IsInvalidRepo(v, r) ==>
        r in bad && multiset(bad)[r] == multiset(instance.setup.repos)[r]
  {
    EmptyGuestsCounted(instance.setup.guests);
    InvalidReposCounted(instance.setup.repos, v);
  }

  /** Every invalid repo is reported, as often as it occurs. */
  lemma InvalidReposCounted(repos: seq<string>, v: Validators)
    ensures var bad := Seqs.Filter(repos, InvalidRepoTest(v));
      forall r :: r in repos && IsInvalidRepo(v, r) ==> r in bad && multiset(bad)[r] == multiset(repos)[r]
  {
    Seqs.FilterMultiset(repos, InvalidRepoTest(v));
  }

  /** Every empty guest is reported: the list of empty guests is as long as their count. */
  lemma EmptyGuestsCounted(guests: seq<string>)
    ensures |Seqs.Filter(guests, IsEmptyGuest)| == multiset(guests)[""]
  {
    var empties := Seqs.Filter(guests, IsEmptyGuest);
    Seqs.FilterMultiset(guests, IsEmptyGuest);
    assert forall i :: 0 <= i < |empties| ==> empties[i] == "" by {
      forall i | 0 <= i < |empties|
        ensures empties[i] == ""
      {
        assert empties[i] in empties;
      }
    }
    Seqs.LengthOfConstant(empties, "");
  }

  /** A Kubernetes request skips the guest checks: empty or missing guests are accepted. */
  lemma KubernetesSkipsGuestChecks(instance: InstanceSpec, v: Validators)
    requires instance.instanceType == TypeKubernetes
    ensures Validation(instance, v) == Validation(instance.(setup := instance.setup.(guests := [""])), v)
  {
  }

  /** The guest loop of ValidateInstance: the empty guests, in order. */
  method CollectEmptyGuests(guests: seq<string>) returns (invalidGuests: seq<string>)
    ensures invalidGuests == Seqs.Filter(guests, IsEmptyGuest)
  {
    invalidGuests := [];
    for k := 0 to |guests|
      invariant invalidGuests == Seqs.Filter(guests[..k], IsEmptyGuest)
    {
      Seqs.FilterSnoc(guests[..k], guests[k], IsEmptyGuest);
      assert guests[..k + 1] == guests[..k] + [guests[k]];
      if guests[k] == "" {
        invalidGuests := invalidGuests + [guests[k]];
      }
    }
    assert guests[..|guests|] == guests;
  }

  /** The repo loop of ValidateInstance: the invalid repos, in order. */
  method CollectInvalidRepos(repos: seq<string>, v: Validators) returns (invalidRepos: seq<string>)
    ensures invalidRepos == Seqs.Filter(repos, InvalidRepoTest(v))
  {
    invalidRepos := [];
    for k := 0 to |repos|
      invariant invalidRepos == Seqs.Filter(repos[..k], InvalidRepoTest(v))
    {
      Seqs.FilterSnoc(repos[..k], repos[k], InvalidRepoTest(v));
      assert repos[..k + 1] == repos[..k] + [repos[k]];
      var repo := repos[k];
      var isURL := v.parsesAsRequestURI(repo);
      var filePathValid := v.isFilePath(repo);
      if repo == "" || !(isURL != true || filePathValid != true) {
        invalidRepos := invalidRepos + [repo];
      }
    }
    assert repos[..|repos|] == repos;
  }

  /** ValidateInstance: runs the checks in order, collecting empty guests and invalid repos. */
  method ValidateInstance(instance: InstanceSpec, v: Validators) returns (err: Option<ValidationError>)
    ensures err == Validation(instance, v)
  {
    if !ValidateName(instance.name) && instance.name != "" {
      return Some(InvalidName(instance.name));
    }
    if instance.instanceType == "" || !(instance.instanceType == TypeKubernetes || instance.instanceType == TypePlain) {
      return Some(InvalidType);
    }
    if instance.setup.user == "" {
      return Some(NoUser);
    }
    if instance.instanceType == TypePlain {
      var guests := instance.setup.guests;
      if |guests| < 1 {
        return Some(NoGuests);
      }
      var invalidGuests := CollectEmptyGuests(guests);
      if |invalidGuests| > 0 {
        return Some(InvalidGuests(invalidGuests));
      }
    }
    var invalidRepos := CollectInvalidRepos(instance.setup.repos, v);
    if |invalidRepos| > 0 {
      return Some(InvalidRepos(invalidRepos));
    }
    if v.isEmail(instance.setup.email) != true || instance.setup.email == "" {
      return Some(InvalidEmail);
    }
    return None;
  }

  // ---------------------------------------------------------------------
  // List and Delete

  /** The Kubernetes side of Create and List. */
  datatype KubernetesApi = KubernetesApi(
    controlPlanes: Listing,
    machines: Listing,
    packetMachines: Listing,
    clusters: Listing,
    tmate: (string, string) -> string,
    marshal: seq<map<string, string>> -> string,
    unmarshal: string -> seq<map<string, string>>,
    create: Object -> CreateOutcome)

  /** The instances KubernetesList reports for a username filter, errors or not. */
  function KubernetesListed(api: KubernetesApi, username: string): seq<Instance>
  {
    ListOutcome(api.controlPlanes, api.machines, api.packetMachines, api.clusters, username, api.tmate, api.unmarshal).instances
  }

  /**
   * List: the Kubernetes listing unless the filter asks for Plain
   * instances, which are not listed; the listing's error is dropped.
   */
  method List(filterType: string, username: string, api: KubernetesApi) returns (instances: seq<Instance>, err: Option<string>)
    ensures err.None?
    ensures filterType == TypePlain ==> instances == []
    ensures filterType != TypePlain ==> instances == KubernetesListed(api, username)
  {
    instances := [];
    if filterType == TypeKubernetes {
      instances, err := KubernetesList(api.controlPlanes, api.machines, api.packetMachines, api.clusters,
                                       username, api.tmate, api.unmarshal);
    } else if filterType == TypePlain {
    } else {
      instances, err := KubernetesList(api.controlPlanes, api.machines, api.packetMachines, api.clusters,
                                       username, api.tmate, api.unmarshal);
    }
    return instances, None;
  }

  /** Delete: Kubernetes instances are deleted by name; Plain ones need nothing; other types are an error. */
  method Delete(instance: InstanceSpec, kubernetesDelete: string -> Option<string>) returns (err: Option<string>)
    ensures instance.instanceType == TypeKubernetes ==> err == kubernetesDelete(instance.name)
    ensures instance.instanceType == TypePlain ==> err.None?
    ensures instance.instanceType != TypeKubernetes && instance.instanceType != TypePlain ==>
      err == Some("Invalid instance type")
  {
    err := None;
    if instance.instanceType == TypeKubernetes {
      err := kubernetesDelete(instance.name);
    } else if instance.instanceType == TypePlain {
    } else {
      return Some("Invalid instance type");
    }
    return err;
  }

  // ---------------------------------------------------------------------
  // Create

  /** Why Create refused a request. */
  datatype CreateError = Invalid(reason: ValidationError) | MaxInstancesReached | NameExists

  /** The name and name scheme Create settles on before the duplicate check. */
  function ChosenName(name: string, userLowercase: string, user: string, existing: nat,
                      draws: seq<LetterDraw>): (chosen: (string, string))
    requires |draws| == 4
  {
    if existing == 0 && name == "" then (userLowercase, SchemeSpecified)
    else if existing > 0 && name == "" then (GeneratedName(user, draws), SchemeGenerateFromUsername)
    else (name, SchemeSpecified)
  }

  /** Whether the quota stops a request: a non-admin whose instance count equals the maximum. */
  predicate QuotaReached(instance: InstanceSpec, existing: nat, env: Env)
  {
    !IsAdmin(instance.setup.extraEmails, GetAdminEmailDomain(env)) && existing == GetNonAdminInstanceMaxAmount(env)
  }

  /**
   * The request Create hands to the backend, or why it refuses: validation,
   * then the quota, then the name scheme and the duplicate check, then the
   * lower-cased name, the GitHub prefixes and the timezone and fullname
   * defaults.
   */
  function Admit(instance: InstanceSpec, instancesOfUser: seq<Instance>, env: Env, v: Validators,
                 draws: seq<LetterDraw>): Result<InstanceSpec, CreateError>
    requires |draws| == 4
  {
    if Validation(instance, v).Some? then Failure(Invalid(Validation(instance, v).value))
    else if QuotaReached(instance, |instancesOfUser|, env) then Failure(MaxInstancesReached)
    else
      var userLowercase := ToLower(instance.setup.user);
      var chosen := ChosenName(instance.name, userLowercase, instance.setup.user, |instancesOfUser|, draws);
      if chosen.1 == SchemeSpecified && chosen.0 in Names(instancesOfUser) then Failure(NameExists)
      else
        Success(instance.(
          name := ToLower(chosen.0),
          nameScheme := chosen.1,
          setup := instance.setup.(
            userLowercase := userLowercase,
            repos := WithGitHubPrefix(instance.setup.repos, v.isURL),
            timezone := if instance.setup.timezone == "" then DefaultTimezone else instance.setup.timezone,
            fullname := if instance.setup.fullname == "" then instance.setup.user else instance.setup.fullname)))
  }

  /**
   * Create: validates, lists the user's instances, applies the quota,
   * chooses the name, rejects a duplicate, fills the defaults and
   * dispatches. A Kubernetes request returns the clamped spec and no error,
   * whether or not a creation failed; a Plain request returns the zero spec.
   */
  method Create(instance: InstanceSpec, env: Env, v: Validators, draws: seq<LetterDraw>, dryRun: bool,
                api: KubernetesApi)
    returns (instanceCreated: InstanceSpec, err: Option<CreateError>)
    requires |draws| == 4
    ensures var admitted := Admit(instance, KubernetesListed(api, instance.setup.user), env, v, draws);
      && (admitted.Failure? ==> instanceCreated == ZeroSpec && err == Some(admitted.error))
      && (admitted.Success? && admitted.value.instanceType == TypeKubernetes ==>
            err.None? && instanceCreated == admitted.value.(kubernetesNodeCount := ClampNodeCount(admitted.value.kubernetesNodeCount)))
      && (admitted.Success? && admitted.value.instanceType == TypePlain ==> err.None? && instanceCreated == ZeroSpec)
  {
    instanceCreated := ZeroSpec;
    var invalid := ValidateInstance(instance, v);
    if invalid.Some? {
      return instanceCreated, Some(Invalid(invalid.value));
    }
    var instancesOfUser, listErr := List("", instance.setup.user, api);
    if listErr.Some? {
      assert false;
    }

    var admin := AccountIsAdmin(instance.setup.extraEmails, env);
    if admin != true {
      if |instancesOfUser| == GetNonAdminInstanceMaxAmount(env) {
        return instanceCreated, Some(MaxInstancesReached);
      }
    }

    var spec := instance;
    spec := spec.(setup := spec.setup.(userLowercase := ToLower(spec.setup.user)));
    var nameScheme := "";
    if |instancesOfUser| == 0 && spec.name == "" {
      spec := spec.(name := spec.setup.userLowercase);
      nameScheme := SchemeSpecified;
    } else if |instancesOfUser| > 0 && spec.name == "" {
      var generated := GenerateName(spec, draws);
      spec := spec.(name := generated);
      nameScheme := SchemeGenerateFromUsername;
    } else if spec.name != "" {
      nameScheme := SchemeSpecified;
    }

    if nameScheme == SchemeSpecified {
      var taken := HasInstanceNamed(instancesOfUser, spec.name);
      if taken {
        return instanceCreated, Some(NameExists);
      }
    }
    spec := spec.(name := ToLower(spec.name));
    spec := spec.(nameScheme := nameScheme);

    var repos := AddRepoGitHubPrefix(spec.setup.repos, v.isURL);
    spec := spec.(setup := spec.setup.(repos := repos));
    if spec.setup.timezone == "" {
      spec := spec.(setup := spec.setup.(timezone := DefaultTimezone));
    }
    if spec.setup.fullname == "" {
      spec := spec.(setup := spec.setup.(fullname := spec.setup.user));
    }
    ValidationIff(instance, v);
    assert Admit(instance, instancesOfUser, env, v, draws) == Success(spec);
    if spec.instanceType == TypeKubernetes {
      var kubernetesErr;
      instanceCreated, kubernetesErr := KubernetesCreate(spec, env, dryRun, api.create, api.marshal);
    } else if spec.instanceType == TypePlain {
    } else {
      assert false;
    }
    return instanceCreated, None;
  }

  /** The duplicate check of Create: scans the user's instances for `name`. */
  method HasInstanceNamed(instancesOfUser: seq<Instance>, name: string) returns (taken: bool)
    ensures taken <==> name in Names(instancesOfUser)
  {
    for k := 0 to |instancesOfUser|
      invariant name !in Names(instancesOfUser)[..k]
    {
      assert Names(instancesOfUser)[..k + 1] == Names(instancesOfUser)[..k] + [instancesOfUser[k].spec.name];
      if name == instancesOfUser[k].spec.name {
        assert Names(instancesOfUser)[k] == name;
        return true;
      }
    }
    assert Names(instancesOfUser)[..|instancesOfUser|] == Names(instancesOfUser);
    return false;
  }

  // ---------------------------------------------------------------------
  // Properties of admission

  /**
   * The name scheme: GenerateFromUsername exactly when no name was given
   * and the user has instances; a given name is kept, and without a name or
   * instances the user's lower-cased name is used.
   */
  lemma AdmittedNameScheme(instance: InstanceSpec, instancesOfUser: seq<Instance>, env: Env, v: Validators,
                           draws: seq<LetterDraw>)
    requires |draws| == 4
    requires Admit(instance, instancesOfUser, env, v, draws).Success?
    ensures var p := Admit(instance, instancesOfUser, env, v, draws).value;
      && (p.nameScheme == SchemeGenerateFromUsername <==> instance.name == "" && |instancesOfUser| > 0)
      && (p.nameScheme != SchemeGenerateFromUsername ==> p.nameScheme == SchemeSpecified)
      && (instance.name != "" ==> p.name == instance.name)
      && (instance.name == "" && |instancesOfUser| == 0 ==> p.name == ToLower(instance.setup.user))
      && (instance.name == "" && |instancesOfUser| > 0 ==> p.name == GeneratedName(instance.setup.user, draws))
  {
    ValidationIff(instance, v);
    if instance.name != "" {
      ValidNameIsLower(instance.name);
      ToLowerOfLower(instance.name);
    } else if |instancesOfUser| == 0 {
      ToLowerOfLower(ToLower(instance.setup.user));
    } else {
      ToLowerOfLower(GeneratedName(instance.setup.user, draws));
    }
  }

  /** A Specified name that is admitted is not the name of any of the user's instances. */
  lemma AdmittedSpecifiedNameIsNew(instance: InstanceSpec, instancesOfUser: seq<Instance>, env: Env, v: Validators,
                                   draws: seq<LetterDraw>)
    requires |draws| == 4
    requires Admit(instance, instancesOfUser, env, v, draws).Success?
    requires Admit(instance, instancesOfUser, env, v, draws).value.nameScheme == SchemeSpecified
    ensures forall i :: 0 <= i < |instancesOfUser| ==>
      instancesOfUser[i].spec.name != Admit(instance, instancesOfUser, env, v, draws).value.name
  {
    AdmittedNameScheme(instance, instancesOfUser, env, v, draws);
    var chosen := ChosenName(instance.name, ToLower(instance.setup.user), instance.setup.user, |instancesOfUser|, draws);
    assert chosen.0 !in Names(instancesOfUser);
    forall i | 0 <= i < |instancesOfUser|
      ensures instancesOfUser[i].spec.name != chosen.0
    {
      assert Names(instancesOfUser)[i] == instancesOfUser[i].spec.name;
    }
  }

  /** A valid request naming one of the user's instances is refused, unless the quota refuses it first. */
  lemma DuplicateNameRejected(instance: InstanceSpec, instancesOfUser: seq<Instance>, env: Env, v: Validators,
                              draws: seq<LetterDraw>, i: int)
    requires |draws| == 4
    requires Valid(instance, v) && !QuotaReached(instance, |instancesOfUser|, env)
    requires instance.name != "" && 0 <= i < |instancesOfUser| && instancesOfUser[i].spec.name == instance.name
    ensures Admit(instance, instancesOfUser, env, v, draws) == Failure(NameExists)
  {
    ValidationIff(instance, v);
    assert Names(instancesOfUser)[i] == instance.name;
  }

  /**
   * The quota refuses a valid request exactly when a non-admin's count
   * equals the maximum; with the maximum unset (-1) it never refuses.
   */
  lemma QuotaOnlyAtExactMax(instance: InstanceSpec, instancesOfUser: seq<Instance>, env: Env, v: Validators,
                            draws: seq<LetterDraw>)
    requires |draws| == 4
    requires Valid(instance, v)
    ensures Admit(instance, instancesOfUser, env, v, draws) == Failure(MaxInstancesReached) <==>
      !IsAdmin(instance.setup.extraEmails, GetAdminEmailDomain(env))
      && |instancesOfUser| == GetNonAdminInstanceMaxAmount(env)
    ensures MapIndex(env, "APP_NON_ADMIN_INSTANCE_MAX_AMOUNT") == "" ==>
      Admit(instance, instancesOfUser, env, v, draws) != Failure(MaxInstancesReached)
  {
    ValidationIff(instance, v);
    if MapIndex(env, "APP_NON_ADMIN_INSTANCE_MAX_AMOUNT") == "" {
      UnsetInstanceMaxIsMinusOne(env);
    }
  }

  /** The defaults an admitted request gets, and what else Create sets on it. */
  lemma AdmittedDefaults(instance: InstanceSpec, instancesOfUser: seq<Instance>, env: Env, v: Validators,
                         draws: seq<LetterDraw>)
    requires |draws| == 4
    requires Admit(instance, instancesOfUser, env, v, draws).Success?
    ensures var p := Admit(instance, instancesOfUser, env, v, draws).value;
      && p.setup.timezone == ReturnValueOrDefault(instance.setup.timezone, DefaultTimezone)
      && p.setup.fullname == ReturnValueOrDefault(instance.setup.fullname, instance.setup.user)
      && p.setup.userLowercase == ToLower(instance.setup.user)
      && p.setup.repos == WithGitHubPrefix(instance.setup.repos, v.isURL)
      && p.instanceType == instance.instanceType && p.setup.user == instance.setup.user
      && p.setup.guests == instance.setup.guests && p.setup.email == instance.setup.email
      && IsLower(p.name)
  {
  }
}
