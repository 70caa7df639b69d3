/**
 * The decisions of apps/cluster-api-manager/instances/kubernetes.go around
 * its Kubernetes traffic: the node-count clamp, the defaults and
 * environment overrides applied before templating, the names, labels and
 * annotations of the templated Cluster API objects, the order in which
 * they are created, how a Cluster's annotations are read back, the phase,
 * and the machine UID in a providerID.
 *
 * The API server is a parameter: `create` says how it answers the creation
 * of an object, and a fetch is its result. JSON encoding of the `env` slice
 * is the pair `marshal`/`unmarshal`, and the tmate SSH lookup is `tmate`.
 */
module Kubernetes {
  import opened Wrappers
  import opened GoStrings
  import opened Common
  import opened InstanceTypes
  import opened ClusterObjects
  import opened InstancesCommon
  import Seqs

  // ---------------------------------------------------------------------
  // Node count

  const MaxNodeCount: int := 3

  /** The clamp KubernetesCreate applies: counts above 3 become 3, below 0 become 0. */
  function ClampNodeCount(n: int): (c: int)
    ensures 0 <= c <= MaxNodeCount
    ensures 0 <= n <= MaxNodeCount ==> c == n
    ensures n > MaxNodeCount ==> c == MaxNodeCount
    ensures n < 0 ==> c == 0
  {
    if n > MaxNodeCount then MaxNodeCount else if n < 0 then 0 else n
  }

  /** Clamping twice is clamping once. */
  lemma ClampIdempotent(n: int)
    ensures ClampNodeCount(ClampNodeCount(n)) == ClampNodeCount(n)
  {
  }

  /** Go's conversion `int32(n)`: the value modulo 2^32, read as signed. */
  function Int32(n: int): (r: int)
    ensures -0x8000_0000 <= r < 0x8000_0000
    ensures -0x8000_0000 <= n < 0x8000_0000 ==> r == n
    ensures (n - r) % 0x1_0000_0000 == 0
  {
    (n + 0x8000_0000) % 0x1_0000_0000 - 0x8000_0000
  }

  // ---------------------------------------------------------------------
  // Defaults and environment overrides

  const OverrideNodeSize: string := "__SHARINGIO_PAIR_NODE_SIZE"
  const OverrideEnvironmentVersion: string := "__SHARINGIO_PAIR_ENVIRONMENT_VERSION"
  const OverrideEnvironmentRepository: string := "__SHARINGIO_PAIR_ENVIRONMENT_REPOSITORY"
  const OverrideKubernetesVersion: string := "__SHARINGIO_PAIR_KUBERNETES_VERSION"
  const OverrideTimezone: string := "TZ"

  /**
   * UpdateInstanceSpecIfEnvOverrides: each of the five settings takes the
   * first non-empty value of its key in `setup.env`, if there is one, and
   * keeps its value otherwise; nothing else changes.
   */
  function UpdateInstanceSpecIfEnvOverrides(instance: InstanceSpec): (r: InstanceSpec)
    ensures var env := instance.setup.env;
      && (EnvSliceValue(env, OverrideNodeSize) != "" ==> r.nodeSize == EnvSliceValue(env, OverrideNodeSize))
      && (EnvSliceValue(env, OverrideNodeSize) == "" ==> r.nodeSize == instance.nodeSize)
      && (EnvSliceValue(env, OverrideEnvironmentVersion) != "" ==>
            r.setup.environmentVersion == EnvSliceValue(env, OverrideEnvironmentVersion))
      && (EnvSliceValue(env, OverrideEnvironmentVersion) == "" ==>
            r.setup.environmentVersion == instance.setup.environmentVersion)
      && (EnvSliceValue(env, OverrideEnvironmentRepository) != "" ==>
            r.setup.environmentRepository == EnvSliceValue(env, OverrideEnvironmentRepository))
      && (EnvSliceValue(env, OverrideEnvironmentRepository) == "" ==>
            r.setup.environmentRepository == instance.setup.environmentRepository)
      && (EnvSliceValue(env, OverrideKubernetesVersion) != "" ==>
            r.setup.kubernetesVersion == EnvSliceValue(env, OverrideKubernetesVersion))
      && (EnvSliceValue(env, OverrideKubernetesVersion) == "" ==>
            r.setup.kubernetesVersion == instance.setup.kubernetesVersion)
      && (EnvSliceValue(env, OverrideTimezone) != "" ==> r.setup.timezone == EnvSliceValue(env, OverrideTimezone))
      && (EnvSliceValue(env, OverrideTimezone) == "" ==> r.setup.timezone == instance.setup.timezone)
    ensures r == instance.(nodeSize := r.nodeSize,
                           setup := instance.setup.(environmentVersion := r.setup.environmentVersion,
                                                    environmentRepository := r.setup.environmentRepository,
                                                    kubernetesVersion := r.setup.kubernetesVersion,
                                                    timezone := r.setup.timezone))
  {
    var env := instance.setup.env;
    instance.(
      nodeSize := ReturnValueOrDefault(EnvSliceValue(env, OverrideNodeSize), instance.nodeSize),
      setup := instance.setup.(
        environmentVersion := ReturnValueOrDefault(EnvSliceValue(env, OverrideEnvironmentVersion), instance.setup.environmentVersion),
        environmentRepository := ReturnValueOrDefault(EnvSliceValue(env, OverrideEnvironmentRepository), instance.setup.environmentRepository),
        kubernetesVersion := ReturnValueOrDefault(EnvSliceValue(env, OverrideKubernetesVersion), instance.setup.kubernetesVersion),
        timezone := ReturnValueOrDefault(EnvSliceValue(env, OverrideTimezone), instance.setup.timezone)))
  }

  /** Applying the overrides a second time changes nothing. */
  lemma OverridesIdempotent(instance: InstanceSpec)
    ensures UpdateInstanceSpecIfEnvOverrides(UpdateInstanceSpecIfEnvOverrides(instance))
         == UpdateInstanceSpecIfEnvOverrides(instance)
  {
  }

  /** The precedence of a templated setting: the override, then the request, then the default. */
  function Precedence(override: string, requested: string, default: string): string
  {
    if override != "" then override else if requested != "" then requested else default
  }

  /**
   * The spec KubernetesTemplateResources renders: empty settings filled
   * from the deployment defaults, then the env overrides applied, then the
   * base DNS name and the flat guest list derived.
   */
  function TemplatedSpec(instance: InstanceSpec, env: Env): (s: InstanceSpec)
    ensures var overrides := instance.setup.env;
      && s.nodeSize == Precedence(EnvSliceValue(overrides, OverrideNodeSize), instance.nodeSize, GetInstanceDefaultNodeSize(env))
      && s.setup.environmentVersion == Precedence(EnvSliceValue(overrides, OverrideEnvironmentVersion),
                                                  instance.setup.environmentVersion, GetEnvironmentVersion(env))
      && s.setup.environmentRepository == Precedence(EnvSliceValue(overrides, OverrideEnvironmentRepository),
                                                     instance.setup.environmentRepository, GetEnvironmentRepository(env))
      && s.setup.kubernetesVersion == Precedence(EnvSliceValue(overrides, OverrideKubernetesVersion),
                                                 instance.setup.kubernetesVersion, GetKubernetesVersion(env))
      && s.setup.timezone == ReturnValueOrDefault(EnvSliceValue(overrides, OverrideTimezone), instance.setup.timezone)
    ensures s.nodeSize != "" && s.setup.environmentVersion != ""
    ensures s.setup.environmentRepository != "" && s.setup.kubernetesVersion != ""
    ensures s.registryMirrors == GetInstanceContainerRegistryMirrors(env)
    ensures s.setup.baseDNSName == instance.name + "." + GetBaseHost(env)
    ensures s.setup.guestsNamesFlat == Join(instance.setup.guests, " ")
    ensures s.name == instance.name && s.instanceType == instance.instanceType
    ensures s.kubernetesNodeCount == instance.kubernetesNodeCount
    ensures s.facility == instance.facility && s.nameScheme == instance.nameScheme
    ensures s.setup.user == instance.setup.user && s.setup.guests == instance.setup.guests
    ensures s.setup.repos == instance.setup.repos && s.setup.env == instance.setup.env
    ensures s.setup.fullname == instance.setup.fullname && s.setup.email == instance.setup.email
    ensures s.setup.gitHubOAuthToken == instance.setup.gitHubOAuthToken
  {
    var withDefaults := instance.(
      nodeSize := ReturnValueOrDefault(instance.nodeSize, GetInstanceDefaultNodeSize(env)),
      registryMirrors := GetInstanceContainerRegistryMirrors(env),
      setup := instance.setup.(
        environmentVersion := ReturnValueOrDefault(instance.setup.environmentVersion, GetEnvironmentVersion(env)),
        environmentRepository := ReturnValueOrDefault(instance.setup.environmentRepository, GetEnvironmentRepository(env)),
        kubernetesVersion := ReturnValueOrDefault(instance.setup.kubernetesVersion, GetKubernetesVersion(env))));
    var s := UpdateInstanceSpecIfEnvOverrides(withDefaults);
    s.(setup := s.setup.(baseDNSName := s.name + "." + GetBaseHost(env),
                         guestsNamesFlat := Join(s.setup.guests, " ")))
  }

  // ---------------------------------------------------------------------
  // Templated objects

  const ControlPlaneSuffix: string := "-control-plane"
  const WorkerSuffix: string := "-worker-a"
  const PoolLabel: string := "pool"
  const WorkerPool: string := "worker-a"

  /** The seven Cluster API objects of an instance, with the fields the manager sets. */
  datatype KubernetesCluster = KubernetesCluster(
    kubeadmControlPlane: Object,
    controlPlaneVersion: string,
    controlPlaneReplicas: int,
    controlPlaneInfrastructure: string,
    cluster: Object,
    clusterInfrastructureRef: string,
    clusterControlPlaneRef: string,
    machineDeploymentWorker: Object,
    workerClusterName: string,
    workerReplicas: int,
    workerVersion: string,
    workerBootstrapConfig: string,
    workerInfrastructure: string,
    kubeadmConfigTemplateWorker: Object,
    packetMachineTemplate: Object,
    controlPlaneMachineType: string,
    packetCluster: Object,
    projectID: string,
    facility: string,
    packetMachineTemplateWorker: Object,
    workerMachineType: string)

  /** The annotations every templated object but the Cluster carries. */
  function OwnerAnnotations(s: InstanceSpec): map<string, string>
  {
    map[AnnotationName := s.name, AnnotationUser := s.setup.user]
  }

  /** `fmt.Sprintf("%v", b)` of a bool. */
  function BoolString(b: bool): string
  {
    if b then "true" else "false"
  }

  /** The annotations written on the Cluster object. */
  function ClusterAnnotations(s: InstanceSpec, marshal: seq<map<string, string>> -> string): map<string, string>
  {
    map[
      AnnotationName := s.name,
      AnnotationNameScheme := s.nameScheme,
      AnnotationNodeSize := s.nodeSize,
      AnnotationFacility := s.facility,
      AnnotationNodeCount := Itoa(s.kubernetesNodeCount),
      AnnotationNoGitHubToken := BoolString(s.setup.gitHubOAuthToken == ""),
      AnnotationUser := s.setup.user,
      AnnotationGuests := Join(s.setup.guests, " "),
      AnnotationRepos := Join(s.setup.repos, " "),
      AnnotationTimezone := s.setup.timezone,
      AnnotationFullname := s.setup.fullname,
      AnnotationEmail := s.setup.email,
      AnnotationBaseDNSName := s.setup.baseDNSName,
      AnnotationEnv := marshal(s.setup.env)]
  }

  const ManagedLabels: map<string, string> := map[InstanceLabel := InstanceLabelValue]

  /** A templated object. */
  function Templated(name: string, namespace: string, labels: map<string, string>, annotations: map<string, string>): Object
  {
    Object(name, namespace, labels, annotations, ZeroStatus, None)
  }

  /** The objects KubernetesTemplateResources returns for an instance. */
  function TemplatedCluster(instance: InstanceSpec, namespace: string, env: Env,
                            marshal: seq<map<string, string>> -> string): (c: KubernetesCluster)
    ensures
      && c.kubeadmControlPlane.name == instance.name + ControlPlaneSuffix
      && c.packetMachineTemplate.name == instance.name + ControlPlaneSuffix
      && c.controlPlaneInfrastructure == c.packetMachineTemplate.name
      && c.clusterControlPlaneRef == c.kubeadmControlPlane.name
      && c.machineDeploymentWorker.name == instance.name + WorkerSuffix
      && c.kubeadmConfigTemplateWorker.name == instance.name + WorkerSuffix
      && c.packetMachineTemplateWorker.name == instance.name + WorkerSuffix
      && c.workerBootstrapConfig == c.kubeadmConfigTemplateWorker.name
      && c.workerInfrastructure == c.packetMachineTemplateWorker.name
      && c.cluster.name == instance.name && c.packetCluster.name == instance.name
      && c.clusterInfrastructureRef == c.packetCluster.name
      && c.workerClusterName == c.cluster.name
  {
    ObjectsFor(TemplatedSpec(instance, env), namespace, env, marshal)
  }

  /** The objects templated from a spec whose defaults are already filled in. */
  function ObjectsFor(s: InstanceSpec, namespace: string, env: Env,
                      marshal: seq<map<string, string>> -> string): KubernetesCluster
  {
    var controlPlane := s.name + ControlPlaneSuffix;
    var worker := s.name + WorkerSuffix;
    KubernetesCluster(
      Templated(controlPlane, namespace, ManagedLabels, OwnerAnnotations(s)),
      s.setup.kubernetesVersion,
      1,
      controlPlane,
      Templated(s.name, namespace, ManagedLabels, ClusterAnnotations(s, marshal)),
      s.name,
      controlPlane,
      Templated(worker, namespace, ManagedLabels[PoolLabel := WorkerPool],
                OwnerAnnotations(s)[ClusterNameLabel := s.name]),
      s.name,
      Int32(s.kubernetesNodeCount),
      s.setup.kubernetesVersion,
      worker,
      worker,
      Templated(worker, namespace, ManagedLabels, OwnerAnnotations(s)),
      Templated(controlPlane, namespace, ManagedLabels, OwnerAnnotations(s)),
      s.nodeSize,
      Templated(s.name, namespace, ManagedLabels, OwnerAnnotations(s)),
      GetPacketProjectID(env),
      s.facility,
      Templated(worker, namespace, ManagedLabels, OwnerAnnotations(s)),
      s.nodeSize)
  }

  /** Every templated object lives in the target namespace and carries the instance label. */
  lemma TemplatedObjectsAreManaged(s: InstanceSpec, namespace: string, env: Env,
                                   marshal: seq<map<string, string>> -> string)
    ensures var rs := Resources(ObjectsFor(s, namespace, env, marshal));
      forall i :: 0 <= i < |rs| ==> rs[i].1.namespace == namespace && IsManagedInstance(rs[i].1)
    ensures Label(ObjectsFor(s, namespace, env, marshal).machineDeploymentWorker, PoolLabel) == WorkerPool
  {
    assert InstanceLabel != PoolLabel;
  }

  /**
   * The settings of the templated objects: the Cluster's annotations record
   * the templated spec, both machine templates use its node size, the
   * control plane runs one replica and the workers the requested count.
   */
  lemma TemplatedSettings(instance: InstanceSpec, namespace: string, env: Env,
                          marshal: seq<map<string, string>> -> string)
    ensures var s := TemplatedSpec(instance, env);
      var c := TemplatedCluster(instance, namespace, env, marshal);
      && c.cluster.annotations == ClusterAnnotations(s, marshal)
      && c.controlPlaneVersion == s.setup.kubernetesVersion && c.workerVersion == s.setup.kubernetesVersion
      && c.controlPlaneReplicas == 1
      && c.workerReplicas == Int32(instance.kubernetesNodeCount)
      && c.controlPlaneMachineType == s.nodeSize && c.workerMachineType == s.nodeSize
      && c.projectID == GetPacketProjectID(env) && c.facility == instance.facility
  {
  }

  /** The objects in the order KubernetesCreate creates them, with their kinds. */
  function Resources(c: KubernetesCluster): seq<(string, Object)>
  {
    [("KubeadmControlPlane", c.kubeadmControlPlane),
     ("PacketMachineTemplate", c.packetMachineTemplate),
     ("PacketCluster", c.packetCluster),
     ("Cluster", c.cluster),
     ("MachineDeployment", c.machineDeploymentWorker),
     ("KubeadmConfigTemplate", c.kubeadmConfigTemplateWorker),
     ("PacketMachineTemplateWorker", c.packetMachineTemplateWorker)]
  }

  /**
   * KubernetesTemplateResources: fills the defaults, applies the overrides,
   * then sets the objects' names, namespace and annotations one by one.
   */
  method KubernetesTemplateResources(instance: InstanceSpec, namespace: string, env: Env,
                                     marshal: seq<map<string, string>> -> string)
    returns (newInstance: KubernetesCluster)
    ensures newInstance == TemplatedCluster(instance, namespace, env, marshal)
  {
    var spec := instance;
    spec := spec.(nodeSize := ReturnValueOrDefault(spec.nodeSize, GetInstanceDefaultNodeSize(env)));
    spec := spec.(registryMirrors := GetInstanceContainerRegistryMirrors(env));
    spec := spec.(setup := spec.setup.(environmentVersion := ReturnValueOrDefault(spec.setup.environmentVersion, GetEnvironmentVersion(env))));
    spec := spec.(setup := spec.setup.(environmentRepository := ReturnValueOrDefault(spec.setup.environmentRepository, GetEnvironmentRepository(env))));
    spec := spec.(setup := spec.setup.(kubernetesVersion := ReturnValueOrDefault(spec.setup.kubernetesVersion, GetKubernetesVersion(env))));
    spec := UpdateInstanceSpecIfEnvOverrides(spec);
    spec := spec.(setup := spec.setup.(baseDNSName := spec.name + "." + GetBaseHost(env)));
    spec := spec.(setup := spec.setup.(guestsNamesFlat := Join(spec.setup.guests, " ")));
    assert spec == TemplatedSpec(instance, env);

    var owner := map[];
    owner := owner[AnnotationName := spec.name];
    owner := owner[AnnotationUser := spec.setup.user];

    var annotations := map[];
    annotations := annotations[AnnotationName := spec.name];
    annotations := annotations[AnnotationNameScheme := spec.nameScheme];
    annotations := annotations[AnnotationNodeSize := spec.nodeSize];
    annotations := annotations[AnnotationFacility := spec.facility];
    annotations := annotations[AnnotationNodeCount := Itoa(spec.kubernetesNodeCount)];
    annotations := annotations[AnnotationNoGitHubToken := BoolString(spec.setup.gitHubOAuthToken == "")];
    annotations := annotations[AnnotationUser := spec.setup.user];
    annotations := annotations[AnnotationGuests := Join(spec.setup.guests, " ")];
    annotations := annotations[AnnotationRepos := Join(spec.setup.repos, " ")];
    annotations := annotations[AnnotationTimezone := spec.setup.timezone];
    annotations := annotations[AnnotationFullname := spec.setup.fullname];
    annotations := annotations[AnnotationEmail := spec.setup.email];
    annotations := annotations[AnnotationBaseDNSName := spec.setup.baseDNSName];
    annotations := annotations[AnnotationEnv := marshal(spec.setup.env)];

    var controlPlane := spec.name + ControlPlaneSuffix;
    var worker := spec.name + WorkerSuffix;
    newInstance := KubernetesCluster(
      kubeadmControlPlane := Templated(controlPlane, namespace, ManagedLabels, owner),
      controlPlaneVersion := spec.setup.kubernetesVersion,
      controlPlaneReplicas := 1,
      controlPlaneInfrastructure := controlPlane,
      cluster := Templated(spec.name, namespace, ManagedLabels, annotations),
      clusterInfrastructureRef := spec.name,
      clusterControlPlaneRef := controlPlane,
      machineDeploymentWorker := Templated(worker, namespace, ManagedLabels[PoolLabel := WorkerPool],
                                           owner[ClusterNameLabel := spec.name]),
      workerClusterName := spec.name,
      workerReplicas := Int32(spec.kubernetesNodeCount),
      workerVersion := spec.setup.kubernetesVersion,
      workerBootstrapConfig := worker,
      workerInfrastructure := worker,
      kubeadmConfigTemplateWorker := Templated(worker, namespace, ManagedLabels, owner),
      packetMachineTemplate := Templated(controlPlane, namespace, ManagedLabels, owner),
      controlPlaneMachineType := spec.nodeSize,
      packetCluster := Templated(spec.name, namespace, ManagedLabels, owner),
      projectID := GetPacketProjectID(env),
      facility := spec.facility,
      packetMachineTemplateWorker := Templated(worker, namespace, ManagedLabels, owner),
      workerMachineType := spec.nodeSize);
  }

  // ---------------------------------------------------------------------
  // Creation

  /** How the API server answers the creation of an object. */
  datatype CreateOutcome = Created | AlreadyExisted | CreateFailed

  /** The error of the first creation that fails for a reason other than AlreadyExists. */
  function FirstCreateFailure(resources: seq<(string, Object)>, create: Object -> CreateOutcome): (err: Option<string>)
    ensures err.None? <==> forall i :: 0 <= i < |resources| ==> create(resources[i].1) != CreateFailed
    ensures err.Some? ==> exists i :: 0 <= i < |resources| && create(resources[i].1) == CreateFailed
                                   && err.value == "Failed to create " + resources[i].0
                                   && forall j :: 0 <= j < i ==> create(resources[j].1) != CreateFailed
    decreases |resources|
  {
    if resources == [] then None
    else if create(resources[0].1) == CreateFailed then Some("Failed to create " + resources[0].0)
    else
      var rest := FirstCreateFailure(resources[1..], create);
      assert forall i :: 1 <= i < |resources| ==> resources[i] == resources[1..][i - 1];
      assert rest.Some? ==> exists i :: 0 <= i < |resources| && create(resources[i].1) == CreateFailed
                                       && rest.value == "Failed to create " + resources[i].0
                                       && forall j :: 0 <= j < i ==> create(resources[j].1) != CreateFailed by {
        if rest.Some? {
          var k :| 0 <= k < |resources[1..]| && create(resources[1..][k].1) == CreateFailed
                   && rest.value == "Failed to create " + resources[1..][k].0
                   && forall j :: 0 <= j < k ==> create(resources[1..][j].1) != CreateFailed;
          assert forall j :: 0 <= j < k + 1 ==> create(resources[j].1) != CreateFailed by {
            forall j | 0 <= j < k + 1
              ensures create(resources[j].1) != CreateFailed
            {
              if j > 0 {
                assert resources[j] == resources[1..][j - 1];
              }
            }
          }
          assert resources[k + 1] == resources[1..][k];
        }
      }
      rest
  }

  /**
   * KubernetesCreate: clamps the node count, templates the objects and
   * creates them in order, stopping at the first failure; an object that
   * already exists is not a failure. The returned spec is the clamped
   * request, whether or not a creation failed, and a dry run creates nothing.
   */
  method KubernetesCreate(instance: InstanceSpec, env: Env, dryRun: bool, create: Object -> CreateOutcome,
                          marshal: seq<map<string, string>> -> string)
    returns (instanceCreated: InstanceSpec, err: Option<string>)
    ensures instanceCreated == instance.(kubernetesNodeCount := ClampNodeCount(instance.kubernetesNodeCount))
    ensures dryRun ==> err.None?
    ensures !dryRun ==> err == FirstCreateFailure(Resources(TemplatedCluster(instanceCreated, GetTargetNamespace(env), env, marshal)), create)
  {
    var targetNamespace := GetTargetNamespace(env);
    var clamped := instance;
    if clamped.kubernetesNodeCount > 3 {
      clamped := clamped.(kubernetesNodeCount := 3);
    } else if clamped.kubernetesNodeCount < 0 {
      clamped := clamped.(kubernetesNodeCount := 0);
    }
    var newInstance := KubernetesTemplateResources(clamped, targetNamespace, env, marshal);
    instanceCreated := clamped;
    if dryRun {
      return instanceCreated, None;
    }
    err := CreateInOrder(Resources(newInstance), create);
  }

  /**
   * The seven creations of KubernetesCreate, one after the other: the first
   * that fails for a reason other than AlreadyExists ends the sequence.
   */
  method CreateInOrder(resources: seq<(string, Object)>, create: Object -> CreateOutcome) returns (err: Option<string>)
    ensures err == FirstCreateFailure(resources, create)
  {
    for i := 0 to |resources|
      invariant FirstCreateFailure(resources, create) == FirstCreateFailure(resources[i..], create)
    {
      assert resources[i..][1..] == resources[i + 1..];
      if create(resources[i].1) == CreateFailed {
        return Some("Failed to create " + resources[i].0);
      }
    }
    return None;
  }

  /** The node count a created instance records is within [0, 3], and its worker replicas equal it. */
  lemma CreatedReplicasMatchCount(instance: InstanceSpec, namespace: string, env: Env,
                                  marshal: seq<map<string, string>> -> string)
    ensures var clamped := instance.(kubernetesNodeCount := ClampNodeCount(instance.kubernetesNodeCount));
      TemplatedCluster(clamped, namespace, env, marshal).workerReplicas == clamped.kubernetesNodeCount
  {
    var clamped := instance.(kubernetesNodeCount := ClampNodeCount(instance.kubernetesNodeCount));
    TemplatedSettings(clamped, namespace, env, marshal);
  }

  // ---------------------------------------------------------------------
  // Reading an instance back

  /**
   * The spec KubernetesGet decodes from a Cluster's annotations: the
   * scalar fields as written, the node count through Atoi, guests and
   * repos split on " ", the env list through JSON decoding.
   */
  function DecodeSpec(annotations: map<string, string>, unmarshal: string -> seq<map<string, string>>): (s: InstanceSpec)
    ensures s.instanceType == TypeKubernetes
    ensures s.setup.userLowercase == ToLower(s.setup.user)
    ensures |s.setup.guests| >= 1 && |s.setup.repos| >= 1
    ensures MinInt64 <= s.kubernetesNodeCount <= MaxInt64
  {
    var user := MapIndex(annotations, AnnotationUser);
    ZeroSpec.(
      instanceType := TypeKubernetes,
      name := MapIndex(annotations, AnnotationName),
      nameScheme := MapIndex(annotations, AnnotationNameScheme),
      nodeSize := MapIndex(annotations, AnnotationNodeSize),
      facility := MapIndex(annotations, AnnotationFacility),
      kubernetesNodeCount := Atoi(MapIndex(annotations, AnnotationNodeCount)),
      setup := ZeroSetup.(
        user := user,
        userLowercase := ToLower(user),
        guests := Split(MapIndex(annotations, AnnotationGuests), ' '),
        repos := Split(MapIndex(annotations, AnnotationRepos), ' '),
        timezone := MapIndex(annotations, AnnotationTimezone),
        fullname := MapIndex(annotations, AnnotationFullname),
        email := MapIndex(annotations, AnnotationEmail),
        env := unmarshal(MapIndex(annotations, AnnotationEnv)),
        baseDNSName := MapIndex(annotations, AnnotationBaseDNSName)))
  }

  /** The part of a spec that the Cluster's annotations carry. */
  function Persisted(s: InstanceSpec): InstanceSpec
  {
    ZeroSpec.(
      instanceType := TypeKubernetes,
      name := s.name,
      nameScheme := s.nameScheme,
      nodeSize := s.nodeSize,
      facility := s.facility,
      kubernetesNodeCount := s.kubernetesNodeCount,
      setup := ZeroSetup.(
        user := s.setup.user,
        userLowercase := ToLower(s.setup.user),
        guests := s.setup.guests,
        repos := s.setup.repos,
        timezone := s.setup.timezone,
        fullname := s.setup.fullname,
        email := s.setup.email,
        env := s.setup.env,
        baseDNSName := s.setup.baseDNSName))
  }

  /** A list that survives being joined and split on " ". */
  predicate SpaceFreeList(items: seq<string>)
  {
    |items| >= 1 && forall i :: 0 <= i < |items| ==> ' ' !in items[i]
  }

  /**
   * What KubernetesTemplateResources writes, KubernetesGet reads back: every
   * persisted field comes back as written, provided the node count is a Go
   * int, the guest and repo lists are non-empty with no spaces in their
   * items, and the env list survives JSON encoding.
   */
  lemma AnnotationsRoundTrip(s: InstanceSpec, marshal: seq<map<string, string>> -> string,
                             unmarshal: string -> seq<map<string, string>>)
    requires MinInt64 <= s.kubernetesNodeCount <= MaxInt64
    requires SpaceFreeList(s.setup.guests) && SpaceFreeList(s.setup.repos)
    requires unmarshal(marshal(s.setup.env)) == s.setup.env
    ensures DecodeSpec(ClusterAnnotations(s, marshal), unmarshal) == Persisted(s)
  {
    var a := ClusterAnnotations(s, marshal);
    AnnotationsCarryFields(s, marshal);
    AtoiItoa(s.kubernetesNodeCount);
    SplitJoin(s.setup.guests, ' ');
    SplitJoin(s.setup.repos, ' ');
    assert Split(MapIndex(a, AnnotationGuests), ' ') == s.setup.guests;
    assert Split(MapIndex(a, AnnotationRepos), ' ') == s.setup.repos;
    assert Atoi(MapIndex(a, AnnotationNodeCount)) == s.kubernetesNodeCount;
  }

  /** Each annotation KubernetesGet reads holds the field it was written from. */
  lemma AnnotationsCarryFields(s: InstanceSpec, marshal: seq<map<string, string>> -> string)
    ensures var a := ClusterAnnotations(s, marshal);
      && MapIndex(a, AnnotationName) == s.name
      && MapIndex(a, AnnotationNameScheme) == s.nameScheme
      && MapIndex(a, AnnotationNodeSize) == s.nodeSize
      && MapIndex(a, AnnotationFacility) == s.facility
      && MapIndex(a, AnnotationNodeCount) == Itoa(s.kubernetesNodeCount)
      && MapIndex(a, AnnotationUser) == s.setup.user
      && MapIndex(a, AnnotationGuests) == Join(s.setup.guests, " ")
      && MapIndex(a, AnnotationRepos) == Join(s.setup.repos, " ")
      && MapIndex(a, AnnotationTimezone) == s.setup.timezone
      && MapIndex(a, AnnotationFullname) == s.setup.fullname
      && MapIndex(a, AnnotationEmail) == s.setup.email
      && MapIndex(a, AnnotationBaseDNSName) == s.setup.baseDNSName
      && MapIndex(a, AnnotationEnv) == marshal(s.setup.env)
  {
  }

  /** An empty guest list does not survive: it is read back as one empty guest. */
  lemma EmptyGuestsReadBackAsOneEmptyGuest(s: InstanceSpec, marshal: seq<map<string, string>> -> string,
                                           unmarshal: string -> seq<map<string, string>>)
    requires s.setup.guests == []
    ensures DecodeSpec(ClusterAnnotations(s, marshal), unmarshal).setup.guests == [""]
  {
  }

  /** A tmate SSH output that is an ssh command line. */
  predicate IsSSHCommand(t: string)
  {
    t == "ssh" || (|t| >= 4 && t[..4] == "ssh ")
  }

  /** The first space-separated word is "ssh" exactly for ssh command lines. */
  lemma FirstWordIsSSH(t: string)
    ensures Split(t, ' ')[0] == "ssh" <==> IsSSHCommand(t)
  {
    if Split(t, ' ')[0] == "ssh" {
      var k := IndexOrEnd(t, ' ');
      SplitHead(t, ' ', k);
      assert t[..k] == "ssh";
      if k < |t| {
        assert t[..4] == t[..3] + [t[3]];
      } else {
        assert t == t[..k];
      }
    }
    if t == "ssh" {
      assert ' ' !in t[..3] by { assert t[..3] == "ssh"; }
      SplitHead(t, ' ', 3);
    } else if |t| >= 4 && t[..4] == "ssh " {
      assert t[..3] == t[..4][..3] == "ssh";
      assert t[3] == t[..4][3] == ' ';
      SplitHead(t, ' ', 3);
    }
  }

  /**
   * The phase of an instance: Deleting when its Cluster is deleting, else
   * Provisioned when its tmate session offers an ssh command, else
   * Provisioning.
   */
  function Phase(clusterPhase: string, tmateSSH: string): (phase: string)
    ensures phase == PhaseDeleting <==> clusterPhase == PhaseDeleting
    ensures phase == PhaseProvisioned <==> clusterPhase != PhaseDeleting && IsSSHCommand(tmateSSH)
    ensures phase == PhaseDeleting || phase == PhaseProvisioned || phase == PhaseProvisioning
  {
    FirstWordIsSSH(tmateSSH);
    if clusterPhase == PhaseDeleting then PhaseDeleting
    else if Split(tmateSSH, ' ')[0] == "ssh" then PhaseProvisioned
    else PhaseProvisioning
  }

  /**
   * The machine UID of a providerID: its third "/"-separated part, when it
   * has exactly three.
   */
  function MachineUIDFromProviderID(providerID: string): (uid: Option<string>)
    ensures uid.Some? <==> Count(providerID, '/') == 2
    ensures uid.Some? ==> '/' !in uid.value
  {
    SplitCount(providerID, '/');
    var parts := Split(providerID, '/');
    if |parts| == 3 then Some(parts[2]) else None
  }

  /** A providerID of the form "<scheme>://<uid>" yields the uid. */
  lemma ProviderIDOfScheme(scheme: string, uid: string)
    requires '/' !in scheme && '/' !in uid
    ensures MachineUIDFromProviderID(scheme + "//" + uid) == Some(uid)
  {
    assert scheme + "//" + uid == scheme + "/" + ("" + "/" + uid);
    SplitAtSep(scheme, "" + "/" + uid, '/');
    SplitAtSep("", uid, '/');
    SplitWithoutSep(uid, '/');
    assert Split(scheme + "//" + uid, '/') == [scheme, "", uid];
  }

  lemma PacketProviderIDExample()
    ensures MachineUIDFromProviderID("packet://abc") == Some("abc")
  {
    assert "packet://abc" == "packet:" + "//" + "abc";
    ProviderIDOfScheme("packet:", "abc");
  }

  /** The result of fetching one object. */
  datatype Fetch = Fetched(item: Object) | FetchFailed(message: string)

  /** What KubernetesGet returns; a fetch of the KubeadmControlPlane that fails dereferences nil. */
  datatype GetOutcome = Got(instance: Instance) | GetError(partial: Instance, message: string) | NilDereference

  /** The objects of a listing that carry a cluster-name label of `name`, as a label selector picks them. */
  function WithClusterName(listing: Listing, name: string): seq<Object>
  {
    if listing.ListFailed? then []
    else Seqs.Filter(listing.items, (o: Object) => Label(o, ClusterNameLabel) == name)
  }

  /**
   * The status KubernetesGet gathers before it reads the Cluster: the
   * control plane's status when it is managed, the status of the first
   * machine of the instance, and the UID parsed from the first
   * PacketMachine's providerID.
   */
  predicate StatusGathered(resources: ResourceStatus, controlPlane: Object, machines: seq<Object>,
                           packetMachines: seq<Object>)
  {
    && resources.kubeadmControlPlane == (if IsManagedInstance(controlPlane) then controlPlane.status else ZeroStatus)
    && resources.machineStatus == (if machines == [] then ZeroStatus else machines[0].status)
    && resources.packetMachineUID ==
         (if packetMachines == [] || packetMachines[0].providerID.None? then None
          else MachineUIDFromProviderID(packetMachines[0].providerID.value))
  }

  /**
   * KubernetesGet: the instance `name` assembled from its control plane,
   * its first machine, its first PacketMachine and its Cluster; the spec is
   * decoded from the Cluster's annotations and the phase from its status and
   * the tmate session.
   */
  function KubernetesGet(name: string, controlPlane: Fetch, machines: Listing, packetMachines: Listing,
                         cluster: Fetch, tmate: (string, string) -> string,
                         unmarshal: string -> seq<map<string, string>>): (r: GetOutcome)
    ensures controlPlane.FetchFailed? ==> r.NilDereference?
    ensures controlPlane.Fetched? && cluster.FetchFailed? ==>
      r.GetError? && r.message == "Failed to get Cluster" && r.partial.spec.instanceType == TypeKubernetes
    ensures controlPlane.Fetched? && cluster.Fetched? ==>
      && r.Got?
      && r.instance.spec == DecodeSpec(cluster.item.annotations, unmarshal)
      && r.instance.status.phase == Phase(r.instance.status.resources.cluster.phase,
                                          tmate(r.instance.spec.name, r.instance.spec.setup.userLowercase))
      && (IsManagedInstance(cluster.item) ==> r.instance.status.resources.cluster == cluster.item.status)
      && (!IsManagedInstance(cluster.item) ==> r.instance.status.resources.cluster == ZeroStatus)
    ensures r.Got? ==> StatusGathered(r.instance.status.resources, controlPlane.item,
                                      WithClusterName(machines, name), WithClusterName(packetMachines, name))
    ensures r.GetError? ==>
      && StatusGathered(r.partial.status.resources, controlPlane.item,
                        WithClusterName(machines, name), WithClusterName(packetMachines, name))
      && r.partial.status.resources.cluster == ZeroStatus
  {
    if controlPlane.FetchFailed? then NilDereference
    else
      var kcp := controlPlane.item;
      var resources := ZeroResources.(
        kubeadmControlPlane := if IsManagedInstance(kcp) then kcp.status else ZeroStatus);
      var ms := WithClusterName(machines, name);
      var resources := if ms != [] then resources.(machineStatus := ms[0].status) else resources;
      var pms := WithClusterName(packetMachines, name);
      var resources :=
        if pms != [] then
          var providerID := if pms[0].providerID.Some? then pms[0].providerID.value else "";
          var uid := MachineUIDFromProviderID(providerID);
          if uid.Some? then resources.(packetMachineUID := uid) else resources
        else resources;
      var partial := Instance(ZeroSpec.(instanceType := TypeKubernetes), InstanceStatus("", resources));
      if cluster.FetchFailed? then GetError(partial, "Failed to get Cluster")
      else
        var c := cluster.item;
        var resources := if IsManagedInstance(c) then resources.(cluster := c.status) else resources;
        var spec := DecodeSpec(c.annotations, unmarshal);
        var tmateSSH := tmate(spec.name, spec.setup.userLowercase);
        Got(Instance(spec, InstanceStatus(Phase(resources.cluster.phase, tmateSSH), resources)))
  }

  /**
   * An instance created by KubernetesCreate reads back through KubernetesGet
   * with every persisted field of the templated spec, when its guest and
   * repo lists are non-empty and space-free and its env list survives JSON.
   */
  lemma CreatedInstanceReadsBack(instance: InstanceSpec, env: Env, marshal: seq<map<string, string>> -> string,
                                 unmarshal: string -> seq<map<string, string>>, controlPlane: Object,
                                 machines: Listing, packetMachines: Listing, tmate: (string, string) -> string)
    requires SpaceFreeList(instance.setup.guests) && SpaceFreeList(instance.setup.repos)
    requires unmarshal(marshal(instance.setup.env)) == instance.setup.env
    ensures var clamped := instance.(kubernetesNodeCount := ClampNodeCount(instance.kubernetesNodeCount));
      var c := TemplatedCluster(clamped, GetTargetNamespace(env), env, marshal);
      var r := KubernetesGet(clamped.name, Fetched(controlPlane), machines, packetMachines, Fetched(c.cluster), tmate, unmarshal);
      r.Got? && r.instance.spec == Persisted(TemplatedSpec(clamped, env))
  {
    var clamped := instance.(kubernetesNodeCount := ClampNodeCount(instance.kubernetesNodeCount));
    var s := TemplatedSpec(clamped, env);
    var c := TemplatedCluster(clamped, GetTargetNamespace(env), env, marshal);
    TemplatedSettings(clamped, GetTargetNamespace(env), env, marshal);
    assert c.cluster.annotations == ClusterAnnotations(s, marshal);
    AnnotationsRoundTrip(s, marshal, unmarshal);
    assert DecodeSpec(c.cluster.annotations, unmarshal) == Persisted(s);
  }

  /**
   * The machine UID of a fetched instance comes from its first
   * PacketMachine: "scheme://uid" gives uid, and a PacketMachine without a
   * providerID, or none at all, gives no UID.
   */
  lemma GetReadsPacketMachineUID(name: string, controlPlane: Object, machines: Listing, packetMachines: Listing,
                                 cluster: Object, tmate: (string, string) -> string,
                                 unmarshal: string -> seq<map<string, string>>, scheme: string, uid: string)
    requires '/' !in scheme && '/' !in uid
    ensures var pms := WithClusterName(packetMachines, name);
      var r := KubernetesGet(name, Fetched(controlPlane), machines, packetMachines, Fetched(cluster), tmate, unmarshal);
      && (pms != [] && pms[0].providerID == Some(scheme + "//" + uid) ==>
            r.instance.status.resources.packetMachineUID == Some(uid))
      && (pms == [] || pms[0].providerID.None? ==> r.instance.status.resources.packetMachineUID.None?)
  {
    ProviderIDOfScheme(scheme, uid);
  }
}
