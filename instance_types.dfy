/**
 * The records the cluster-api-manager passes around: an instance request
 * (`InstanceSpec` with its `SetupSpec`), what a listing reports about it
 * (`InstanceStatus`), and the labelled Kubernetes objects it is read from.
 *
 * Go's named string types (`InstanceType`, `InstanceStatusPhase`,
 * `InstanceNameScheme`) are plain strings here, because a request may carry
 * any string in them; the constants below are the values the code knows.
 */
module InstanceTypes {
  import opened Wrappers
  import opened Common

  const TypeKubernetes: string := "Kubernetes"
  const TypePlain: string := "Plain"

  const PhasePending: string := "Pending"
  const PhaseProvisioning: string := "Provisioning"
  const PhaseProvisioned: string := "Provisioned"
  const PhaseDeleting: string := "Deleting"

  const SchemeSpecified: string := "Specified"
  const SchemeUsername: string := "Username"
  const SchemeGenerateFromUsername: string := "GenerateFromUsername"

  /** The fields used to provision an instance. */
  datatype SetupSpec = SetupSpec(
    user: string,
    guests: seq<string>,
    repos: seq<string>,
    timezone: string,
    fullname: string,
    email: string,
    gitHubOAuthToken: string,
    env: seq<map<string, string>>,
    baseDNSName: string,
    guestsNamesFlat: string,
    userLowercase: string,
    extraEmails: seq<GitHubEmail>,
    environmentVersion: string,
    environmentRepository: string,
    kubernetesVersion: string)

  /** The specification of an instance. */
  datatype InstanceSpec = InstanceSpec(
    name: string,
    instanceType: string,
    setup: SetupSpec,
    nodeSize: string,
    kubernetesNodeCount: int,
    facility: string,
    nameScheme: string,
    registryMirrors: seq<string>)

  /**
   * The part of a Cluster API object's status the manager copies around:
   * its phase, and the rest as one opaque value.
   */
  datatype ObjectStatus = ObjectStatus(phase: string, detail: string)

  const ZeroStatus: ObjectStatus := ObjectStatus("", "")

  datatype ResourceStatus = ResourceStatus(
    kubeadmControlPlane: ObjectStatus,
    cluster: ObjectStatus,
    machineStatus: ObjectStatus,
    packetMachineUID: Option<string>)

  datatype InstanceStatus = InstanceStatus(phase: string, resources: ResourceStatus)

  datatype Instance = Instance(spec: InstanceSpec, status: InstanceStatus)

  /** Go's zero values of the records above. */
  const ZeroSetup: SetupSpec := SetupSpec("", [], [], "", "", "", "", [], "", "", "", [], "", "", "")
  const ZeroSpec: InstanceSpec := InstanceSpec("", "", ZeroSetup, "", 0, "", "", [])
  const ZeroResources: ResourceStatus := ResourceStatus(ZeroStatus, ZeroStatus, ZeroStatus, None)
  const ZeroInstance: Instance := Instance(ZeroSpec, InstanceStatus("", ZeroResources))
}

/**
 * A Kubernetes object as the manager and the reconciler see it once it has
 * been fetched and decoded: name, namespace, labels, annotations, status and,
 * for a PacketMachine, its optional `spec.providerID`.
 */
module ClusterObjects {
  import opened Wrappers
  import opened GoStrings
  import opened InstanceTypes

  const InstanceLabel: string := "io.sharing.pair"
  const InstanceLabelValue: string := "instance"
  const ClusterNameLabel: string := "cluster.x-k8s.io/cluster-name"

  const AnnotationName: string := "io.sharing.pair-spec-name"
  const AnnotationNameScheme: string := "io.sharing.pair-spec-nameScheme"
  const AnnotationNodeSize: string := "io.sharing.pair-spec-nodeSize"
  const AnnotationFacility: string := "io.sharing.pair-spec-facility"
  const AnnotationNodeCount: string := "io.sharing.pair-spec-kubernetesNodeCount"
  const AnnotationNoGitHubToken: string := "io.sharing.pair-spec-setup-noGitHubToken"
  const AnnotationUser: string := "io.sharing.pair-spec-setup-user"
  const AnnotationGuests: string := "io.sharing.pair-spec-setup-guests"
  const AnnotationRepos: string := "io.sharing.pair-spec-setup-repos"
  const AnnotationTimezone: string := "io.sharing.pair-spec-setup-timezone"
  const AnnotationFullname: string := "io.sharing.pair-spec-setup-fullname"
  const AnnotationEmail: string := "io.sharing.pair-spec-setup-email"
  const AnnotationEnv: string := "io.sharing.pair-spec-setup-env"
  const AnnotationBaseDNSName: string := "io.sharing.pair-spec-setup-baseDNSName"

  datatype Object = Object(
    name: string,
    namespace: string,
    labels: map<string, string>,
    annotations: map<string, string>,
    status: ObjectStatus,
    providerID: Option<string>)

  function Label(o: Object, key: string): string
  {
    MapIndex(o.labels, key)
  }

  function Annotation(o: Object, key: string): string
  {
    MapIndex(o.annotations, key)
  }

  /** The label every object the manager creates carries. */
  predicate IsManagedInstance(o: Object)
  {
    Label(o, InstanceLabel) == InstanceLabelValue
  }

  /** A listing: the items, or an error other than NotFound. */
  datatype Listing = Listed(items: seq<Object>) | ListFailed(message: string)
}
