# sharingio/pair cluster-api-manager and reconciler, modelled in Dafny

sharingio/pair gives each user a pairing environment. An environment is either
a Kubernetes cluster built with Cluster-API on Equinix Metal ("Packet"), or a
"Plain" instance. Two Go programs make the decisions this project models:

- The **cluster-api-manager** validates a requested instance and admits it.
  Admission covers the per-user quota, the name scheme, duplicate names and
  defaults. It then templates the Cluster-API objects and creates them in
  order. It reads instances back from their Cluster annotations, and it
  merges the control-plane, Machine, PacketMachine and Cluster listings into
  a list of instances. It also upserts external-dns `DNSEndpoint` objects.
- The **reconciler** lists the managed Clusters and builds the
  cluster-api-manager URLs it calls for each of them. It also deletes an
  instance's cached TLS secret once the certificate is within
  `APP_CERT_DAYS_TO_PRE_EXPIRE` days of expiry.

One Dafny module models each Go file:

| module | Go file |
|---|---|
| `Common` | apps/cluster-api-manager/common/common.go |
| `Dns` | apps/cluster-api-manager/dns/dns.go |
| `InstancesCommon` | apps/cluster-api-manager/instances/common.go |
| `Instances` | apps/cluster-api-manager/instances/instances.go |
| `Kubernetes`, `KubernetesListing` | apps/cluster-api-manager/instances/kubernetes.go (templating, create and get; the list merge) |
| `Reconciler` | apps/reconciler/main.go |
| `LegacyNames` | src/cluster-api-manager/instances/common.go |

A few modules support the rest:

- `InstanceTypes` and `ClusterObjects` hold the records. `ClusterObjects`
  holds the labelled, annotated Kubernetes objects, seen only through the
  fields the code reads.
- `GoStrings` models Go's `strings.Split`, `Join`, `LastIndex` and ASCII
  `ToLower`, plus `strconv.Atoi` and `%v` on an `int`.
- `Seqs` provides a filter. `Wrappers` provides `Option` and `Result`.

The process environment is a `map<string, string>`. A missing key reads as
"", as `os.Getenv` does. The following become parameters:

- Foreign checks: `govalidator.IsURL`, `IsFilePath`, `IsEmail` and
  `url.ParseRequestURI`.
- JSON encoding and decoding of the env list.
- MD5.
- The draws of `rand.Intn`.
- Outcomes of Kubernetes API calls: a create's outcome, whether a request
  fails, and listings given as values.
- The tmate session text.
- The current time, in whole seconds.

Stateful parts are classes:

- `Dns.EndpointStore` is the namespace's DNSEndpoints, with resource
  versions.
- `Reconciler.SecretStore` is the namespace's secrets.

Loops in the Go code are methods with loop invariants. Each is proved equal
to a specification function, and lemmas state what the code promises about
that function.

Where the repository's written description and the Go code differ, this
model follows the code.

## Model

| member | source | states |
|---|---|---|
| Common.GetEnvOrDefault | apps/cluster-api-manager/common/common.go:37-43 | the result is the variable when it is set and non-empty, else the default; it is "" only when the default is "" |
| Common.EmptyVariableIsUnset | apps/cluster-api-manager/common/common.go:37-43 | a variable set to "" reads exactly as an unset one: both give the default |
| Common.UnsetInstanceMaxIsMinusOne | apps/cluster-api-manager/common/common.go:89-93 | with APP_NON_ADMIN_INSTANCE_MAX_AMOUNT unset or empty the quota is -1 |
| Common.GetInstanceContainerRegistryMirrors | apps/cluster-api-manager/common/common.go:97-99 | the mirror list has at least one element, no element contains a space, and joining the elements with spaces gives the variable's value back (empty when unset) |
| Common.WithGitHubPrefix | apps/cluster-api-manager/common/common.go:146-154 | same length and order; URL entries unchanged, every other entry gets "https://github.com/" prepended |
| Common.AddRepoGitHubPrefix | apps/cluster-api-manager/common/common.go:146-154 | the appending loop yields exactly WithGitHubPrefix of its input |
| Common.Reversed | apps/cluster-api-manager/common/common.go:158-164 | same length, and element i is input element len-1-i |
| Common.ReversedTwice | apps/cluster-api-manager/common/common.go:158-164 | reversing twice gives the input back |
| Common.ReverseStringArray | apps/cluster-api-manager/common/common.go:158-164 | the downward loop yields Reversed of its input |
| Common.Drawn | apps/cluster-api-manager/common/common.go:168-174 | one character per draw, each from "bcdfghjklmnpqrstvwxz2456789" |
| Common.RandomSequence | apps/cluster-api-manager/common/common.go:168-174 | filling n slots by index gives the drawn letters, so exactly n of them from the alphabet |
| Common.DrawnIsLower | apps/cluster-api-manager/common/common.go:168-174 | a random sequence never holds an upper-case letter |
| Common.ValidateNameIff | apps/cluster-api-manager/common/common.go:178-181 | the name pattern accepts exactly the non-empty strings over [a-z0-9-] that start and end alphanumeric |
| Common.ValidNameIsLower | apps/cluster-api-manager/common/common.go:178-181 | an accepted name has no upper-case letter |
| Common.NameExamples | apps/cluster-api-manager/common/common.go:178-181 | "bob-pair-2" is accepted; "Bob", "a.b", "-ab", "ab-" and "" are rejected |
| Common.ReturnValueOrDefault | apps/cluster-api-manager/common/common.go:185-190 | the first value when non-empty, else the second; "" only when both are "" |
| Common.GetEmailDomainFromEmail | apps/cluster-api-manager/common/common.go:194-201 | the text after the last "@", which holds no "@"; "" when there is no "@" |
| Common.AccountIsAdmin | apps/cluster-api-manager/common/common.go:205-218 | true for any list when the admin domain is ""; otherwise true iff some email's domain equals it exactly |
| Common.SubdomainIsNotAdmin | apps/cluster-api-manager/common/common.go:205-218 | a subdomain of the admin domain does not make an account admin |
| Dns.ReverseDomain | apps/cluster-api-manager/dns/dns.go:27-32 | the labels of the result are the labels of the input in reverse order |
| Dns.ReverseDomainTwice | apps/cluster-api-manager/dns/dns.go:27-32 | reversing a domain twice gives it back |
| Dns.ReverseDomainKeepsLabelCount | apps/cluster-api-manager/dns/dns.go:27-32 | reversal keeps the number of dots |
| Dns.ReverseDomainLength | apps/cluster-api-manager/dns/dns.go:27-32 | reversal keeps the length |
| Dns.ReverseTwoLabels | apps/cluster-api-manager/dns/dns.go:27-32 | "a.b" reverses to "b.a" |
| Dns.FormatAsName | apps/cluster-api-manager/dns/dns.go:36-40 | every "." becomes "-" and nothing else changes; the result has no "." |
| Dns.EndpointName | apps/cluster-api-manager/dns/dns.go:50-51 | the object name has no "." and no "*" and is at least as long as the host |
| Dns.BuildEndpoint | apps/cluster-api-manager/dns/dns.go:44-77 | the endpoint is named from the reversed host and labelled with the instance name; it has exactly two records with TTL 60: an A record for ns1.host with the entry's values, and an NS record for host pointing at ns1.host |
| Dns.EndpointStore.Create | apps/cluster-api-manager/dns/dns.go:86-90 | creating an existing name fails with AlreadyExists and changes nothing; otherwise the object is stored under a new resource version |
| Dns.EndpointStore.Get | apps/cluster-api-manager/dns/dns.go:93-97 | returns the stored object, or NotFound, or a server error |
| Dns.EndpointStore.Update | apps/cluster-api-manager/dns/dns.go:100-104 | succeeds only for a stored object whose resource version matches; otherwise it changes nothing |
| Dns.UpsertOutcome | apps/cluster-api-manager/dns/dns.go:86-106 | the upsert succeeds iff the create does not fail and, when the object existed, the get and the update do not fail |
| Dns.UpsertDNSEndpoint | apps/cluster-api-manager/dns/dns.go:44-107 | create first, else get the resource version and update; on success the store holds the built endpoint under its name at a new version; on failure neither the objects nor the version counter change; other objects are never touched |
| InstancesCommon.GetEnvironmentRepository | apps/cluster-api-manager/instances/common.go:24-26 | the variable when set, else the built-in default; never "" |
| InstancesCommon.GetEnvironmentVersion | apps/cluster-api-manager/instances/common.go:30-32 | the variable when set, else the built-in default; never "" |
| InstancesCommon.GetKubernetesVersion | apps/cluster-api-manager/instances/common.go:36-38 | the variable when set, else "1.23.5"; never "" |
| InstancesCommon.GetInstanceDefaultNodeSize | apps/cluster-api-manager/instances/common.go:42-44 | the variable when set, else "c3.small.x86"; never "" |
| InstancesCommon.GeneratedName | apps/cluster-api-manager/instances/common.go:48-55 | lower-cased user, "-", the four drawn letters: length len(user)+5, no upper case |
| InstancesCommon.GenerateName | apps/cluster-api-manager/instances/common.go:48-55 | the generated name is GeneratedName of the user and the draws |
| InstancesCommon.Add | apps/cluster-api-manager/instances/common.go:61-66 | the accumulating loop of the template "add" helper yields Sum of its arguments |
| InstancesCommon.SumPermutation | apps/cluster-api-manager/instances/common.go:61-66 | the sum does not depend on argument order |
| InstancesCommon.GetValueFromEnvMap | apps/cluster-api-manager/instances/common.go:72-79 | the value under the key, or "" when the key is absent |
| InstancesCommon.EnvSliceValue | apps/cluster-api-manager/instances/common.go:83-90 | "" iff no map gives the key a non-empty value; otherwise some map's value |
| InstancesCommon.EnvSliceFirstWins | apps/cluster-api-manager/instances/common.go:83-90 | the first map with a non-empty value for the key decides |
| InstancesCommon.GetValueFromEnvSlice | apps/cluster-api-manager/instances/common.go:83-90 | the early-return loop yields EnvSliceValue |
| Instances.ValidationIff | apps/cluster-api-manager/instances/instances.go:17-58 | validation passes iff the name is empty or valid, the type is known, the user is set, a Plain instance has non-empty guests, every repo is valid and the email is valid; every reported guest is empty and every reported repo is an invalid repo of the request |
| Instances.ValidationReportsAll | apps/cluster-api-manager/instances/instances.go:32-53 | the reported lists are complete: an InvalidGuests error has one entry per empty guest, and an InvalidRepos error holds every invalid repo as many times as the request does |
| Instances.EmptyGuestsCounted | apps/cluster-api-manager/instances/instances.go:32-40 | the collected empty guests are as many as the empty entries of the guest list |
| Instances.InvalidReposCounted | apps/cluster-api-manager/instances/instances.go:42-53 | every invalid repo is collected, as often as it occurs in the request |
| Instances.KubernetesSkipsGuestChecks | apps/cluster-api-manager/instances/instances.go:28-41 | the guests of a Kubernetes instance never affect validation |
| Instances.ValidateInstance | apps/cluster-api-manager/instances/instances.go:17-58 | the loops report the first failing check, as Validation does |
| Instances.CollectEmptyGuests | apps/cluster-api-manager/instances/instances.go:32-37 | the guest loop collects exactly the empty guests, in order |
| Instances.CollectInvalidRepos | apps/cluster-api-manager/instances/instances.go:42-50 | the repo loop collects exactly the repos that are empty or parse both as a request URI and as a file path, in order |
| Instances.List | apps/cluster-api-manager/instances/instances.go:68-82 | Plain lists nothing; any other filter lists the Kubernetes instances; the error is always dropped |
| Instances.Delete | apps/cluster-api-manager/instances/instances.go:160-173 | Kubernetes instances are deleted through KubernetesDelete, Plain is a no-op, any other type is an error |
| Instances.Create | apps/cluster-api-manager/instances/instances.go:86-150 | an instance that fails admission yields the zero spec and that error; an admitted Kubernetes instance yields the admitted spec with its node count clamped; an admitted Plain instance yields the zero spec with no error |
| Instances.HasInstanceNamed | apps/cluster-api-manager/instances/instances.go:121-127 | the scan finds the name iff some existing instance has it |
| Instances.AdmittedNameScheme | apps/cluster-api-manager/instances/instances.go:107-129 | a given name is kept; with no name, the first instance takes the lower-cased user and later ones a generated name; the scheme is GenerateFromUsername exactly in the latter case |
| Instances.AdmittedSpecifiedNameIsNew | apps/cluster-api-manager/instances/instances.go:121-127 | an admitted specified name differs from every existing instance's name |
| Instances.DuplicateNameRejected | apps/cluster-api-manager/instances/instances.go:121-127 | a valid request within quota that repeats an existing name is rejected with NameExists |
| Instances.QuotaOnlyAtExactMax | apps/cluster-api-manager/instances/instances.go:100-105 | a valid request is refused for quota iff the account is not admin and the user has exactly the maximum; an unset maximum never refuses |
| Instances.AdmittedDefaults | apps/cluster-api-manager/instances/instances.go:128-137 | admission fills the timezone ("Pacific/Auckland") and full name (the user) when empty, sets the lower-cased user, gives the repos the GitHub prefix as AddRepoGitHubPrefix does, keeps type, user, guests and email, and yields a lower-case name |
| Kubernetes.ClampNodeCount | apps/cluster-api-manager/instances/kubernetes.go:360-364 | the count lands in [0, 3]; counts already inside are kept, larger ones become 3 and negative ones 0 |
| Kubernetes.ClampIdempotent | apps/cluster-api-manager/instances/kubernetes.go:360-364 | clamping twice equals clamping once |
| Kubernetes.Int32 | apps/cluster-api-manager/instances/kubernetes.go:845 | the int32 conversion is congruent modulo 2^32, in range, and the identity on int32 values |
| Kubernetes.UpdateInstanceSpecIfEnvOverrides | apps/cluster-api-manager/instances/kubernetes.go:1543-1550 | each of node size, environment version and repository, Kubernetes version and timezone takes its override from the env list when non-empty and is kept otherwise; nothing else changes |
| Kubernetes.OverridesIdempotent | apps/cluster-api-manager/instances/kubernetes.go:1543-1550 | applying the overrides twice equals applying them once |
| Kubernetes.TemplatedSpec | apps/cluster-api-manager/instances/kubernetes.go:601-623 | an env override beats the requested value, which beats the deployment default, so these fields are never ""; mirrors, base DNS name and flat guest names are derived; identity fields are kept |
| Kubernetes.TemplatedCluster | apps/cluster-api-manager/instances/kubernetes.go:954-1021 | the control-plane objects are "<name>-control-plane", the workers "<name>-worker-a", Cluster and PacketCluster "<name>", and every reference points at the object of that name |
| Kubernetes.TemplatedObjectsAreManaged | apps/cluster-api-manager/instances/kubernetes.go:740-950 | every templated object is in the target namespace and labelled io.sharing.pair=instance; the worker pool is labelled worker-a |
| Kubernetes.TemplatedSettings | apps/cluster-api-manager/instances/kubernetes.go:954-1021 | the Cluster carries the spec annotations; versions, machine types, project and facility come from the templated spec; one control-plane replica, the int32 node count of workers |
| Kubernetes.KubernetesTemplateResources | apps/cluster-api-manager/instances/kubernetes.go:601-1038 | the field-by-field assignments build exactly TemplatedCluster |
| Kubernetes.FirstCreateFailure | apps/cluster-api-manager/instances/kubernetes.go:380-505 | no error iff every create succeeds or finds the object already there; otherwise the error names the first object, in creation order, whose create failed |
| Kubernetes.CreateInOrder | apps/cluster-api-manager/instances/kubernetes.go:380-505 | creating in order and stopping at the first failure reports FirstCreateFailure |
| Kubernetes.KubernetesCreate | apps/cluster-api-manager/instances/kubernetes.go:357-511 | the returned spec is the input with its node count clamped; a dry run reports no error; otherwise the first failed create in resource order is reported |
| Kubernetes.CreatedReplicasMatchCount | apps/cluster-api-manager/instances/kubernetes.go:357-511 | the worker replicas of a created instance equal its clamped node count |
| Kubernetes.DecodeSpec | apps/cluster-api-manager/instances/kubernetes.go:162-178 | a decoded spec is Kubernetes-typed, has the lower-cased user, at least one guest and one repo, and an int64 node count |
| Kubernetes.AnnotationsCarryFields | apps/cluster-api-manager/instances/kubernetes.go:1001-1019 | each annotation read back holds the field it was written from |
| Kubernetes.AnnotationsRoundTrip | apps/cluster-api-manager/instances/kubernetes.go:162-178 | decoding the written annotations gives back every persisted field, for int64 counts, non-empty space-free guest and repo lists and a JSON-stable env |
| Kubernetes.EmptyGuestsReadBackAsOneEmptyGuest | apps/cluster-api-manager/instances/kubernetes.go:170 | an empty guest list is read back as [""] |
| Kubernetes.FirstWordIsSSH | apps/cluster-api-manager/instances/kubernetes.go:189 | the first space-separated word is "ssh" iff the text is "ssh" or starts with "ssh " |
| Kubernetes.Phase | apps/cluster-api-manager/instances/kubernetes.go:186-191 | Deleting iff the Cluster is deleting; Provisioned iff not deleting and tmate offers an ssh command; else Provisioning |
| Kubernetes.MachineUIDFromProviderID | apps/cluster-api-manager/instances/kubernetes.go:137-140 | a UID exists iff the providerID has exactly two "/"; it holds no "/" |
| Kubernetes.ProviderIDOfScheme | apps/cluster-api-manager/instances/kubernetes.go:137-140 | "scheme://uid" yields uid |
| Kubernetes.GetReadsPacketMachineUID | apps/cluster-api-manager/instances/kubernetes.go:120-141 | a fetched instance whose first labelled PacketMachine has providerID "scheme://uid" carries uid as its machine UID; without a labelled PacketMachine or without a providerID it carries none |
| Kubernetes.PacketProviderIDExample | apps/cluster-api-manager/instances/kubernetes.go:137-140 | "packet://abc" yields "abc" |
| Kubernetes.KubernetesGet | apps/cluster-api-manager/instances/kubernetes.go:81-195 | a missing control plane is a nil dereference; a missing Cluster is "Failed to get Cluster"; otherwise the spec is decoded from the Cluster's annotations, the phase is derived, and an unmanaged Cluster's status is ignored; on success and on the Cluster error alike the status holds the control plane's status when it is managed, the status of the first Machine labelled with the instance, and the UID parsed from the first labelled PacketMachine's providerID (none without one) |
| Kubernetes.CreatedInstanceReadsBack | apps/cluster-api-manager/instances/kubernetes.go:162-178 | getting a just-templated instance yields its persisted templated spec |
| KubernetesListing.ControlPlaneEntries | apps/cluster-api-manager/instances/kubernetes.go:209-234 | every entry is untyped and comes from a selected control plane (managed, and the user's when a user is given), and every selected control plane has its entry |
| KubernetesListing.ControlPlaneEntriesSnoc | apps/cluster-api-manager/instances/kubernetes.go:209-234 | one more listed control plane appends its entry at the end exactly when it is selected, so the entries follow listing order with one per selected control plane, duplicates included |
| KubernetesListing.ControlPlanePass | apps/cluster-api-manager/instances/kubernetes.go:209-234 | the skipping loop yields ControlPlaneEntries |
| KubernetesListing.FirstNamed | apps/cluster-api-manager/instances/kubernetes.go:252-257 | the least index with the name, or the length when none |
| KubernetesListing.FirstNamedByNames | apps/cluster-api-manager/instances/kubernetes.go:252-257 | the first match depends only on the names |
| KubernetesListing.UpdateFirst | apps/cluster-api-manager/instances/kubernetes.go:252-257 | only the first entry with the name changes; entries shadowed by an earlier one of the same name never change |
| KubernetesListing.ApplyMachine | apps/cluster-api-manager/instances/kubernetes.go:252-257 | the first entry named by the Machine's cluster-name label gets the Machine's status as its machine status, and nothing else of it changes; every other entry, and every spec, is kept |
| KubernetesListing.ApplyMachineItem | apps/cluster-api-manager/instances/kubernetes.go:252-257 | the breaking inner loop yields ApplyMachine |
| KubernetesListing.MachinesApplied | apps/cluster-api-manager/instances/kubernetes.go:245-258 | the Machine pass keeps names and specs and never touches shadowed entries |
| KubernetesListing.MachinePass | apps/cluster-api-manager/instances/kubernetes.go:245-258 | the loop yields MachinesApplied |
| KubernetesListing.ApplyPacketMachine | apps/cluster-api-manager/instances/kubernetes.go:276-291 | without a providerID nothing changes; otherwise the first entry named by the cluster-name label gets the UID of a providerID with exactly three "/"-parts and keeps its old UID otherwise, and nothing else changes |
| KubernetesListing.ApplyPacketMachineItem | apps/cluster-api-manager/instances/kubernetes.go:276-291 | the loop with continue and break yields ApplyPacketMachine |
| KubernetesListing.PacketMachinesApplied | apps/cluster-api-manager/instances/kubernetes.go:269-292 | the PacketMachine pass keeps names and specs and never touches shadowed entries |
| KubernetesListing.PacketMachinePass | apps/cluster-api-manager/instances/kubernetes.go:269-292 | the loop yields PacketMachinesApplied |
| KubernetesListing.ApplyCluster | apps/cluster-api-manager/instances/kubernetes.go:318-349 | an unselected Cluster changes nothing; a selected one changes only the first entry of its name, which becomes a Kubernetes instance; names are kept, and no entry loses the Kubernetes type or gains it without a selected Cluster of its name |
| KubernetesListing.WithClusterFields | apps/cluster-api-manager/instances/kubernetes.go:320-346 | the filled entry gets the Cluster status, the phase from the Cluster phase and the tmate command, and name, node size, facility, user, lower-cased user, guests and repos split on " ", timezone, full name, email and env from the annotations; name scheme, node count, base DNS name and the other resources keep their values |
| KubernetesListing.ApplyClusterFillsEntry | apps/cluster-api-manager/instances/kubernetes.go:318-349 | a selected Cluster rewrites the first entry of its name as WithClusterFields describes and leaves every other entry as it was |
| KubernetesListing.ClusterEntryReadsLikeGet | apps/cluster-api-manager/instances/kubernetes.go:320-346 | the entry a Cluster fills agrees with what KubernetesGet decodes from the same annotations on every field the listing reads |
| KubernetesListing.ApplyClusterItem | apps/cluster-api-manager/instances/kubernetes.go:318-349 | the field-by-field updates yield ApplyCluster |
| KubernetesListing.ClustersApplied | apps/cluster-api-manager/instances/kubernetes.go:303-350 | the Cluster pass keeps names and never touches shadowed entries |
| KubernetesListing.ClusterPassTypeHasCluster | apps/cluster-api-manager/instances/kubernetes.go:303-350 | after the pass, a Kubernetes entry was one already or has a selected Cluster of its name |
| KubernetesListing.ClusterPassFirstMatchIsKubernetes | apps/cluster-api-manager/instances/kubernetes.go:303-350 | the first entry named by a selected Cluster is Kubernetes after the pass |
| KubernetesListing.ClusterPass | apps/cluster-api-manager/instances/kubernetes.go:303-350 | the loop yields ClustersApplied |
| KubernetesListing.ListOutcome | apps/cluster-api-manager/instances/kubernetes.go:199-353 | an error iff some listing fails; a failed control-plane listing gives no instances; otherwise the entries keep the names of ControlPlaneEntries |
| KubernetesListing.ListedNamesFollowControlPlanes | apps/cluster-api-manager/instances/kubernetes.go:199-353 | with the control planes listed, the result has one entry per selected control plane, in listing order, named by its name annotation |
| KubernetesListing.KubernetesList | apps/cluster-api-manager/instances/kubernetes.go:199-353 | the four passes yield ListOutcome |
| KubernetesListing.ListedKubernetesInstancesHaveClusters | apps/cluster-api-manager/instances/kubernetes.go:199-353 | a listed Kubernetes instance has a Cluster of its name, and every selected Cluster makes its first entry Kubernetes |
| KubernetesListing.ShadowedEntriesKeepControlPlaneOnly | apps/cluster-api-manager/instances/kubernetes.go:318-319 | an entry whose name occurs earlier keeps only its control-plane data |
| Reconciler.IntSetting | apps/reconciler/main.go:81-90 | never 0; the parsed value when it parses to non-zero; the default when it does not parse |
| Reconciler.UnsetSettingIsDefault | apps/reconciler/main.go:81-90 | an unset or empty setting is its default |
| Reconciler.SettingDefaults | apps/reconciler/main.go:81-90 | the sleep time is 60 and the pre-expiry 5 days when unset, empty, unparsable or "0" |
| Reconciler.NewReconciler | apps/reconciler/main.go:56-101 | reads namespace, manager host (default http://sharingio-pair-clusterapimanager:8080), sleep time and pre-expiry days |
| Reconciler.GetClustersList | apps/reconciler/main.go:104-132 | a failed listing is "Failed to list Cluster"; otherwise the Clusters labelled io.sharing.pair=instance, in order |
| Reconciler.ManagedListingKeptWhole | apps/reconciler/main.go:119-131 | a listing of managed Clusters only is kept whole |
| Reconciler.ReconciliationURLs | apps/reconciler/main.go:216-219 | per Cluster, host + "/api/instance/kubernetes/" + name + "/" + certmanage, dnsmanage, syncProviderID, in that order |
| Reconciler.StripLeadingSlash | apps/reconciler/main.go:179-181 | one leading "/" is removed and nothing else changes; an empty URL panics |
| Reconciler.StripsOneSlash | apps/reconciler/main.go:179-181 | "//x" becomes "/x": exactly one slash goes |
| Reconciler.SecretStore.Get | apps/reconciler/main.go:137 | the secret's data, or NotFound, or a server error |
| Reconciler.SecretStore.Delete | apps/reconciler/main.go:171 | the secret is removed unless the server fails |
| Reconciler.CertFor | apps/reconciler/main.go:135-147 | a certificate implies the secret exists with no error; a missing "<name>-tls" is (nil, false, nil); the secret exists iff the lookup succeeds |
| Reconciler.GetCertForInstance | apps/reconciler/main.go:135-147 | the lookup reports CertFor of the store |
| Reconciler.IsCertExpired | apps/reconciler/main.go:150-158 | without a certificate, not expired; with one, expired iff now minus the days is strictly after NotAfter |
| Reconciler.ExpiredMonotone | apps/reconciler/main.go:156-157 | expired stays expired as time passes and with fewer pre-expiry days |
| Reconciler.AfterRemoval | apps/reconciler/main.go:161-175 | only "<name>-tls" can go, and it goes iff its certificate has expired |
| Reconciler.RemoveExpiredCertificate | apps/reconciler/main.go:161-175 | with no secret, the lookup error; otherwise no error even if the delete failed; the store becomes AfterRemoval, or is unchanged when the delete fails |
| Reconciler.RemovalIdempotent | apps/reconciler/main.go:216-232 | removing a second time changes nothing, so running it once per endpoint equals running it once |
| LegacyNames.Hex | src/cluster-api-manager/instances/common.go:24 | two hex digits per byte |
| LegacyNames.HexIsLower | src/cluster-api-manager/instances/common.go:24 | hex output has no upper-case letter |
| LegacyNames.GenerateName | src/cluster-api-manager/instances/common.go:17-34 | the overwriting loops keep the last guest and last repo, as HashedName does |
| LegacyNames.HashedNameShape | src/cluster-api-manager/instances/common.go:17-34 | lower-cased user, "-", ten hex digits, "-", ten hex digits: length len(user)+22, lower case |
| LegacyNames.OnlyLastGuestCounts | src/cluster-api-manager/instances/common.go:19-22 | earlier guests never affect the name |
| LegacyNames.NoGuestsHashesFullnameAndEmail | src/cluster-api-manager/instances/common.go:19-22 | without guests the first hash is over "Fullname Email" |
| LegacyNames.OnlyLastRepoCounts | src/cluster-api-manager/instances/common.go:25-29 | earlier repos never affect the name; without repos the second hash is over "" |
| LegacyNames.NameDependsOnHashInputs | src/cluster-api-manager/instances/common.go:17-34 | specs with the same user and hash inputs get the same name |

## Left out

- Kubernetes API traffic. Client construction, kubeconfig loading, exec, and the liveness and readiness probes are I/O. The model sees each request only through its outcome: a create outcome, a failure flag, or a listing given as a value.
- The objects are converted to and from unstructured form. The model drops those "Failed to restructure" and "Failed to unstructure" paths, because the conversion is library code.
- The label selector `cluster.x-k8s.io/cluster-name=<name>` on Machine and PacketMachine listings is modelled as a filter on that label.
- A list call that fails with NotFound leaves a nil list. The Go code then reads its items, which would panic. The model's listings either yield items or fail with another error.
- Bootstrap-script templates are not modelled. This covers rendering them and their render errors (the `text/template` text, registry-mirror exports), and fetching GitHub SSH keys (instances/ssh.go).
- JSON encoding and decoding of the env list is the `marshal` and `unmarshal` parameters.
- `KubernetesDelete`: its sequence of deletes against the API is the `kubernetesDelete` parameter of `Instances.Delete`.
- `KubernetesAddMachineIPToDNS` and the TLS-certificate and tmate-session helpers are not modelled. They are client calls. The tmate text itself is a parameter.
- `Get` and `Update` in instances.go return zero values. They carry no logic, so they are not modelled.
- Instances.Create: `List`'s error is always nil, so the error branch after listing is unreachable. The model states this rather than returning the error.
- Instances.ValidateInstance: the error text is a `ValidationError` value, not Go's formatted string with the `%s` rendering of the invalid list.
- GoStrings.ToLower is ASCII only. Go's Unicode case mapping of other letters is not modelled.
- InstancesCommon.Add: Go's `int` addition wraps at 64 bits; the model's sum is unbounded.
- Reconciler.IsCertExpired: `time.Duration` arithmetic overflows for very large day counts. The model's arithmetic is unbounded.
- The reconciler's main loop, its goroutines, and its sleep between rounds are concurrency and timing. The model covers only what one round requests, through `ReconciliationURLs` and `RemovalIdempotent`.
- The HTTP response of each reconciliation request is not modelled.
- `GetAppEnvFile`, `GetAppPort`, `GetGitHubAdminOrgs`, logging middleware and JSON responses are process or HTTP plumbing.
- The rest of the `src/` tree and its node size "c1.small.x86" are not modelled. Only the hash-based GenerateName of that tree is modelled.
- MD5 is the `md5` parameter. Only the shape of the name is proved, never the hash values.
- Kubernetes.KubernetesCreate: the creation sequence is modelled as one loop over `Kubernetes.Resources`, in the Go code's creation order. Each create is written out separately in the Go code.
