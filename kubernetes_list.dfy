/**
 * KubernetesList of apps/cluster-api-manager/instances/kubernetes.go: one
 * entry per managed KubeadmControlPlane, then three passes over the
 * Machines, the PacketMachines and the Clusters of the namespace, each of
 * which updates the FIRST entry whose name matches and leaves the rest alone.
 *
 * The four listings and the tmate lookup are parameters. A listing either
 * yields its items or fails; a NotFound failure, after which the code reads
 * the items of a nil list, is not part of this model.
 */
module KubernetesListing {
  import opened Wrappers
  import Seqs
  import opened GoStrings
  import opened InstanceTypes
  import opened ClusterObjects
  import opened Kubernetes

  /** An object the listing uses: managed, and owned by `username` when a username filter is set. */
  predicate Selected(o: Object, username: string)
  {
    IsManagedInstance(o) && (username == "" || Annotation(o, AnnotationUser) == username)
  }

  /** The entry a selected KubeadmControlPlane contributes. */
  function ControlPlaneEntry(o: Object): Instance
  {
    Instance(ZeroSpec.(name := Annotation(o, AnnotationName)),
             InstanceStatus("", ZeroResources.(kubeadmControlPlane := o.status)))
  }

  function SelectedTest(username: string): Object -> bool
  {
    o => Selected(o, username)
  }

  /** The selected control planes are the listed ones that Selected accepts. */
  lemma SelectedMembers(items: seq<Object>, username: string)
    ensures forall x :: x in Seqs.Filter(items, SelectedTest(username)) <==> x in items && Selected(x, username)
  {
    forall x
      ensures x in Seqs.Filter(items, SelectedTest(username)) <==> x in items && Selected(x, username)
    {
      assert SelectedTest(username)(x) == Selected(x, username);
    }
  }

  /** An entry of the first pass: the entry of some selected control plane. */
  predicate EntryOfSelected(items: seq<Object>, username: string, e: Instance)
  {
    exists j :: 0 <= j < |items| && Selected(items[j], username) && e == ControlPlaneEntry(items[j])
  }

  /** Entries matched one for one to the selected control planes come from them, and each of them has its entry. */
  lemma EntriesFromSelected(items: seq<Object>, username: string, selected: seq<Object>, r: seq<Instance>)
    requires |r| == |selected| && forall i :: 0 <= i < |r| ==> r[i] == ControlPlaneEntry(selected[i])
    requires forall x :: x in selected <==> x in items && Selected(x, username)
    ensures forall i :: 0 <= i < |r| ==> EntryOfSelected(items, username, r[i])
    ensures forall j :: 0 <= j < |items| && Selected(items[j], username) ==> ControlPlaneEntry(items[j]) in r
  {
    forall i | 0 <= i < |r|
      ensures EntryOfSelected(items, username, r[i])
    {
      var x := selected[i];
      assert x in selected;
      var j :| 0 <= j < |items| && items[j] == x;
      assert 0 <= j < |items| && Selected(items[j], username) && r[i] == ControlPlaneEntry(items[j]);
    }
    forall j | 0 <= j < |items| && Selected(items[j], username)
      ensures ControlPlaneEntry(items[j]) in r
    {
      var x := items[j];
      assert x in selected;
      var i :| 0 <= i < |selected| && selected[i] == x;
      assert r[i] == ControlPlaneEntry(x);
    }
  }

  /**
   * The entries of the first pass: one per selected control plane, in
   * listing order, equal control planes giving separate entries.
   */
  function ControlPlaneEntries(items: seq<Object>, username: string): (r: seq<Instance>)
    ensures |r| <= |items|
    ensures forall i :: 0 <= i < |r| ==> EntryOfSelected(items, username, r[i])
    ensures forall j :: 0 <= j < |items| && Selected(items[j], username) ==> ControlPlaneEntry(items[j]) in r
    ensures forall i :: 0 <= i < |r| ==> r[i].spec.instanceType == ""
  {
    var selected := Seqs.Filter(items, SelectedTest(username));
    var r := seq(|selected|, i requires 0 <= i < |selected| => ControlPlaneEntry(selected[i]));
    SelectedMembers(items, username);
    EntriesFromSelected(items, username, selected, r);
    r
  }

  /** One more control plane adds its entry at the end exactly when it is selected. */
  lemma ControlPlaneEntriesSnoc(items: seq<Object>, x: Object, username: string)
    ensures ControlPlaneEntries(items + [x], username)
            == ControlPlaneEntries(items, username) + (if Selected(x, username) then [ControlPlaneEntry(x)] else [])
  {
    Seqs.FilterSnoc(items, x, SelectedTest(username));
    assert SelectedTest(username)(x) == Selected(x, username);
  }

  /** The first pass. */
  method ControlPlanePass(items: seq<Object>, username: string) returns (instances: seq<Instance>)
    ensures instances == ControlPlaneEntries(items, username)
  {
    instances := [];
    for j := 0 to |items|
      invariant instances == ControlPlaneEntries(items[..j], username)
    {
      assert items[..j + 1] == items[..j] + [items[j]];
      ControlPlaneEntriesSnoc(items[..j], items[j], username);
      var item := items[j];
      if !IsManagedInstance(item) {
        continue;
      }
      if username != "" && Annotation(item, AnnotationUser) != username {
        continue;
      }
      instances := instances + [ControlPlaneEntry(item)];
    }
    assert items[..|items|] == items;
  }

  // ---------------------------------------------------------------------
  // Matching entries by name

  function Names(instances: seq<Instance>): (names: seq<string>)
    ensures |names| == |instances|
    ensures forall i :: 0 <= i < |instances| ==> names[i] == instances[i].spec.name
  {
    seq(|instances|, i requires 0 <= i < |instances| => instances[i].spec.name)
  }

  /** The index of the first entry named `name`, or the length when there is none. */
  function FirstNamed(instances: seq<Instance>, name: string): (k: nat)
    ensures k <= |instances|
    ensures forall j :: 0 <= j < k ==> instances[j].spec.name != name
    ensures k < |instances| ==> instances[k].spec.name == name
    decreases |instances|
  {
    if instances == [] then 0
    else if instances[0].spec.name == name then 0
    else
      var k := 1 + FirstNamed(instances[1..], name);
      assert forall j :: 1 <= j < |instances| ==> instances[j] == instances[1..][j - 1];
      k
  }

  /** Entries with the same names have the same first matches. */
  lemma FirstNamedByNames(a: seq<Instance>, b: seq<Instance>)
    requires Names(a) == Names(b)
    ensures forall name :: FirstNamed(a, name) == FirstNamed(b, name)
  {
    forall name
      ensures FirstNamed(a, name) == FirstNamed(b, name)
    {
    }
  }

  /** An entry with an earlier entry of the same name: no pass ever updates it. */
  predicate Shadowed(names: seq<string>, i: int)
    requires 0 <= i < |names|
  {
    exists l :: 0 <= l < i && names[l] == names[i]
  }

  /** Updates the first entry named `name` with `f`, as the labelled inner loops do before `break`. */
  function UpdateFirst(instances: seq<Instance>, name: string, f: Instance -> Instance): (r: seq<Instance>)
    ensures |r| == |instances|
    ensures forall i :: 0 <= i < |r| && i != FirstNamed(instances, name) ==> r[i] == instances[i]
    ensures FirstNamed(instances, name) < |r| ==> r[FirstNamed(instances, name)] == f(instances[FirstNamed(instances, name)])
    ensures forall i :: 0 <= i < |r| && Shadowed(Names(instances), i) ==> r[i] == instances[i]
  {
    var k := FirstNamed(instances, name);
    if k < |instances| then instances[k := f(instances[k])] else instances
  }

  // ---------------------------------------------------------------------
  // Machine pass

  function WithMachine(inst: Instance, m: Object): Instance
  {
    inst.(status := inst.status.(resources := inst.status.resources.(machineStatus := m.status)))
  }

  /** One Machine: its status goes to the first entry named by its cluster-name label. */
  function ApplyMachine(instances: seq<Instance>, m: Object): (r: seq<Instance>)
    ensures Names(r) == Names(instances)
    ensures forall i :: 0 <= i < |r| ==> r[i].spec == instances[i].spec
    ensures forall i :: 0 <= i < |r| && Shadowed(Names(instances), i) ==> r[i] == instances[i]
    ensures var k := FirstNamed(instances, Label(m, ClusterNameLabel));
      && (forall i :: 0 <= i < |r| && i != k ==> r[i] == instances[i])
      && (k < |r| ==>
            && r[k].status.resources.machineStatus == m.status
            && r[k].status.phase == instances[k].status.phase
            && r[k].status.resources.(machineStatus := ZeroStatus)
               == instances[k].status.resources.(machineStatus := ZeroStatus))
  {
    UpdateFirst(instances, Label(m, ClusterNameLabel), inst => WithMachine(inst, m))
  }

  method ApplyMachineItem(instances0: seq<Instance>, item: Object) returns (instances: seq<Instance>)
    ensures instances == ApplyMachine(instances0, item)
  {
    instances := instances0;
    var name := Label(item, ClusterNameLabel);
    for i := 0 to |instances|
      invariant instances == instances0
      invariant forall l :: 0 <= l < i ==> instances[l].spec.name != name
    {
      if instances[i].spec.name == name {
        instances := instances[i := WithMachine(instances[i], item)];
        return;
      }
    }
  }

  /** The Machine pass, item by item in listing order. */
  function MachinesApplied(instances: seq<Instance>, items: seq<Object>): (r: seq<Instance>)
    ensures Names(r) == Names(instances)
    ensures forall i :: 0 <= i < |r| ==> r[i].spec == instances[i].spec
    ensures forall i :: 0 <= i < |r| && Shadowed(Names(instances), i) ==> r[i] == instances[i]
    decreases |items|
  {
    if items == [] then instances
    else ApplyMachine(MachinesApplied(instances, items[..|items| - 1]), items[|items| - 1])
  }

  method MachinePass(instances0: seq<Instance>, items: seq<Object>) returns (instances: seq<Instance>)
    ensures instances == MachinesApplied(instances0, items)
  {
    instances := instances0;
    for j := 0 to |items|
      invariant instances == MachinesApplied(instances0, items[..j])
    {
      assert items[..j + 1][..j] == items[..j];
      instances := ApplyMachineItem(instances, items[j]);
    }
    assert items[..|items|] == items;
  }

  // ---------------------------------------------------------------------
  // PacketMachine pass

  function WithPacketMachine(inst: Instance, providerID: string): Instance
  {
    var uid := MachineUIDFromProviderID(providerID);
    if uid.Some? then inst.(status := inst.status.(resources := inst.status.resources.(packetMachineUID := uid)))
    else inst
  }

  /**
   * One PacketMachine: without a providerID it updates nothing; otherwise
   * the first entry named by its cluster-name label gets the machine UID,
   * when the providerID has one.
   */
  function ApplyPacketMachine(instances: seq<Instance>, pm: Object): (r: seq<Instance>)
    ensures Names(r) == Names(instances)
    ensures forall i :: 0 <= i < |r| ==> r[i].spec == instances[i].spec
    ensures forall i :: 0 <= i < |r| && Shadowed(Names(instances), i) ==> r[i] == instances[i]
    ensures pm.providerID.None? ==> r == instances
    ensures pm.providerID.Some? ==>
      var k := FirstNamed(instances, Label(pm, ClusterNameLabel));
      var uid := MachineUIDFromProviderID(pm.providerID.value);
      && (forall i :: 0 <= i < |r| && i != k ==> r[i] == instances[i])
      && (k < |r| ==>
            && r[k].status.resources.packetMachineUID
               == (if uid.Some? then uid else instances[k].status.resources.packetMachineUID)
            && r[k].status.phase == instances[k].status.phase
            && r[k].status.resources.(packetMachineUID := None)
               == instances[k].status.resources.(packetMachineUID := None))
  {
    if pm.providerID.None? then instances
    else UpdateFirst(instances, Label(pm, ClusterNameLabel), inst => WithPacketMachine(inst, pm.providerID.value))
  }

  method ApplyPacketMachineItem(instances0: seq<Instance>, item: Object) returns (instances: seq<Instance>)
    ensures instances == ApplyPacketMachine(instances0, item)
  {
    instances := instances0;
    var name := Label(item, ClusterNameLabel);
    for i := 0 to |instances|
      invariant instances == instances0
      invariant item.providerID.Some? ==> forall l :: 0 <= l < i ==> instances[l].spec.name != name
    {
      if instances[i].spec.name == name {
        if item.providerID.None? {
          continue;
        }
        var providerIDSplit := Split(item.providerID.value, '/');
        if |providerIDSplit| == 3 {
          instances := instances[i := instances[i].(status := instances[i].status.(
            resources := instances[i].status.resources.(packetMachineUID := Some(providerIDSplit[2]))))];
        }
        return;
      }
    }
  }

  function PacketMachinesApplied(instances: seq<Instance>, items: seq<Object>): (r: seq<Instance>)
    ensures Names(r) == Names(instances)
    ensures forall i :: 0 <= i < |r| ==> r[i].spec == instances[i].spec
    ensures forall i :: 0 <= i < |r| && Shadowed(Names(instances), i) ==> r[i] == instances[i]
    decreases |items|
  {
    if items == [] then instances
    else ApplyPacketMachine(PacketMachinesApplied(instances, items[..|items| - 1]), items[|items| - 1])
  }

  method PacketMachinePass(instances0: seq<Instance>, items: seq<Object>) returns (instances: seq<Instance>)
    ensures instances == PacketMachinesApplied(instances0, items)
  {
    instances := instances0;
    for j := 0 to |items|
      invariant instances == PacketMachinesApplied(instances0, items[..j])
    {
      assert items[..j + 1][..j] == items[..j];
      instances := ApplyPacketMachineItem(instances, items[j]);
    }
    assert items[..|items|] == items;
  }

  // ---------------------------------------------------------------------
  // Cluster pass

  /** What a Cluster writes into the entry it matches: its spec annotations, status and phase. */
  function WithCluster(inst: Instance, c: Object, tmate: (string, string) -> string,
                       unmarshal: string -> seq<map<string, string>>): Instance
  {
    var name := Annotation(c, AnnotationName);
    var user := Annotation(c, AnnotationUser);
    inst.(
      spec := inst.spec.(
        instanceType := TypeKubernetes,
        name := name,
        nodeSize := Annotation(c, AnnotationNodeSize),
        facility := Annotation(c, AnnotationFacility),
        setup := inst.spec.setup.(
          user := user,
          userLowercase := ToLower(user),
          guests := Split(Annotation(c, AnnotationGuests), ' '),
          repos := Split(Annotation(c, AnnotationRepos), ' '),
          timezone := Annotation(c, AnnotationTimezone),
          fullname := Annotation(c, AnnotationFullname),
          email := Annotation(c, AnnotationEmail),
          env := unmarshal(Annotation(c, AnnotationEnv)))),
      status := InstanceStatus(
        Phase(c.status.phase, tmate(name, ToLower(user))),
        inst.status.resources.(cluster := c.status)))
  }

  function ClusterUpdate(c: Object, tmate: (string, string) -> string,
                         unmarshal: string -> seq<map<string, string>>): Instance -> Instance
  {
    inst => WithCluster(inst, c, tmate, unmarshal)
  }

  /**
   * One Cluster: when selected, it fills in the first entry named by its
   * name annotation, which becomes a Kubernetes instance; no entry loses
   * that type.
   */
  function ApplyCluster(instances: seq<Instance>, c: Object, username: string, tmate: (string, string) -> string,
                        unmarshal: string -> seq<map<string, string>>): (r: seq<Instance>)
    ensures Names(r) == Names(instances)
    ensures forall i :: 0 <= i < |r| && Shadowed(Names(instances), i) ==> r[i] == instances[i]
    ensures forall i :: 0 <= i < |r| && instances[i].spec.instanceType == TypeKubernetes ==>
      r[i].spec.instanceType == TypeKubernetes
    ensures forall i :: 0 <= i < |r| && r[i].spec.instanceType == TypeKubernetes ==>
      instances[i].spec.instanceType == TypeKubernetes
      || (Selected(c, username) && Annotation(c, AnnotationName) == r[i].spec.name)
    ensures Selected(c, username) && FirstNamed(instances, Annotation(c, AnnotationName)) < |r| ==>
      r[FirstNamed(instances, Annotation(c, AnnotationName))].spec.instanceType == TypeKubernetes
    ensures !Selected(c, username) ==> r == instances
    ensures Selected(c, username) ==>
      forall i :: 0 <= i < |r| && i != FirstNamed(instances, Annotation(c, AnnotationName)) ==> r[i] == instances[i]
  {
    if !Selected(c, username) then instances
    else UpdateFirst(instances, Annotation(c, AnnotationName), ClusterUpdate(c, tmate, unmarshal))
  }

  /**
   * What a Cluster writes into the entry it matches: its status and the
   * phase derived from it, and the spec fields read from its annotations;
   * the name scheme, the node count and the base DNS name are not read and
   * keep their values, and so do the other resources.
   */
  lemma WithClusterFields(inst: Instance, c: Object, tmate: (string, string) -> string,
                          unmarshal: string -> seq<map<string, string>>)
    ensures var e := WithCluster(inst, c, tmate, unmarshal);
      var user := Annotation(c, AnnotationUser);
      && e.status.resources.cluster == c.status
      && e.status.resources.(cluster := ZeroStatus) == inst.status.resources.(cluster := ZeroStatus)
      && e.status.phase == Phase(c.status.phase, tmate(Annotation(c, AnnotationName), ToLower(user)))
      && e.spec.name == Annotation(c, AnnotationName)
      && e.spec.nodeSize == Annotation(c, AnnotationNodeSize)
      && e.spec.facility == Annotation(c, AnnotationFacility)
      && e.spec.setup.user == user
      && e.spec.setup.userLowercase == ToLower(user)
      && e.spec.setup.guests == Split(Annotation(c, AnnotationGuests), ' ')
      && e.spec.setup.repos == Split(Annotation(c, AnnotationRepos), ' ')
      && e.spec.setup.timezone == Annotation(c, AnnotationTimezone)
      && e.spec.setup.fullname == Annotation(c, AnnotationFullname)
      && e.spec.setup.email == Annotation(c, AnnotationEmail)
      && e.spec.setup.env == unmarshal(Annotation(c, AnnotationEnv))
      && e.spec.nameScheme == inst.spec.nameScheme
      && e.spec.kubernetesNodeCount == inst.spec.kubernetesNodeCount
      && e.spec.setup.baseDNSName == inst.spec.setup.baseDNSName
  {
  }

  /**
   * A selected Cluster rewrites the first entry of its name with
   * WithCluster and leaves every other entry alone.
   */
  lemma ApplyClusterFillsEntry(instances: seq<Instance>, c: Object, username: string,
                               tmate: (string, string) -> string, unmarshal: string -> seq<map<string, string>>)
    requires Selected(c, username)
    ensures var k := FirstNamed(instances, Annotation(c, AnnotationName));
      var r := ApplyCluster(instances, c, username, tmate, unmarshal);
      && (k < |r| ==> r[k] == WithCluster(instances[k], c, tmate, unmarshal))
      && (forall i :: 0 <= i < |r| && i != k ==> r[i] == instances[i])
  {
    var k := FirstNamed(instances, Annotation(c, AnnotationName));
    if k < |instances| {
      assert ApplyCluster(instances, c, username, tmate, unmarshal)[k] == ClusterUpdate(c, tmate, unmarshal)(instances[k]);
    }
  }

  /**
   * The entry a Cluster fills reads the annotations as KubernetesGet's
   * DecodeSpec does, except for the name scheme, the node count and the
   * base DNS name, which the listing never reads.
   */
  lemma ClusterEntryReadsLikeGet(inst: Instance, c: Object, tmate: (string, string) -> string,
                                 unmarshal: string -> seq<map<string, string>>)
    ensures var e := WithCluster(inst, c, tmate, unmarshal).spec;
      var d := DecodeSpec(c.annotations, unmarshal);
      && e.instanceType == d.instanceType && e.name == d.name && e.nodeSize == d.nodeSize && e.facility == d.facility
      && e.setup.user == d.setup.user && e.setup.userLowercase == d.setup.userLowercase
      && e.setup.guests == d.setup.guests && e.setup.repos == d.setup.repos
      && e.setup.timezone == d.setup.timezone && e.setup.fullname == d.setup.fullname
      && e.setup.email == d.setup.email && e.setup.env == d.setup.env
  {
    WithClusterFields(inst, c, tmate, unmarshal);
  }

  method ApplyClusterItem(instances0: seq<Instance>, item: Object, username: string, tmate: (string, string) -> string,
                          unmarshal: string -> seq<map<string, string>>) returns (instances: seq<Instance>)
    ensures instances == ApplyCluster(instances0, item, username, tmate, unmarshal)
  {
    instances := instances0;
    if !IsManagedInstance(item) {
      return;
    }
    if username != "" && Annotation(item, AnnotationUser) != username {
      return;
    }
    var name := Annotation(item, AnnotationName);
    for i := 0 to |instances|
      invariant instances == instances0
      invariant forall l :: 0 <= l < i ==> instances[l].spec.name != name
    {
      if instances[i].spec.name == name {
        var inst := instances[i];
        inst := inst.(spec := inst.spec.(instanceType := TypeKubernetes));
        inst := inst.(status := inst.status.(resources := inst.status.resources.(cluster := item.status)));
        inst := inst.(spec := inst.spec.(name := name));
        inst := inst.(spec := inst.spec.(nodeSize := Annotation(item, AnnotationNodeSize)));
        inst := inst.(spec := inst.spec.(facility := Annotation(item, AnnotationFacility)));
        inst := inst.(spec := inst.spec.(setup := inst.spec.setup.(user := Annotation(item, AnnotationUser))));
        inst := inst.(spec := inst.spec.(setup := inst.spec.setup.(userLowercase := ToLower(inst.spec.setup.user))));
        inst := inst.(spec := inst.spec.(setup := inst.spec.setup.(guests := Split(Annotation(item, AnnotationGuests), ' '))));
        inst := inst.(spec := inst.spec.(setup := inst.spec.setup.(repos := Split(Annotation(item, AnnotationRepos), ' '))));
        inst := inst.(spec := inst.spec.(setup := inst.spec.setup.(timezone := Annotation(item, AnnotationTimezone))));
        inst := inst.(spec := inst.spec.(setup := inst.spec.setup.(fullname := Annotation(item, AnnotationFullname))));
        inst := inst.(spec := inst.spec.(setup := inst.spec.setup.(email := Annotation(item, AnnotationEmail))));
        inst := inst.(spec := inst.spec.(setup := inst.spec.setup.(env := unmarshal(Annotation(item, AnnotationEnv)))));
        var tmateSSH := tmate(inst.spec.name, inst.spec.setup.userLowercase);
        var phase := PhaseProvisioning;
        if inst.status.resources.cluster.phase == PhaseDeleting {
          phase := PhaseDeleting;
        } else if Split(tmateSSH, ' ')[0] == "ssh" {
          phase := PhaseProvisioned;
        }
        inst := inst.(status := inst.status.(phase := phase));
        instances := instances[i := inst];
        return;
      }
    }
  }

  function ClustersApplied(instances: seq<Instance>, items: seq<Object>, username: string,
                           tmate: (string, string) -> string,
                           unmarshal: string -> seq<map<string, string>>): (r: seq<Instance>)
    ensures Names(r) == Names(instances)
    ensures forall i :: 0 <= i < |r| && Shadowed(Names(instances), i) ==> r[i] == instances[i]
    decreases |items|
  {
    if items == [] then instances
    else ApplyCluster(ClustersApplied(instances, items[..|items| - 1], username, tmate, unmarshal),
                      items[|items| - 1], username, tmate, unmarshal)
  }

  /** After the Cluster pass, an entry is a Kubernetes instance only if it was one or a selected Cluster carries its name. */
  lemma {:induction false} ClusterPassTypeHasCluster(instances: seq<Instance>, items: seq<Object>, username: string,
                                                     tmate: (string, string) -> string,
                                                     unmarshal: string -> seq<map<string, string>>)
    ensures var r := ClustersApplied(instances, items, username, tmate, unmarshal);
      forall i :: 0 <= i < |r| && r[i].spec.instanceType == TypeKubernetes ==>
        instances[i].spec.instanceType == TypeKubernetes
        || exists j :: 0 <= j < |items| && Selected(items[j], username) && Annotation(items[j], AnnotationName) == r[i].spec.name
    decreases |items|
  {
    if items != [] {
      var n := |items| - 1;
      ClusterPassTypeHasCluster(instances, items[..n], username, tmate, unmarshal);
      var prefix := ClustersApplied(instances, items[..n], username, tmate, unmarshal);
      var r := ApplyCluster(prefix, items[n], username, tmate, unmarshal);
      assert Names(r) == Names(prefix) == Names(instances);
      assert forall j :: 0 <= j < n ==> items[..n][j] == items[j];
    }
  }

  /** After the Cluster pass, the first entry of every name a selected Cluster carries is a Kubernetes instance. */
  lemma {:induction false} ClusterPassFirstMatchIsKubernetes(instances: seq<Instance>, items: seq<Object>, username: string,
                                                             tmate: (string, string) -> string,
                                                             unmarshal: string -> seq<map<string, string>>, j: int)
    requires 0 <= j < |items| && Selected(items[j], username)
    requires FirstNamed(instances, Annotation(items[j], AnnotationName)) < |instances|
    ensures ClustersApplied(instances, items, username, tmate, unmarshal)
              [FirstNamed(instances, Annotation(items[j], AnnotationName))].spec.instanceType == TypeKubernetes
    decreases |items|
  {
    var n := |items| - 1;
    var prefix := ClustersApplied(instances, items[..n], username, tmate, unmarshal);
    var k := FirstNamed(instances, Annotation(items[j], AnnotationName));
    FirstNamedByNames(prefix, instances);
    if j < n {
      assert items[..n][j] == items[j];
      ClusterPassFirstMatchIsKubernetes(instances, items[..n], username, tmate, unmarshal, j);
    } else {
      assert FirstNamed(prefix, Annotation(items[n], AnnotationName)) == k;
    }
  }

  method ClusterPass(instances0: seq<Instance>, items: seq<Object>, username: string,
                     tmate: (string, string) -> string, unmarshal: string -> seq<map<string, string>>)
    returns (instances: seq<Instance>)
    ensures instances == ClustersApplied(instances0, items, username, tmate, unmarshal)
  {
    instances := instances0;
    for j := 0 to |items|
      invariant instances == ClustersApplied(instances0, items[..j], username, tmate, unmarshal)
    {
      assert items[..j + 1][..j] == items[..j];
      instances := ApplyClusterItem(instances, items[j], username, tmate, unmarshal);
    }
    assert items[..|items|] == items;
  }

  // ---------------------------------------------------------------------
  // The listing

  datatype ListResult = ListResult(instances: seq<Instance>, err: Option<string>)

  /**
   * The four passes in order; a listing that fails ends the listing with
   * the entries built so far and an error naming the kind.
   */
  function ListOutcome(controlPlanes: Listing, machines: Listing, packetMachines: Listing, clusters: Listing,
                       username: string, tmate: (string, string) -> string,
                       unmarshal: string -> seq<map<string, string>>): (r: ListResult)
    ensures r.err.None? <==> controlPlanes.Listed? && machines.Listed? && packetMachines.Listed? && clusters.Listed?
    ensures controlPlanes.ListFailed? ==> r == ListResult([], Some("Failed to list KubeadmControlPlane"))
    ensures controlPlanes.Listed? ==> Names(r.instances) == Names(ControlPlaneEntries(controlPlanes.items, username))
  {
    if controlPlanes.ListFailed? then ListResult([], Some("Failed to list KubeadmControlPlane"))
    else
      var entries := ControlPlaneEntries(controlPlanes.items, username);
      if machines.ListFailed? then ListResult(entries, Some("Failed to list Machine"))
      else
        var withMachines := MachinesApplied(entries, machines.items);
        if packetMachines.ListFailed? then ListResult(withMachines, Some("Failed to list PacketMachine"))
        else
          var withPacketMachines := PacketMachinesApplied(withMachines, packetMachines.items);
          if clusters.ListFailed? then ListResult(withPacketMachines, Some("Failed to list Cluster"))
          else ListResult(ClustersApplied(withPacketMachines, clusters.items, username, tmate, unmarshal), None)
  }

  /** KubernetesList. */
  method KubernetesList(controlPlanes: Listing, machines: Listing, packetMachines: Listing, clusters: Listing,
                        username: string, tmate: (string, string) -> string,
                        unmarshal: string -> seq<map<string, string>>)
    returns (instances: seq<Instance>, err: Option<string>)
    ensures ListResult(instances, err) == ListOutcome(controlPlanes, machines, packetMachines, clusters, username, tmate, unmarshal)
  {
    instances := [];
    if controlPlanes.ListFailed? {
      return instances, Some("Failed to list KubeadmControlPlane");
    }
    instances := ControlPlanePass(controlPlanes.items, username);
    if machines.ListFailed? {
      return instances, Some("Failed to list Machine");
    }
    instances := MachinePass(instances, machines.items);
    if packetMachines.ListFailed? {
      return instances, Some("Failed to list PacketMachine");
    }
    instances := PacketMachinePass(instances, packetMachines.items);
    if clusters.ListFailed? {
      return instances, Some("Failed to list Cluster");
    }
    instances := ClusterPass(instances, clusters.items, username, tmate, unmarshal);
    return instances, None;
  }

  /**
   * In a complete listing, an entry is a Kubernetes instance only when a
   * selected Cluster carries its name, and the first entry of every name a
   * selected Cluster carries is one.
   */
  lemma ListedKubernetesInstancesHaveClusters(controlPlanes: seq<Object>, machines: seq<Object>,
                                              packetMachines: seq<Object>, clusters: seq<Object>,
                                              username: string, tmate: (string, string) -> string,
                                              unmarshal: string -> seq<map<string, string>>)
    ensures var r := ListOutcome(Listed(controlPlanes), Listed(machines), Listed(packetMachines), Listed(clusters),
                                 username, tmate, unmarshal).instances;
      && (forall i :: 0 <= i < |r| && r[i].spec.instanceType == TypeKubernetes ==>
            exists j :: 0 <= j < |clusters| && Selected(clusters[j], username)
                        && Annotation(clusters[j], AnnotationName) == r[i].spec.name)
      && (forall j :: 0 <= j < |clusters| && Selected(clusters[j], username)
                      && FirstNamed(r, Annotation(clusters[j], AnnotationName)) < |r| ==>
            r[FirstNamed(r, Annotation(clusters[j], AnnotationName))].spec.instanceType == TypeKubernetes)
  {
    var entries := ControlPlaneEntries(controlPlanes, username);
    var withMachines := MachinesApplied(entries, machines);
    var withPacketMachines := PacketMachinesApplied(withMachines, packetMachines);
    var r := ClustersApplied(withPacketMachines, clusters, username, tmate, unmarshal);
    assert forall i :: 0 <= i < |r| ==> withPacketMachines[i].spec.instanceType == "";
    ClusterPassTypeHasCluster(withPacketMachines, clusters, username, tmate, unmarshal);
    FirstNamedByNames(r, withPacketMachines);
    forall j | 0 <= j < |clusters| && Selected(clusters[j], username)
                && FirstNamed(r, Annotation(clusters[j], AnnotationName)) < |r|
      ensures r[FirstNamed(r, Annotation(clusters[j], AnnotationName))].spec.instanceType == TypeKubernetes
    {
      ClusterPassFirstMatchIsKubernetes(withPacketMachines, clusters, username, tmate, unmarshal, j);
    }
  }

  /**
   * In a complete listing, an entry with an earlier entry of the same name
   * is left as the first pass built it: every pass updates only the first
   * match.
   */
  lemma ShadowedEntriesKeepControlPlaneOnly(controlPlanes: seq<Object>, machines: seq<Object>,
                                            packetMachines: seq<Object>, clusters: seq<Object>,
                                            username: string, tmate: (string, string) -> string,
                                            unmarshal: string -> seq<map<string, string>>, i: int)
    requires var entries := ControlPlaneEntries(controlPlanes, username);
      0 <= i < |entries| && Shadowed(Names(entries), i)
    ensures var r := ListOutcome(Listed(controlPlanes), Listed(machines), Listed(packetMachines), Listed(clusters),
                                 username, tmate, unmarshal).instances;
      r[i] == ControlPlaneEntries(controlPlanes, username)[i]
  {
    var entries := ControlPlaneEntries(controlPlanes, username);
    var withMachines := MachinesApplied(entries, machines);
    var withPacketMachines := PacketMachinesApplied(withMachines, packetMachines);
    assert Names(withPacketMachines) == Names(entries);
  }

  /**
   * A successful or partial listing has one entry per selected control
   * plane, in listing order, each named by that control plane's name
   * annotation; the later passes never add, drop or rename entries.
   */
  lemma ListedNamesFollowControlPlanes(controlPlanes: Listing, machines: Listing, packetMachines: Listing,
                                       clusters: Listing, username: string, tmate: (string, string) -> string,
                                       unmarshal: string -> seq<map<string, string>>)
    ensures controlPlanes.Listed? ==>
      var r := ListOutcome(controlPlanes, machines, packetMachines, clusters, username, tmate, unmarshal);
      var selected := Seqs.Filter(controlPlanes.items, SelectedTest(username));
      |r.instances| == |selected|
      && forall i :: 0 <= i < |selected| ==> r.instances[i].spec.name == Annotation(selected[i], AnnotationName)
  {
    if controlPlanes.Listed? {
      var r := ListOutcome(controlPlanes, machines, packetMachines, clusters, username, tmate, unmarshal);
      var entries := ControlPlaneEntries(controlPlanes.items, username);
      assert Names(r.instances) == Names(entries);
      assert |r.instances| == |Names(entries)| == |entries|;
      forall i | 0 <= i < |entries|
        ensures r.instances[i].spec.name == entries[i].spec.name
      {
        assert Names(r.instances)[i] == Names(entries)[i];
      }
    }
  }
}
