/** Lookups by label and by name, the index that makes them agree, and what the metadata setters do to it
    (actions/has_vm.go, has_disk.go, get_disks.go). */
module Lookups {
  import opened Basics
  import opened Names
  import opened Settings
  import opened PodSpecs
  import opened Selectors
  import opened Cluster
  import opened Recreate
  import opened Disks
  import opened Attachments
  import opened Agreement
  import Metadata

  class Finder {
    const provider: Provider

    constructor (provider: Provider)
      ensures this.provider == provider
    {
      this.provider := provider;
    }

    /** HasVM: the agent's selector finds some pod of the context's namespace. */
    method HasVM(api: Api, vmCid: string) returns (res: Result<bool>)
      modifies api`calls
      ensures ParseCid(vmCid).None? ==> res == Err(Panicked)
      ensures ParseCid(vmCid).Some?
              && (|| SelectorFor(AGENT_LABEL, ParseCid(vmCid).value.1).None?
                  || provider.New(ParseCid(vmCid).value.0).None?)
              ==> res == Err(Rejected)
      ensures ParseCid(vmCid).Some?
              && SelectorFor(AGENT_LABEL, ParseCid(vmCid).value.1).Some?
              && provider.New(ParseCid(vmCid).value.0).Some? ==>
                && (res.Ok? <==> api.served(old(api.calls)))
                && (res.Ok? ==> (res.value <==>
                      HasVMIn(api.objects, provider.New(ParseCid(vmCid).value.0).value.ns, ParseCid(vmCid).value.1)))
      ensures forall context, id | Through(vmCid, context, id) && !provider.Knows(context) ::
                api.calls == old(api.calls) && res == Err(Rejected)
      ensures forall context, id, resolved, ns |
                Through(vmCid, context, id) && provider.Resolves(context, resolved, ns) && IsLabelValue(id) ::
                && (res.Ok? <==> api.served(old(api.calls)))
                && (res.Ok? ==> (res.value <==> SomePodFor(api.objects, ns, id)))
    {
      hide SelectorFor, Selected, Matches, ParseCid, Through, IsLabelValue, Provider.New, Provider.Knows,
           Provider.Resolves, SomePodFor;
      ThroughIsParse(vmCid);
      var vm := ParseCid(vmCid);
      if vm.None? {
        return Err(Panicked);
      }
      provider.NewResolves(vm.value.0);
      var selector := SelectorFor(AGENT_LABEL, vm.value.1);
      if IsLabelValue(vm.value.1) {
        FoundByLabel(vm.value.1);
      }
      if selector.None? {
        return Err(Rejected);
      }
      var client := provider.New(vm.value.0);
      if client.None? {
        return Err(Rejected);
      }
      ListedIsSelecting(api.objects, PodKind, client.value.ns, AGENT_LABEL, vm.value.1);
      var listed := api.List(PodKind, client.value.ns, selector.value);
      if listed.Err? {
        return Err(listed.error);
      }
      assert |listed.value| > 0
          ==> listed.value[0] in Selecting(api.objects, PodKind, client.value.ns, AGENT_LABEL, vm.value.1);
      return Ok(|listed.value| > 0);
    }

    /** HasDisk: the disk's selector finds some claim of the context's namespace. */
    method HasDisk(api: Api, diskCid: string) returns (res: Result<bool>)
      modifies api`calls
      ensures ParseCid(diskCid).None? ==> res == Err(Panicked)
      ensures ParseCid(diskCid).Some?
              && (|| SelectorFor(DISK_LABEL, ParseCid(diskCid).value.1).None?
                  || provider.New(ParseCid(diskCid).value.0).None?)
              ==> res == Err(Rejected)
      ensures ParseCid(diskCid).Some?
              && SelectorFor(DISK_LABEL, ParseCid(diskCid).value.1).Some?
              && provider.New(ParseCid(diskCid).value.0).Some? ==>
                && (res.Ok? <==> api.served(old(api.calls)))
                && (res.Ok? ==> (res.value <==>
                      HasDiskIn(api.objects, provider.New(ParseCid(diskCid).value.0).value.ns,
                                ParseCid(diskCid).value.1)))
      ensures forall context, disk | Through(diskCid, context, disk) && !provider.Knows(context) ::
                api.calls == old(api.calls) && res == Err(Rejected)
      ensures forall context, disk, resolved, ns |
                Through(diskCid, context, disk) && provider.Resolves(context, resolved, ns) && IsLabelValue(disk) ::
                && (res.Ok? <==> api.served(old(api.calls)))
                && (res.Ok? ==> (res.value <==> SomeClaimFor(api.objects, ns, disk)))
    {
      hide SelectorFor, Selected, Matches, ParseCid, Through, IsLabelValue, Provider.New, Provider.Knows,
           Provider.Resolves, SomeClaimFor;
      ThroughIsParse(diskCid);
      var disk := ParseCid(diskCid);
      if disk.None? {
        return Err(Panicked);
      }
      provider.NewResolves(disk.value.0);
      var selector := SelectorFor(DISK_LABEL, disk.value.1);
      if IsLabelValue(disk.value.1) {
        FoundByLabel(disk.value.1);
      }
      if selector.None? {
        return Err(Rejected);
      }
      var client := provider.New(disk.value.0);
      if client.None? {
        return Err(Rejected);
      }
      ListedIsSelecting(api.objects, ClaimKind, client.value.ns, DISK_LABEL, disk.value.1);
      var listed := api.List(ClaimKind, client.value.ns, selector.value);
      if listed.Err? {
        return Err(listed.error);
      }
      assert |listed.value| > 0
          ==> listed.value[0] in Selecting(api.objects, ClaimKind, client.value.ns, DISK_LABEL, disk.value.1);
      return Ok(|listed.value| > 0);
    }
  }

  predicate PodFor(p: Pod, id: string) {
    "bosh.cloudfoundry.org/agent-id" in p.labels && p.labels["bosh.cloudfoundry.org/agent-id"] == id
  }

  predicate ClaimFor(c: Claim, disk: string) {
    "bosh.cloudfoundry.org/disk-id" in c.labels && c.labels["bosh.cloudfoundry.org/disk-id"] == disk
  }

  /** Some pod of the namespace is labelled for the VM. */
  ghost predicate SomePodFor(m: Store, ns: string, id: string) {
    exists r :: r in m && r.kind == PodKind && r.ns == ns && PodFor(m[r].pod, id)
  }

  /** Some claim of the namespace is labelled for the disk. */
  ghost predicate SomeClaimFor(m: Store, ns: string, disk: string) {
    exists r :: r in m && r.kind == ClaimKind && r.ns == ns && ClaimFor(m[r].claim, disk)
  }

  lemma OwnLabels(id: string)
    ensures forall p: Pod :: HasLabel(PodObject(p), AGENT_LABEL, id) <==> PodFor(p, id)
    ensures forall c: Claim :: HasLabel(ClaimObject(c), DISK_LABEL, id) <==> ClaimFor(c, id)
  {
  }

  lemma SomeLabelled(m: Store, kind: Kind, ns: string, key: string, id: string)
    ensures Labelled(m, kind, ns, key, id) != {}
       <==> exists r :: r in m && r.kind == kind && r.ns == ns && HasLabel(m[r], key, id)
  {
    hide HasLabel;
    if r :| r in m && r.kind == kind && r.ns == ns && HasLabel(m[r], key, id) {
      assert r in Labelled(m, kind, ns, key, id);
    }
  }

  lemma PodsByLabel(m: Store, ns: string, id: string)
    requires IsLabelValue(id)
    ensures HasVMIn(m, ns, id) <==> SomePodFor(m, ns, id)
  {
    hide IsLabelValue, Selected, Selecting, Labelled, HasLabel, PodFor;
    SelectingIsLabelled(m, PodKind, ns, AGENT_LABEL, id);
    SomeLabelled(m, PodKind, ns, AGENT_LABEL, id);
    OwnLabels(id);
    assert forall r | r in m && r.kind == PodKind :: m[r] == PodObject(m[r].pod);
  }

  lemma ClaimsByLabel(m: Store, ns: string, disk: string)
    requires IsLabelValue(disk)
    ensures HasDiskIn(m, ns, disk) <==> SomeClaimFor(m, ns, disk)
  {
    hide IsLabelValue, Selected, Selecting, Labelled, HasLabel, ClaimFor;
    SelectingIsLabelled(m, ClaimKind, ns, DISK_LABEL, disk);
    SomeLabelled(m, ClaimKind, ns, DISK_LABEL, disk);
    OwnLabels(disk);
    assert forall r | r in m && r.kind == ClaimKind :: m[r] == ClaimObject(m[r].claim);
  }

  /** For a valid label value the selectors parse, and what they find is what carries the label. */
  lemma FoundByLabel(id: string)
    requires IsLabelValue(id)
    ensures SelectorFor(AGENT_LABEL, id).Some? && SelectorFor(DISK_LABEL, id).Some?
    ensures forall m: Store, ns :: HasVMIn(m, ns, id) <==> SomePodFor(m, ns, id)
    ensures forall m: Store, ns :: HasDiskIn(m, ns, id) <==> SomeClaimFor(m, ns, id)
  {
    hide IsLabelValue, SelectorFor, PlainKey, HasVMIn, HasDiskIn, SomePodFor, SomeClaimFor;
    IdentifyingKeys();
    ValidParses(AGENT_LABEL, id);
    ValidParses(DISK_LABEL, id);
    forall m: Store, ns
      ensures HasVMIn(m, ns, id) <==> SomePodFor(m, ns, id)
      ensures HasDiskIn(m, ns, id) <==> SomeClaimFor(m, ns, id)
    {
      PodsByLabel(m, ns, id);
      ClaimsByLabel(m, ns, id);
    }
  }

  ghost predicate HasVMIn(m: Store, ns: string, id: string) {
    Selecting(m, PodKind, ns, AGENT_LABEL, id) != {}
  }

  ghost predicate HasDiskIn(m: Store, ns: string, id: string) {
    Selecting(m, ClaimKind, ns, DISK_LABEL, id) != {}
  }

  // ---- The index ----

  /** A pod is labelled for an agent exactly when it has the agent's name; likewise claims and disks. */
  ghost predicate Indexed(r: Ref, o: Object) {
    && (r.kind == PodKind ==> forall id :: HasLabel(o, AGENT_LABEL, id) <==> r.name == AgentName(id))
    && (r.kind == ClaimKind ==> forall id :: HasLabel(o, DISK_LABEL, id) <==> r.name == DiskName(id))
  }

  ghost predicate LabelIndex(m: Store) {
    forall r | r in m :: Indexed(r, m[r])
  }

  /** Where the index holds, looking up a valid label value by label is looking it up by name. */
  lemma LabelsAgreeWithNames(m: Store, ns: string, id: string)
    requires LabelIndex(m) && IsLabelValue(id)
    ensures HasVMIn(m, ns, id) <==> Ref(PodKind, ns, AgentName(id)) in m
    ensures HasDiskIn(m, ns, id) <==> ClaimRef(ns, id) in m
  {
    hide IsLabelValue, Selecting;
    var pod, claim := Ref(PodKind, ns, AgentName(id)), ClaimRef(ns, id);
    SelectingIsLabelled(m, PodKind, ns, AGENT_LABEL, id);
    SelectingIsLabelled(m, ClaimKind, ns, DISK_LABEL, id);
    if pod in m {
      assert pod in Labelled(m, PodKind, ns, AGENT_LABEL, id);
    }
    if claim in m {
      assert claim in Labelled(m, ClaimKind, ns, DISK_LABEL, id);
    }
    if HasVMIn(m, ns, id) {
      var r :| r in Labelled(m, PodKind, ns, AGENT_LABEL, id);
      assert Indexed(r, m[r]) && r == pod;
    }
    if HasDiskIn(m, ns, id) {
      var r :| r in Labelled(m, ClaimKind, ns, DISK_LABEL, id);
      assert Indexed(r, m[r]) && r == claim;
    }
  }

  /** The cluster of one pod and one claim, both named and labelled by the identifier. */
  function OneOfEach(ns: string, id: string): Store {
    map[Ref(PodKind, ns, AgentName(id)) :=
          PodObject(Pod(map[AGENT_LABEL := id], map[], PodSpec("", [], []), NO_STATUS)),
        ClaimRef(ns, id) := ClaimObject(Claim(map[DISK_LABEL := id], map[], 0, ""))]
  }

  lemma OneOfEachIndexed(ns: string, id: string)
    ensures var m := OneOfEach(ns, id);
            && LabelIndex(m) && Ref(PodKind, ns, AgentName(id)) in m && ClaimRef(ns, id) in m
            && (HasVMIn(m, ns, id) ==> Selected(AGENT_LABEL, id, map[AGENT_LABEL := id]))
            && (HasDiskIn(m, ns, id) ==> Selected(DISK_LABEL, id, map[DISK_LABEL := id]))
  {
    hide Selected;
    NamesInjective();
  }

  /** HasVM and HasDisk answer by label what is there by name, in every cluster with the index, exactly for
      identifiers that are valid label values: for any other one they miss the very object. */
  lemma LookupNeedsLabelValue(ns: string, id: string)
    ensures (forall m: Store | LabelIndex(m) :: HasVMIn(m, ns, id) <==> Ref(PodKind, ns, AgentName(id)) in m)
       <==> IsLabelValue(id)
    ensures (forall m: Store | LabelIndex(m) :: HasDiskIn(m, ns, id) <==> ClaimRef(ns, id) in m)
       <==> IsLabelValue(id)
  {
    hide IsLabelValue, Selected, LabelIndex, HasVMIn, HasDiskIn, OneOfEach, PlainKey;
    if IsLabelValue(id) {
      forall m: Store | LabelIndex(m)
        ensures HasVMIn(m, ns, id) <==> Ref(PodKind, ns, AgentName(id)) in m
        ensures HasDiskIn(m, ns, id) <==> ClaimRef(ns, id) in m
      {
        LabelsAgreeWithNames(m, ns, id);
      }
    } else {
      OneOfEachIndexed(ns, id);
      NotSelectedByItself(AGENT_LABEL, id);
      NotSelectedByItself(DISK_LABEL, id);
    }
  }

  lemma NotSelectedByItself(key: string, id: string)
    requires (key == AGENT_LABEL || key == DISK_LABEL) && !IsLabelValue(id)
    ensures !Selected(key, id, map[key := id])
  {
    hide IsLabelValue, Selected, PlainKey;
    IdentifyingKeys();
    if Selected(key, id, map[key := id]) {
      InvalidReachesOthers(key, id, map[key := id]);
    }
  }

  // ---- What the metadata setters do to the index, exactly ----

  /** No valid entry falls on the identifying label of a VM with another value. */
  ghost predicate KeepsAgentLabel(rules: Metadata.Rules, metadata: map<string, string>, id: string) {
    forall k | k in metadata && Metadata.ValidForVm(rules, k, metadata[k]) && Metadata.VmKey(rules, k) == AGENT_LABEL ::
      metadata[k] == id
  }

  /** No entry gives the identifying label of a disk another value, or some entry is invalid. */
  predicate KeepsDiskLabel(rules: Metadata.Rules, metadata: map<string, string>, disk: string) {
    "disk-id" in metadata && Metadata.AllValidForDisk(rules, metadata) ==> metadata["disk-id"] == disk
  }

  lemma OneChange(m: Store, m': Store, r: Ref)
    requires LabelIndex(m)
    requires r in m' && (forall q | q in m' && q != r :: q in m && m'[q] == m[q])
    ensures LabelIndex(m') <==> Indexed(r, m'[r])
  {
  }

  /** A pod with new labels keeps the index exactly when the identifying one is right. */
  lemma PodKeepsIndex(m: Store, ns: string, id: string, labels: map<string, string>)
    requires LabelIndex(m) && Ref(PodKind, ns, AgentName(id)) in m
    ensures var r := Ref(PodKind, ns, AgentName(id));
            var m': Store := m[r := PodObject(m[r].pod.(labels := labels))];
            LabelIndex(m') <==> AGENT_LABEL in labels && labels[AGENT_LABEL] == id
  {
    NamesInjective();
    var r := Ref(PodKind, ns, AgentName(id));
    var m': Store := m[r := PodObject(m[r].pod.(labels := labels))];
    OneChange(m, m', r);
    assert HasLabel(m'[r], AGENT_LABEL, id) <==> AGENT_LABEL in labels && labels[AGENT_LABEL] == id;
  }

  lemma MergeKeepsIdentity(rules: Metadata.Rules, labels: map<string, string>, metadata: map<string, string>,
                           order: seq<string>, id: string)
    requires Metadata.IsOrder(order, metadata)
    requires AGENT_LABEL in labels && labels[AGENT_LABEL] == id && KeepsAgentLabel(rules, metadata, id)
    ensures var merged := Metadata.MergeInOrder(rules, labels, metadata, order);
            AGENT_LABEL in merged && merged[AGENT_LABEL] == id
  {
    Metadata.MergedLabel(rules, labels, metadata, order, AGENT_LABEL);
  }

  /** Setting VM metadata keeps the index, in whatever order the entries are gone through, exactly when no
      valid entry lower-cases to the identifying label with another value. */
  lemma LabelVMKeepsIndex(m: Store, ns: string, id: string, rules: Metadata.Rules, metadata: map<string, string>)
    requires LabelIndex(m) && Ref(PodKind, ns, AgentName(id)) in m
    ensures (forall order: seq<string> | Metadata.IsOrder(order, metadata) ::
               LabelIndex(Metadata.Merged(rules, m, Ref(PodKind, ns, AgentName(id)), metadata, order)))
       <==> KeepsAgentLabel(rules, metadata, id)
  {
    hide Metadata.MergeInOrder, LabelIndex, Indexed, Metadata.ValidForVm, Metadata.VmKey;
    var r := Ref(PodKind, ns, AgentName(id));
    var labels := m[r].pod.labels;
    IndexedPod(m, ns, id);
    if KeepsAgentLabel(rules, metadata, id) {
      forall order: seq<string> | Metadata.IsOrder(order, metadata)
        ensures LabelIndex(Metadata.Merged(rules, m, r, metadata, order))
      {
        MergeKeepsIdentity(rules, labels, metadata, order, id);
        PodKeepsIndex(m, ns, id, Metadata.MergeInOrder(rules, labels, metadata, order));
      }
    } else {
      var k :| k in metadata && Metadata.ValidForVm(rules, k, metadata[k]) && Metadata.VmKey(rules, k) == AGENT_LABEL
               && metadata[k] != id;
      Metadata.CanComeLast(metadata, k);
      var rest: seq<string> :| Metadata.IsOrder(rest + [k], metadata);
      Metadata.LastWins(rules, labels, metadata, rest, k);
      PodKeepsIndex(m, ns, id, Metadata.MergeInOrder(rules, labels, metadata, rest + [k]));
      assert !LabelIndex(Metadata.Merged(rules, m, r, metadata, rest + [k]));
    }
  }

  lemma IndexedPod(m: Store, ns: string, id: string)
    requires LabelIndex(m) && Ref(PodKind, ns, AgentName(id)) in m
    ensures HasLabel(m[Ref(PodKind, ns, AgentName(id))], AGENT_LABEL, id)
  {
    assert Indexed(Ref(PodKind, ns, AgentName(id)), m[Ref(PodKind, ns, AgentName(id))]);
  }

  /** Setting disk metadata keeps the index exactly when it leaves `disk-id` alone, or an invalid entry keeps it
      from changing anything. */
  lemma LabelDiskKeepsIndex(m: Store, ns: string, disk: string, rules: Metadata.Rules, metadata: map<string, string>)
    requires LabelIndex(m) && ClaimRef(ns, disk) in m
    ensures LabelIndex(Metadata.DiskSet(rules, m, ClaimRef(ns, disk), metadata))
       <==> KeepsDiskLabel(rules, metadata, disk)
  {
    hide Metadata.DiskMerged, Metadata.AllValidForDisk;
    NamesInjective();
    var r := ClaimRef(ns, disk);
    var labels := Metadata.DiskMerged(m[r].claim.labels, metadata);
    var m' := Metadata.Relabelled(m, r, labels);
    OneChange(m, m', r);
    assert Indexed(r, m[r]) && HasLabel(m[r], DISK_LABEL, disk);
    Metadata.DiskIdentity(m[r].claim.labels, metadata, disk);
    assert HasLabel(m'[r], DISK_LABEL, disk) <==> labels[DISK_LABEL] == disk;
  }

  // ---- GetDisks ----

  /** The cloud IDs of the attached disks whose claims are still there, in order. */
  function Surviving(m: Store, ns: string, context: string, disks: seq<string>): seq<string> {
    if disks == [] then []
    else
      var rest := Surviving(m, ns, context, disks[1..]);
      if ClaimRef(ns, disks[0]) in m then [NewCid(context, disks[0])] + rest else rest
  }

  lemma {:induction false} NoClaimsFound(m: Store, ns: string, context: string, volumes: seq<Volume>)
    requires forall v | v in volumes :: !v.body.ClaimSource?
    ensures DisksFound(m, ns, context, volumes) == []
  {
    if volumes != [] {
      assert volumes[0] in volumes && forall v | v in volumes[1..] :: v in volumes;
      NoClaimsFound(m, ns, context, volumes[1..]);
    }
  }

  lemma {:induction false} DiskVolumesFound(m: Store, ns: string, context: string, disks: seq<string>)
    requires LabelIndex(m)
    ensures DisksFound(m, ns, context, DiskVolumes(disks)) == Surviving(m, ns, context, disks)
  {
    if disks != [] {
      assert DiskVolumes(disks)[1..] == DiskVolumes(disks[1..]);
      DiskVolumesFound(m, ns, context, disks[1..]);
      var r := ClaimRef(ns, disks[0]);
      if r in m {
        assert Indexed(r, m[r]) && HasLabel(m[r], DISK_LABEL, disks[0]);
      }
    }
  }

  /** GetDisks refines the attached list: where the index holds, the volumes of a pod in normal form lead,
      in volume order, to exactly the attached disks whose claims still exist. */
  lemma GetDisksRefines(m: Store, ns: string, context: string, base: PodSpec, disks: seq<string>)
    requires LabelIndex(m) && Plain(base) && NoClaims(base)
    ensures DisksFound(m, ns, context, SpecWith(base, disks).volumes) == Surviving(m, ns, context, disks)
  {
    DisksFoundConcat(m, ns, context, base.volumes, DiskVolumes(disks));
    NoClaimsFound(m, ns, context, base.volumes);
    DiskVolumesFound(m, ns, context, disks);
  }

  lemma {:induction false} SurvivingMembers(m: Store, ns: string, context: string, disks: seq<string>, cid: string)
    ensures cid in Surviving(m, ns, context, disks)
         <==> exists d :: d in disks && ClaimRef(ns, d) in m && cid == NewCid(context, d)
  {
    if disks != [] {
      SurvivingMembers(m, ns, context, disks[1..], cid);
      assert disks == [disks[0]] + disks[1..];
    }
  }

  ghost predicate SameMembers(list: seq<string>, members: set<string>) {
    forall cid :: cid in list <==> cid in members
  }

  /** While no attached disk has lost its claim, GetDisks and the config map hold the same cloud IDs exactly
      when the VM's cloud ID named its context, or nothing is attached: asked through the empty context, GetDisks
      prints the empty context back where the config map has the resolved one. */
  lemma GetDisksMatchesRecord(m: Store, provider: Provider, asked: string, disks: seq<string>,
                              record: map<string, string>)
    requires ':' !in asked && ':' !in provider.current && provider.New(asked).Some?
    requires Records(record, provider.New(asked).value.context, disks)
    requires forall d | d in disks :: ClaimRef(provider.New(asked).value.ns, d) in m
    ensures var client := provider.New(asked).value;
            && (SameMembers(Surviving(m, client.ns, asked, disks), record.Keys)
                <==> (asked == client.context || disks == []))
            && (asked == client.context <==> asked != "" || provider.current == "")
  {
    provider.NewResolves(asked);
    var client := provider.New(asked).value;
    forall cid
      ensures cid in Surviving(m, client.ns, asked, disks) <==> exists d :: d in disks && cid == NewCid(asked, d)
    {
      SurvivingMembers(m, client.ns, asked, disks, cid);
    }
    if asked != client.context && disks != [] {
      var cid := NewCid(asked, disks[0]);
      if cid in record {
        var d :| d in disks && cid == NewCid(client.context, d);
        CidInjective(asked, disks[0], client.context, d);
      }
    }
  }

  /** The cluster holds the agent's pod and config map as they are in the view. */
  ghost predicate HoldsObjects(m: Store, agent: Agent, v: View) {
    && v.pod == PodAt(m, agent.ns, AgentName(agent.id))
    && v.configMap == ConfigMapAt(m, agent.ns, AgentName(agent.id))
  }

  /** While all disks of the list have their claims, GetDisks and the config map hold the same cloud IDs exactly
      when GetDisks was asked through the resolved context or the list is empty. */
  ghost predicate MatchesRecord(m: Store, ns: string, asked: string, resolved: string, pod: Pod, cm: ConfigMap,
                                disks: seq<string>)
    requires SETTINGS_KEY in cm.data && Decode(cm.data[SETTINGS_KEY]).Some?
  {
    (forall d | d in disks :: ClaimRef(ns, d) in m) ==>
      (SameMembers(DisksFound(m, ns, asked, pod.spec.volumes), DisksOf(Decode(cm.data[SETTINGS_KEY]).value).Keys)
       <==> (asked == resolved || disks == []))
  }

  /** The pod is its base with these disks; GetDisks finds, in order, exactly those whose claims exist; and asked
      for this namespace through a context without a colon, where the three places agree, the result compares with
      the config map as `MatchesRecord` says. */
  ghost predicate FindsDisks(base: PodSpec, disks: seq<string>, v: View, agent: Agent, m: Store, provider: Provider,
                             asked: string)
    requires Plain(base)
  {
    && v.pod.Some? && v.configMap.Some?
    && SETTINGS_KEY in v.configMap.value.data && Decode(v.configMap.value.data[SETTINGS_KEY]).Some?
    && v.pod.value.spec == SpecWith(base, disks)
    && DisksFound(m, agent.ns, asked, v.pod.value.spec.volumes) == Surviving(m, agent.ns, asked, disks)
    && var client := provider.New(asked);
       (client.Some? && client.value.ns == agent.ns && ':' !in asked && ':' !in provider.current
        && InAgreement(client.value.context, base, v.pod.value, v.configMap.value)
        ==> MatchesRecord(m, agent.ns, asked, client.value.context, v.pod.value, v.configMap.value, disks))
  }

  /** What GetDisks finds for objects an account stands for. */
  lemma GetDisksOfAccount(profile: Profile, log: seq<Entry>, v: View, agent: Agent, m: Store, provider: Provider,
                          asked: string)
    requires Plain(profile.base) && NoClaims(profile.base) && Represents(profile, log, v.pod, v.configMap)
             && v.pod.Some?
    requires HoldsObjects(m, agent, v) && LabelIndex(m)
    ensures AttachedAfter(log).Some?
    ensures FindsDisks(profile.base, AttachedAfter(log).value, v, agent, m, provider, asked)
  {
    hide InAgreement, NoRepeats, Records, DisksFound, Surviving, LabelIndex, Decode, NoClaims;
    var disks := AttachedAfter(log).value;
    GetDisksRefines(m, agent.ns, asked, profile.base, disks);
    if provider.New(asked).Some? && ':' !in asked && ':' !in provider.current
       && provider.New(asked).value.ns == agent.ns && (forall d | d in disks :: ClaimRef(agent.ns, d) in m)
    {
      AgreementInObjects(provider.New(asked).value.context, profile, log, v.pod, v.configMap);
      if Agrees(provider.New(asked).value.context, log) {
        GetDisksMatchesRecord(m, provider, asked, disks, RecordAfter(log));
      }
    }
  }

  /** Some account stands for the agent's objects, and GetDisks finds the account's disks. */
  ghost predicate FindsStanding(profile: Profile, v: View, agent: Agent, m: Store, provider: Provider, asked: string)
    requires Plain(profile.base)
  {
    exists log ::
      && Stands(profile, log, v)
      && AttachedAfter(log).Some?
      && FindsDisks(profile.base, AttachedAfter(log).value, v, agent, m, provider, asked)
  }

  lemma TrackedDisksFound(profile: Profile, v: View, agent: Agent, m: Store, provider: Provider, asked: string)
    requires Plain(profile.base) && NoClaims(profile.base) && Accounted(profile, v) && v.pod.Some?
    requires HoldsObjects(m, agent, v) && LabelIndex(m)
    ensures FindsStanding(profile, v, agent, m, provider, asked)
  {
    hide FindsDisks, Represents, Tracks, LabelIndex, Accounts, HoldsObjects;
    var log :| Tracks(profile, log, v);
    TrackedStands(profile, log, v);
    var now :| Stands(profile, now, v);
    GetDisksOfAccount(profile, now, v, agent, m, provider, asked);
  }

  /** GetDisks at every moment of every schedule with the pod there: after refusals, in mid-run, whatever disks
      were created and deleted. Some account stands for what is stored, and GetDisks finds its disks. */
  lemma GetDisksAfterRuns(profile: Profile, s: System, schedule: seq<Action>, agent: Agent, v: View, m: Store,
                          provider: Provider, asked: string)
    requires Plain(profile.base) && NoClaims(profile.base) && Accounted(profile, ViewOf(s, agent))
    requires v == ViewOf(Exec(s, schedule), agent) && v.pod.Some? && HoldsObjects(m, agent, v) && LabelIndex(m)
    ensures FindsStanding(profile, v, agent, m, provider, asked)
  {
    hide FindsStanding, LabelIndex, Accounted, HoldsObjects;
    EveryRunKeepsTrack(profile, s, schedule, agent);
    TrackedDisksFound(profile, v, agent, m, provider, asked);
  }

  /** When all the agent's requests were proper and none is in flight, the account is known: GetDisks finds the
      disks the requests left attached. */
  lemma GetDisksAfterProperRuns(profile: Profile, s: System, schedule: seq<Action>, agent: Agent, v: View, m: Store,
                                provider: Provider, asked: string)
    requires Plain(profile.base) && NoClaims(profile.base) && Tracks(profile, [], ViewOf(s, agent))
    requires v == ViewOf(Exec(s, schedule), agent) && v.desk.current.None? && HoldsObjects(m, agent, v) && LabelIndex(m)
    requires ':' !in asked && ':' !in provider.current
    requires provider.New(asked).Some? && provider.New(asked).value.ns == agent.ns
    requires Proper(provider.New(asked).value.context, v.desk.past)
    ensures FindsDisks(profile.base, Replay(v.desk.past), v, agent, m, provider, asked)
    ensures InAgreement(provider.New(asked).value.context, profile.base, v.pod.value, v.configMap.value)
  {
    hide InAgreement, MatchesRecord, NoRepeats, Records, SpecWith, DisksFound, Surviving, LabelIndex, Decode;
    var context := provider.New(asked).value.context;
    EveryRunKeepsTrack(profile, s, schedule, agent);
    var log :| Tracks(profile, log, v);
    ProperHistoryAgrees(context, log, v.desk.past);
    AgreementInObjects(context, profile, log, v.pod, v.configMap);
    GetDisksOfAccount(profile, log, v, agent, m, provider, asked);
  }
}
