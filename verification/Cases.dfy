/** Concrete inputs on which the code does not do what one might expect. */
module Cases {
  import opened Basics
  import opened Names
  import opened Selectors
  import opened Settings
  import opened PodSpecs
  import opened Cluster
  import opened Recreate
  import opened Attachments
  import opened Agreement
  import opened Recovery
  import opened Carried
  import opened Disks
  import opened Lookups
  import DeleteVM
  import Metadata

  // ---- A cluster of one VM ----

  const BARE := Settings("vm", None, None, "", None, "vm", None, None)
  const SMALL_BASE := PodSpec("vm", [Container(JOB, Workload("image", [], true, 0, None, None), [])], [])
  const SMALL_VM := Agent("ns", "vm")
  const SMALL_POD := Pod(map[AGENT_LABEL := "vm"], map[], SMALL_BASE, NO_STATUS)
  const SMALL_CONFIG := ConfigMap(map[], map[SETTINGS_KEY := Parsed(Encode(BARE))])
  const SMALL := System(OneAgent(SMALL_VM, SMALL_POD, SMALL_CONFIG), map[])

  /** The cluster that holds one agent's objects and nothing else. */
  function OneAgent(agent: Agent, pod: Pod, cm: ConfigMap): Store {
    map[agent.PodRef() := PodObject(pod), agent.ConfigMapRef() := ConfigMapObject(cm)]
  }

  const SMALL_PROFILE := Profile(SMALL_BASE, map[], "", RestOf(BARE), map[], map[])

  /** Any cluster with the objects of this VM and no request for it. */
  lemma SmallClusterHolds(s: System)
    requires DeskOf(s, SMALL_VM).current.None?
    requires PodIn(s.store, SMALL_VM) == Some(SMALL_POD) && ConfigMapIn(s.store, SMALL_VM) == Some(SMALL_CONFIG)
    ensures Plain(SMALL_BASE)
    ensures Holds(SMALL_PROFILE, s, SMALL_VM, []) && AgreesIn("ctx", SMALL_BASE, s.store, SMALL_VM)
  {
    hide Encode, Decode;
    RoundTrip(BARE);
    NormalIsStable(BARE);
    assert SMALL_CONFIG.data - {SETTINGS_KEY} == map[];
    EmptySpec(SMALL_BASE);
    assert Represents(SMALL_PROFILE, [], PodIn(s.store, SMALL_VM), ConfigMapIn(s.store, SMALL_VM));
    assert Agrees("ctx", []);
    AgreesInIsAgrees("ctx", SMALL_PROFILE, [], s.store, SMALL_VM);
  }

  /** Two attaches of disk `d` to this cluster's VM, with nothing refused, leave `d` in its pod twice. */
  lemma SmallSecondAttach()
    ensures var task := Task(Add, "ctx", "d");
            var once := Exec(SMALL, Serve(SMALL, SMALL_VM, task));
            var twice := Exec(once, Serve(once, SMALL_VM, task));
            && DeskOf(twice, SMALL_VM).past == [Report(task, true), Report(task, true)]
            && Plain(SMALL_BASE)
            && AgreesIn("ctx", SMALL_BASE, once.store, SMALL_VM)
            && !AgreesIn("ctx", SMALL_BASE, twice.store, SMALL_VM)
            && PodIn(twice.store, SMALL_VM).Some?
            && Occurrences(PodIn(twice.store, SMALL_VM).value.spec.volumes, DiskName("d")) == 2
  {
    hide Serve, Exec, AgreesIn, Holds, Occurrences, Plain;
    SmallClusterHolds(SMALL);
    SecondAttachRepeats("ctx", SMALL_PROFILE, SMALL, SMALL_VM, [], "d");
  }

  /** A patch that arrives when an attach has read the pod and not yet the config map is gone once the pod is back. */
  lemma SmallLostLabel()
    ensures var before := Exec(SMALL, [Begin(SMALL_VM, Task(Add, "ctx", "d"))] + Advances(SMALL_VM, 1)
                                      + [Label(SMALL_VM, map["key" := "value"])]);
            var after := Exec(before, Advances(SMALL_VM, 4));
            && PodIn(before.store, SMALL_VM).Some? && "key" in PodIn(before.store, SMALL_VM).value.labels
            && PodIn(after.store, SMALL_VM).Some?
            && !PodCarries(PodIn(after.store, SMALL_VM), LabelIs("key", "value"))
  {
    hide Exec, Encode, Decode, Advances;
    var task := Task(Add, "ctx", "d");
    RoundTrip(BARE);
    assert Workable(SMALL.store, SMALL_VM, task);
    LabelsSetMidRunAreLost(SMALL, SMALL_VM, task, 1, "key", "value");
    ExecConcat(SMALL, [Begin(SMALL_VM, task)] + Advances(SMALL_VM, 1) + [Label(SMALL_VM, map["key" := "value"])],
               Advances(SMALL_VM, 4));
  }

  // ---- GetDisks through the empty context ----

  const CLAIM := NewClaim(DiskRequest(1, "ctx", "", ""), "d")
  const SMALL_WITH_DISK := System(WithClaim(SMALL.store, "ns", "d", CLAIM), map[])

  function WithClaim(m: Store, ns: string, disk: string, claim: Claim): Store {
    m[ClaimRef(ns, disk) := ClaimObject(claim)]
  }

  lemma ClaimLeavesAgent(m: Store, ns: string, disk: string, claim: Claim, agent: Agent)
    ensures PodIn(WithClaim(m, ns, disk, claim), agent) == PodIn(m, agent)
    ensures ConfigMapIn(WithClaim(m, ns, disk, claim), agent) == ConfigMapIn(m, agent)
    ensures ClaimRef(ns, disk) in WithClaim(m, ns, disk, claim)
    ensures WithClaim(m, ns, disk, claim)[ClaimRef(ns, disk)] == ClaimObject(claim)
  {
  }

  lemma ObjectsOfOneAgent(agent: Agent, pod: Pod, cm: ConfigMap)
    ensures PodIn(OneAgent(agent, pod, cm), agent) == Some(pod)
    ensures ConfigMapIn(OneAgent(agent, pod, cm), agent) == Some(cm)
  {
  }

  /** A served attach leaves every claim alone. */
  lemma ServeSparesClaims(s: System, agent: Agent, task: Task, r: Ref)
    requires r.kind == ClaimKind && r in s.store
    ensures var m := Exec(s, Serve(s, agent, task)).store; r in m && m[r] == s.store[r]
  {
    hide AloneSchedule, Exec;
    OnlyOwnObjects(s, Serve(s, agent, task), r);
  }

  lemma OneDiskFound(m: Store, ns: string, context: string)
    requires ClaimRef(ns, "d") in m && HasLabel(m[ClaimRef(ns, "d")], DISK_LABEL, "d")
    ensures DisksFound(m, ns, context, DiskVolumes(["d"])) == [NewCid(context, "d")]
  {
    var volumes := DiskVolumes(["d"]);
    assert volumes == [DiskVolume("d")] && volumes[1..] == [];
    assert DiskFound(m, ns, context, DiskVolume("d")) == [NewCid(context, "d")];
    assert DisksFound(m, ns, context, []) == [];
  }

  lemma OneDiskRecorded(base: PodSpec, m: Store, agent: Agent, context: string)
    requires Plain(base) && AgreesIn(context, base, m, agent)
    requires PodIn(m, agent).value.spec == SpecWith(base, ["d"])
    ensures DisksOf(Decode(ConfigMapIn(m, agent).value.data[SETTINGS_KEY]).value).Keys == {NewCid(context, "d")}
  {
    hide Decode, SpecWith, Occurrences, NewCid;
    var record := DisksOf(Decode(ConfigMapIn(m, agent).value.data[SETTINGS_KEY]).value);
    forall d ensures NewCid(context, d) in record <==> d == "d" {
      DiskInNormalForm(base, ["d"], d);
      assert Count(["d"], d) == if d == "d" then 1 else 0;
    }
  }

  lemma HeldSpec(profile: Profile, s: System, agent: Agent, disks: seq<string>)
    requires Plain(profile.base) && Holds(profile, s, agent, disks)
    ensures PodIn(s.store, agent).Some? && PodIn(s.store, agent).value.spec == SpecWith(profile.base, disks)
  {
    hide HoldsRecord;
  }

  lemma VolumesOfOne(base: PodSpec)
    requires Plain(base) && base.volumes == []
    ensures SpecWith(base, ["d"]).volumes == DiskVolumes(["d"])
  {
    assert [] + DiskVolumes(["d"]) == DiskVolumes(["d"]);
  }

  /** In any such cluster with one disk `d` to attach, the config map records it under the context, and GetDisks
      answers with the context it is asked through. */
  lemma OneDiskAttached(profile: Profile, s: System, agent: Agent, context: string, asked: string)
    requires Plain(profile.base) && profile.base.volumes == []
    requires Holds(profile, s, agent, []) && AgreesIn(context, profile.base, s.store, agent)
    requires ClaimRef(agent.ns, "d") in s.store && HasLabel(s.store[ClaimRef(agent.ns, "d")], DISK_LABEL, "d")
    ensures var m := Exec(s, Serve(s, agent, Task(Add, context, "d"))).store;
            && AgreesIn(context, profile.base, m, agent)
            && DisksFound(m, agent.ns, asked, PodIn(m, agent).value.spec.volumes) == [NewCid(asked, "d")]
            && DisksOf(Decode(ConfigMapIn(m, agent).value.data[SETTINGS_KEY]).value).Keys == {NewCid(context, "d")}
  {
    hide Serve, Exec, AgreesIn, Plain, DisksFound, Decode, Holds, NewCid;
    var after := Exec(s, Serve(s, agent, Task(Add, context, "d")));
    ServedAttach(context, profile, s, agent, [], "d");
    assert [] + ["d"] == ["d"];
    HeldSpec(profile, after, agent, ["d"]);
    VolumesOfOne(profile.base);
    ServeSparesClaims(s, agent, Task(Add, context, "d"), ClaimRef(agent.ns, "d"));
    OneDiskFound(after.store, agent.ns, asked);
    OneDiskRecorded(profile.base, after.store, agent, context);
  }

  lemma SmallCids()
    ensures NewCid("", "d") == ":d" && NewCid("ctx", "d") == "ctx:d"
  {
  }

  lemma SmallStart()
    ensures Plain(SMALL_BASE) && Holds(SMALL_PROFILE, SMALL_WITH_DISK, SMALL_VM, [])
    ensures AgreesIn("ctx", SMALL_BASE, SMALL_WITH_DISK.store, SMALL_VM)
    ensures ClaimRef("ns", "d") in SMALL_WITH_DISK.store
    ensures HasLabel(SMALL_WITH_DISK.store[ClaimRef("ns", "d")], DISK_LABEL, "d")
  {
    hide Holds, AgreesIn, Plain, WithClaim, PodIn, ConfigMapIn, OneAgent, DiskName, Encode;
    ObjectsOfOneAgent(SMALL_VM, SMALL_POD, SMALL_CONFIG);
    ClaimLeavesAgent(SMALL.store, "ns", "d", CLAIM, SMALL_VM);
    SmallClusterHolds(SMALL_WITH_DISK);
  }

  /** Disk `d` is attached and its claim is there. The config map records `ctx:d`, and GetDisks for the VM named through
      the empty context answers `:d`. */
  lemma SmallEmptyContext()
    ensures var m := Exec(SMALL_WITH_DISK, Serve(SMALL_WITH_DISK, SMALL_VM, Task(Add, "ctx", "d"))).store;
            && Plain(SMALL_BASE) && AgreesIn("ctx", SMALL_BASE, m, SMALL_VM)
            && DisksFound(m, "ns", "", PodIn(m, SMALL_VM).value.spec.volumes) == [":d"]
            && DisksOf(Decode(ConfigMapIn(m, SMALL_VM).value.data[SETTINGS_KEY]).value).Keys == {"ctx:d"}
  {
    hide Serve, Exec, AgreesIn, Plain, DisksFound, Decode, Holds, HasLabel, WithClaim, DiskName, NewCid, OneAgent,
      Encode, NewClaim;
    SmallStart();
    OneDiskAttached(SMALL_PROFILE, SMALL_WITH_DISK, SMALL_VM, "ctx", "");
    SmallCids();
  }

  // ---- Setting metadata ----

  function Lowercase(text: string): string {
    seq(|text|, i requires 0 <= i < |text| =>
      if 'A' <= text[i] <= 'Z' then (text[i] as int - 'A' as int + 'a' as int) as char else text[i])
  }

  /** The validators of the client library, and lower-casing of the basic letters. */
  const RULES := Metadata.Rules(v => IsQualifiedName(v), v => IsLabelValue(v), key => Lowercase(key))

  lemma Lowered(text: string)
    requires forall c | c in text :: !('A' <= c <= 'Z')
    ensures Lowercase(text) == text
  {
    assert forall i | 0 <= i < |text| :: text[i] in text;
  }

  /** The entries `Job` and `job`: which of the two values the label `job` ends up with is up to the iteration order. */
  lemma OrderOfTwoEntries(labels: map<string, string>)
    ensures var metadata := map["Job" := "a", "job" := "b"];
            && Metadata.IsOrder(["Job", "job"], metadata) && Metadata.IsOrder(["job", "Job"], metadata)
            && LabelKey("job") in Metadata.MergeInOrder(RULES, labels, metadata, ["Job", "job"])
            && Metadata.MergeInOrder(RULES, labels, metadata, ["Job", "job"])[LabelKey("job")] == "b"
            && LabelKey("job") in Metadata.MergeInOrder(RULES, labels, metadata, ["job", "Job"])
            && Metadata.MergeInOrder(RULES, labels, metadata, ["job", "Job"])[LabelKey("job")] == "a"
  {
    hide IsQualifiedName, LabelKey;
    var metadata := map["Job" := "a", "job" := "b"];
    OwnKeys("job");
    assert Lowercase("Job") == "job" && Lowercase("job") == "job";
    assert IsLabelValue("a") && IsLabelValue("b");
    assert ["Job"] + ["job"] == ["Job", "job"] && ["job"] + ["Job"] == ["job", "Job"];
    Metadata.LastWins(RULES, labels, metadata, ["Job"], "job");
    Metadata.LastWins(RULES, labels, metadata, ["job"], "Job");
  }

  const CREATED := "2017-03-01T10:00:00Z"

  lemma ColonsAreInvalid(text: string)
    requires ':' in text
    ensures !IsLabelValue(text)
  {
  }

  lemma JobIsValid()
    ensures Lowercase("job") == "job" && Metadata.Passes(RULES, "job", "web")
  {
    hide IsQualifiedName;
    OwnKeys("job");
    Lowered("job");
  }

  /** Of two entries with different keys, one whose value is invalid is passed over and the other is set. */
  lemma OneOfTwoIsSet(metadata: map<string, string>, skipped: string, kept: string, labels: map<string, string>,
                      order: seq<string>)
    requires metadata.Keys == {skipped, kept} && Lowercase(kept) == kept && Lowercase(skipped) == skipped != kept
    requires !IsLabelValue(metadata[skipped]) && Metadata.Passes(RULES, kept, metadata[kept])
    requires Metadata.IsOrder(order, metadata)
    ensures Metadata.MergeInOrder(RULES, labels, metadata, order)
         == labels["bosh.cloudfoundry.org/" + kept := metadata[kept]]
  {
    hide IsQualifiedName, IsLabelValue, Lowercase, Metadata.MergeInOrder;
    Metadata.MergeRelabels(RULES, metadata, labels, order);
    var now, q := Metadata.MergeInOrder(RULES, labels, metadata, order), "bosh.cloudfoundry.org/" + kept;
    assert q in now;
    forall p | p in now ensures p in labels[q := metadata[kept]] && now[p] == labels[q := metadata[kept]][p] {
      if p == q || p !in labels || now[p] != labels[p] {
        assert IsLabelValue(now[p]) && Metadata.ComesFrom(RULES, metadata, p, now[p]);
      }
    }
  }

  /** The entries `created_at`, a time, and `job`: in either order the time is passed over and the job is set. */
  lemma CreatedAtIsPassedOver(labels: map<string, string>, order: seq<string>)
    requires Metadata.IsOrder(order, map["created_at" := CREATED, "job" := "web"])
    ensures Metadata.MergeInOrder(RULES, labels, map["created_at" := CREATED, "job" := "web"], order)
         == labels["bosh.cloudfoundry.org/" + "job" := "web"]
  {
    hide IsQualifiedName, IsLabelValue, Lowercase, Metadata.MergeInOrder, Metadata.Passes;
    JobIsValid();
    assert CREATED[13] == ':';
    ColonsAreInvalid(CREATED);
    Lowered("created_at");
    OneOfTwoIsSet(map["created_at" := CREATED, "job" := "web"], "created_at", "job", labels, order);
  }

  lemma OneDiskLabel(key: string, value: string, labels: map<string, string>)
    ensures Metadata.DiskMerged(labels, map[key := value])
         == labels["bosh.cloudfoundry.org/" + key := Metadata.DiskValue(key, value)]
  {
    hide Metadata.DiskValue;
    assert Metadata.DiskLabels(map[key := value]) == map[LabelKey(key) := Metadata.DiskValue(key, value)];
  }

  /** The disk entry `attached_at`, the same time, is valid, because its colons are replaced. */
  lemma AttachedAtIsSet(labels: map<string, string>)
    ensures Metadata.AllValidForDisk(RULES, map["attached_at" := CREATED])
    ensures Metadata.DiskMerged(labels, map["attached_at" := CREATED])
         == labels["bosh.cloudfoundry.org/" + "attached_at" := "2017-03-01T10_00_00Z"]
  {
    hide IsQualifiedName, Metadata.DiskMerged, LabelKey;
    OwnKeys("attached_at");
    assert Metadata.Underscored(CREATED) == "2017-03-01T10_00_00Z";
    OneDiskLabel("attached_at", CREATED, labels);
  }

  /** The one entry `agent-id` with another value is valid, and afterwards the pod is still there by name and HasVM
      does not find it. */
  lemma AgentIdHidesVM(m: Store, ns: string, id: string, other: string, order: seq<string>)
    requires LabelIndex(m) && Ref(PodKind, ns, AgentName(id)) in m && other != id
    requires IsLabelValue(id) && IsLabelValue(other) && Metadata.IsOrder(order, map["agent-id" := other])
    ensures var m' := Metadata.Merged(RULES, m, Ref(PodKind, ns, AgentName(id)), map["agent-id" := other], order);
            Ref(PodKind, ns, AgentName(id)) in m' && !HasVMIn(m', ns, id) && HasVMIn(m', ns, other)
  {
    hide IsQualifiedName, IsLabelValue, Selected;
    var r, metadata := Ref(PodKind, ns, AgentName(id)), map["agent-id" := other];
    OwnKeys("agent-id");
    Lowered("agent-id");
    assert LabelKey("agent-id") == AGENT_LABEL && Metadata.VmKey(RULES, "agent-id") == AGENT_LABEL;
    assert Metadata.Sets(RULES, metadata, order, "agent-id", AGENT_LABEL);
    Metadata.MergedLabel(RULES, m[r].pod.labels, metadata, order, AGENT_LABEL);
    var m' := Metadata.Merged(RULES, m, r, metadata, order);
    SelectingIsLabelled(m', PodKind, ns, AGENT_LABEL, id);
    SelectingIsLabelled(m', PodKind, ns, AGENT_LABEL, other);
    assert r in Labelled(m', PodKind, ns, AGENT_LABEL, other);
    forall q | q in m' && q.kind == PodKind && q.ns == ns ensures !HasLabel(m'[q], AGENT_LABEL, id) {
      if q != r {
        assert Indexed(q, m[q]);
      }
    }
  }

  /** The one entry `disk-id` with another value is valid, and afterwards the claim is still there by name and HasDisk
      does not find it. */
  lemma DiskIdHidesDisk(m: Store, ns: string, disk: string, other: string)
    requires LabelIndex(m) && ClaimRef(ns, disk) in m && other != disk && IsLabelValue(disk) && IsLabelValue(other)
    ensures var m' := Metadata.DiskSet(RULES, m, ClaimRef(ns, disk), map["disk-id" := other]);
            ClaimRef(ns, disk) in m' && !HasDiskIn(m', ns, disk) && HasDiskIn(m', ns, other)
  {
    hide IsQualifiedName, IsLabelValue, Selected;
    var r, metadata := ClaimRef(ns, disk), map["disk-id" := other];
    OwnKeys("disk-id");
    Metadata.DiskIdEntry();
    assert Metadata.AllValidForDisk(RULES, metadata);
    assert "disk-id" in metadata;
    Metadata.DiskLabelAt(metadata, DISK_LABEL);
    var m' := Metadata.DiskSet(RULES, m, r, metadata);
    assert HasLabel(m'[r], DISK_LABEL, other);
    SelectingIsLabelled(m', ClaimKind, ns, DISK_LABEL, disk);
    SelectingIsLabelled(m', ClaimKind, ns, DISK_LABEL, other);
    assert r in Labelled(m', ClaimKind, ns, DISK_LABEL, other);
    forall q | q in m' && q.kind == ClaimKind && q.ns == ns ensures !HasLabel(m'[q], DISK_LABEL, disk) {
      if q != r {
        assert Indexed(q, m[q]);
      }
    }
  }

  // ---- Identifiers that are label values, and others ----

  /** Of letters alone, a label value has at most 63 and a key at least one as well. */
  lemma LettersAreValid(text: string)
    requires forall c | c in text :: 'a' <= c <= 'z'
    ensures IsLabelValue(text) <==> |text| <= 63
    ensures IsQualifiedName(text) <==> 1 <= |text| <= 63
  {
    SplitNowhere(text, '/');
    if text != [] {
      assert text[0] in text && text[|text| - 1] in text;
    }
  }

  /** Dashes, underscores and dots are for the middle of a label value, colons and slashes for none of it. */
  lemma OtherCharacters()
    ensures IsLabelValue("") && IsLabelValue("a-B_c.9")
    ensures !IsLabelValue("-a") && !IsLabelValue("a-") && !IsLabelValue(".a") && !IsLabelValue("a_")
    ensures !IsLabelValue("a:b") && !IsLabelValue("a/b") && !IsLabelValue("a b")
  {
    ColonsAreInvalid("a:b");
    assert '/' in "a/b" && ' ' in "a b";
  }

  /** A VM named with an extra equality sign: HasVM answers for the VM without it, and Delete takes that one's
      services. */
  lemma SignReachesOthers(m: Store, ns: string, id: string)
    requires IsLabelValue(id)
    ensures HasVMIn(m, ns, "=" + id) <==> HasVMIn(m, ns, id)
    ensures forall r | r in m && r.kind == ServiceKind && r.ns == ns ::
              r in DeleteVM.Purge(m, ns, "=" + id) <==> !HasLabel(m[r], AGENT_LABEL, id)
  {
    hide IsLabelValue, Selected, PlainKey;
    IdentifyingKeys();
    SignIsSwallowed(AGENT_LABEL, id);
    SelectingIsLabelled(m, PodKind, ns, AGENT_LABEL, id);
    assert Selecting(m, PodKind, ns, AGENT_LABEL, "=" + id) == Selecting(m, PodKind, ns, AGENT_LABEL, id);
  }
}
