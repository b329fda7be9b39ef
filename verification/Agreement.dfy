/** The main results about attach and detach over whole runs: three-way agreement, settings that survive,
    and the lost pod. */
module Agreement {
  import opened Basics
  import opened Names
  import opened Settings
  import opened PodSpecs
  import opened Cluster
  import opened Recreate
  import opened Attachments

  // ---- Three-way agreement ----

  /** The disk map records exactly these disks, each at its mount path. */
  ghost predicate Records(record: map<string, string>, context: string, disks: seq<string>) {
    && (forall d :: NewCid(context, d) in record <==> d in disks)
    && (forall d | d in disks :: record[NewCid(context, d)] == MountPath(d))
    && (forall cid | cid in record :: exists d :: d in disks && cid == NewCid(context, d))
  }

  ghost predicate NoRepeats(disks: seq<string>) {
    forall d :: Count(disks, d) <= 1
  }

  /** The account has a pod, each disk once in it, and the same disks in the record. */
  ghost predicate Agrees(context: string, log: seq<Entry>) {
    && AttachedAfter(log).Some?
    && NoRepeats(AttachedAfter(log).value)
    && Records(RecordAfter(log), context, AttachedAfter(log).value)
  }

  lemma {:induction false} CountOfConcat(front: seq<string>, back: seq<string>, d: string)
    ensures Count(front + back, d) == Count(front, d) + Count(back, d)
  {
    if front == [] {
      assert front + back == back;
    } else {
      assert (front + back)[1..] == front[1..] + back;
      CountOfConcat(front[1..], back, d);
    }
  }

  lemma {:induction false} CountIsMembership(disks: seq<string>, d: string)
    ensures d in disks <==> Count(disks, d) >= 1
  {
    if disks != [] {
      CountIsMembership(disks[1..], d);
      assert disks == [disks[0]] + disks[1..];
    }
  }

  lemma {:induction false} CountOfWithout(disks: seq<string>, gone: string, d: string)
    ensures Count(Without(disks, gone), d)
         == if d == gone && Count(disks, d) > 0 then Count(disks, d) - 1 else Count(disks, d)
  {
    if disks != [] && disks[0] != gone {
      CountOfWithout(disks[1..], gone, d);
    }
  }

  lemma EditedListCount(disks: seq<string>, task: Task, d: string)
    ensures Count(EditedList(disks, task), d) ==
              match task.op
              case Add => Count(disks, d) + (if d == task.disk then 1 else 0)
              case Remove => if d == task.disk && Count(disks, d) > 0 then Count(disks, d) - 1 else Count(disks, d)
    ensures d in disks <==> Count(disks, d) >= 1
    ensures d in EditedList(disks, task) <==> Count(EditedList(disks, task), d) >= 1
  {
    CountOfConcat(disks, [task.disk], d);
    CountOfWithout(disks, task.disk, d);
    CountIsMembership(disks, d);
    CountIsMembership(EditedList(disks, task), d);
  }

  /** An edit of a list without repeats leaves every other disk alone, and repeats nothing
      unless it adds what is there. */
  lemma EditedListMembers(disks: seq<string>, task: Task)
    requires NoRepeats(disks)
    ensures forall d :: d in EditedList(disks, task) <==> if d == task.disk then task.op.Add? else d in disks
    ensures NoRepeats(EditedList(disks, task)) <==> !(task.op.Add? && task.disk in disks)
  {
    var disks' := EditedList(disks, task);
    forall d ensures d in disks' <==> if d == task.disk then task.op.Add? else d in disks {
      EditedListCount(disks, task, d);
    }
    EditedListCount(disks, task, task.disk);
    if !(task.op.Add? && task.disk in disks) {
      forall d ensures Count(disks', d) <= 1 { EditedListCount(disks, task, d); }
    }
  }

  /** Editing the record and the list by the same task keeps them matched, whether or not the record
      already had the edit, as it does when an earlier try of the task got no further than the record. */
  lemma RecordFollowsList(record: map<string, string>, context: string, disks: seq<string>, task: Task)
    requires NoRepeats(disks) && task.context == context
    requires Records(record, context, disks) || Records(record, context, EditedList(disks, task))
    requires task.op.Add? ==> task.disk !in disks
    ensures NoRepeats(EditedList(disks, task))
    ensures Records(EditedDisks(record, task), context, EditedList(disks, task))
  {
    var disks', record' := EditedList(disks, task), EditedDisks(record, task);
    EditedListMembers(disks, task);
    CidInjectiveInId(context);
    forall cid | cid in record' ensures exists d :: d in disks' && cid == NewCid(context, d) {
      if cid == NewCid(context, task.disk) {
        assert task.disk in disks';
      } else {
        var d :| (d in disks || d in disks') && cid == NewCid(context, d);
        assert d in disks';
      }
    }
  }

  /** From agreement, a run that goes through keeps agreement exactly when it does not attach a disk
      that is already attached. */
  lemma AgreementIsKeptExactly(context: string, log: seq<Entry>, task: Task, ip: string)
    requires Agrees(context, log) && task.context == context
    ensures Agrees(context, log + [Entry(task, Rebuilt, ip)])
       <==> !(task.op.Add? && task.disk in AttachedAfter(log).value)
  {
    var disks, done := AttachedAfter(log).value, log + [Entry(task, Rebuilt, ip)];
    OneMore(log, Entry(task, Rebuilt, ip));
    EditedListMembers(disks, task);
    if !(task.op.Add? && task.disk in disks) {
      RecordFollowsList(RecordAfter(log), context, disks, task);
    }
  }

  /** A run that recorded its edit and then lost its delete call leaves the record and the pod apart,
      unless there was nothing to edit. */
  lemma RecordedDiverges(context: string, log: seq<Entry>, task: Task, ip: string)
    requires Agrees(context, log) && task.context == context
    ensures Agrees(context, log + [Entry(task, Recorded, ip)])
       <==> (task.op.Add? <==> task.disk in AttachedAfter(log).value)
  {
    var disks := AttachedAfter(log).value;
    OneMore(log, Entry(task, Recorded, ip));
    assert NewCid(context, task.disk) in RecordAfter(log + [Entry(task, Recorded, ip)]) <==> task.op.Add?;
    if task.op.Add? <==> task.disk in disks {
      assert EditedDisks(RecordAfter(log), task) == RecordAfter(log);
    }
  }

  /** Tries of one task none of which lost the pod. */
  ghost predicate OnlyTries(tries: seq<Entry>, task: Task) {
    forall e | e in tries :: e.task == task && e.stage != Dropped
  }

  /** One more attach would repeat the disk: it was there at the start, or a try already created the pod with it. */
  ghost predicate Repeats(log: seq<Entry>, task: Task, tries: seq<Entry>)
    requires AttachedAfter(log).Some?
  {
    task.op.Add? && (task.disk in AttachedAfter(log).value || exists e :: e in tries && e.stage == Rebuilt)
  }

  /** What such tries leave from agreement: the disk at least once, if one more attach would repeat it; otherwise
      a list that the task edits as it would have edited the first one, and a record of it before or after the edit. */
  ghost predicate Left(context: string, log: seq<Entry>, task: Task, tries: seq<Entry>)
    requires AttachedAfter(log).Some?
  {
    && AttachedAfter(log + tries).Some?
    && var disks, record := AttachedAfter(log + tries).value, RecordAfter(log + tries);
       if Repeats(log, task, tries) then Count(disks, task.disk) >= 1
       else && NoRepeats(disks)
            && (task.op.Add? ==> task.disk !in disks)
            && EditedList(disks, task) == EditedList(AttachedAfter(log).value, task)
            && (Records(record, context, disks) || Records(record, context, EditedList(disks, task)))
  }

  lemma {:induction false} WithoutAbsent(disks: seq<string>, gone: string)
    requires gone !in disks
    ensures Without(disks, gone) == disks
  {
    if disks != [] {
      WithoutAbsent(disks[1..], gone);
    }
  }

  lemma {:induction false} TriesLeave(context: string, log: seq<Entry>, task: Task, tries: seq<Entry>)
    requires Agrees(context, log) && task.context == context && OnlyTries(tries, task)
    ensures Left(context, log, task, tries)
    decreases |tries|
  {
    if tries == [] {
      assert log + tries == log;
      CountIsMembership(AttachedAfter(log).value, task.disk);
    } else {
      var fewer, e := Front(tries), Last(tries);
      assert e in tries && (forall f | f in fewer :: f in tries) && tries == fewer + [e];
      TriesLeave(context, log, task, fewer);
      OneMoreLeft(context, log, task, fewer, e);
    }
  }

  lemma OneMoreLeft(context: string, log: seq<Entry>, task: Task, fewer: seq<Entry>, e: Entry)
    requires AttachedAfter(log).Some? && task.context == context
    requires Left(context, log, task, fewer) && e.task == task && e.stage != Dropped
    ensures Left(context, log, task, fewer + [e])
  {
    hide Records, NoRepeats, EditedDisks, Count;
    var disks, record := AttachedAfter(log + fewer).value, RecordAfter(log + fewer);
    assert log + (fewer + [e]) == log + fewer + [e];
    OneMore(log + fewer, e);
    MoreRepeats(log, task, fewer, e);
    EditedListCount(disks, task, task.disk);
    if !Repeats(log, task, fewer) && e.stage != Untouched {
      RecordFollowsList(record, context, disks, task);
      if task.op.Remove? {
        EditedListMembers(disks, task);
        WithoutAbsent(EditedList(disks, task), task.disk);
      }
    }
  }

  lemma MoreRepeats(log: seq<Entry>, task: Task, fewer: seq<Entry>, e: Entry)
    requires AttachedAfter(log).Some?
    ensures Repeats(log, task, fewer + [e]) <==> Repeats(log, task, fewer) || (task.op.Add? && e.stage == Rebuilt)
  {
    assert e in fewer + [e] && forall f :: f in fewer + [e] <==> f in fewer || f == e;
  }

  /** From agreement, after any tries of one task that did not lose the pod, a try that goes through ends in
      agreement exactly when it does not repeat the disk, and then as if it had been the first. */
  lemma RetryRecovers(context: string, log: seq<Entry>, task: Task, tries: seq<Entry>, ip: string)
    requires Agrees(context, log) && task.context == context && OnlyTries(tries, task)
    ensures var done := log + tries + [Entry(task, Rebuilt, ip)];
            && (Agrees(context, done) <==> !Repeats(log, task, tries))
            && (!Repeats(log, task, tries) ==>
                  AttachedAfter(done) == Some(EditedList(AttachedAfter(log).value, task)))
  {
    hide Records, EditedDisks, Count;
    TriesLeave(context, log, task, tries);
    OneMore(log + tries, Entry(task, Rebuilt, ip));
    var disks := AttachedAfter(log + tries).value;
    EditedListCount(disks, task, task.disk);
    if !Repeats(log, task, tries) {
      RecordFollowsList(RecordAfter(log + tries), context, disks, task);
    }
  }

  // ---- Agreement over whole runs of the system ----

  /** The disks left attached by a list of requests that all went through. */
  function Replay(past: seq<Report>): seq<string>
    decreases |past|
  {
    if past == [] then [] else EditedList(Replay(Front(past)), Last(past).task)
  }

  /** Every request succeeded, through one context, and attached only disks that were not attached;
      any disk may be detached. */
  ghost predicate Proper(context: string, past: seq<Report>)
    decreases |past|
  {
    past == [] ||
    (&& Proper(context, Front(past))
     && Last(past).ok && Last(past).task.context == context
     && (Last(past).task.op.Add? ==> Last(past).task.disk !in Replay(Front(past))))
  }

  lemma {:induction false} ProperHistoryAgrees(context: string, log: seq<Entry>, past: seq<Report>)
    requires Accounts(log, past) && Proper(context, past)
    ensures Agrees(context, log) && AttachedAfter(log) == Some(Replay(past))
    decreases |past|
  {
    if past != [] {
      ProperHistoryAgrees(context, Front(log), Front(past));
      var e := Last(log);
      assert log == Front(log) + [e] && e.stage == Rebuilt;
      AgreementIsKeptExactly(context, Front(log), e.task, e.ip);
      assert Entry(e.task, Rebuilt, e.ip) == e;
    }
  }

  /** The three places that hold the disk set, compared on the stored objects themselves: each recorded disk has one
      volume, on its claim, and one mount in the job container, at the recorded path; no other disk has any. */
  ghost predicate InAgreement(context: string, base: PodSpec, pod: Pod, cm: ConfigMap)
    requires Plain(base) && |pod.spec.containers| == |base.containers|
    requires SETTINGS_KEY in cm.data && Decode(cm.data[SETTINGS_KEY]).Some?
  {
    var record := DisksOf(Decode(cm.data[SETTINGS_KEY]).value);
    var job := pod.spec.containers[JobIndex(base.containers)];
    && (forall cid | cid in record :: exists d :: cid == NewCid(context, d))
    && forall d ::
         var times := if NewCid(context, d) in record then 1 else 0;
         && (times == 1 ==> record[NewCid(context, d)] == "/mnt/" + d)
         && Occurrences(pod.spec.volumes, "disk-" + d) == times
         && (forall v | v in pod.spec.volumes && v.name == "disk-" + d :: v.body == ClaimSource("disk-" + d))
         && Occurrences(job.mounts, "disk-" + d) == times
         && (forall mt | mt in job.mounts && mt.name == "disk-" + d ::
               times == 1 && mt.body == MountPoint(record[NewCid(context, d)], ""))
  }

  /** Every entry of a disk's name is the disk's own: the volume on its claim, the mount at its path. */
  lemma OwnEntries(base: PodSpec, disks: seq<string>, d: string)
    requires Plain(base)
    ensures var spec := SpecWith(base, disks);
            && (forall v | v in spec.volumes && v.name == "disk-" + d ::
                  d in disks && v.body == ClaimSource("disk-" + d))
            && (forall mt | mt in spec.containers[JobIndex(base.containers)].mounts && mt.name == "disk-" + d ::
                  d in disks && mt.body == MountPoint("/mnt/" + d, ""))
  {
    assert DiskAbsent(base, d);
    NamesInjective();
    hide Plain;
    var spec, j := SpecWith(base, disks), JobIndex(base.containers);
    forall v | v in spec.volumes && v.name == "disk-" + d ensures d in disks && v.body == ClaimSource("disk-" + d) {
      var i :| 0 <= i < |spec.volumes| && spec.volumes[i] == v;
      assert i >= |base.volumes| && v == DiskVolume(disks[i - |base.volumes|]);
    }
    var mounts := spec.containers[j].mounts;
    forall mt | mt in mounts && mt.name == "disk-" + d ensures d in disks && mt.body == MountPoint("/mnt/" + d, "") {
      var i :| 0 <= i < |mounts| && mounts[i] == mt;
      assert i >= |base.containers[j].mounts| && mt == DiskMount(disks[i - |base.containers[j].mounts|]);
    }
  }

  /** What a list of disks looks like in the volumes and the job mounts. */
  lemma DiskInNormalForm(base: PodSpec, disks: seq<string>, d: string)
    requires Plain(base)
    ensures var spec := SpecWith(base, disks);
            var job := spec.containers[JobIndex(base.containers)];
            && Occurrences(spec.volumes, "disk-" + d) == Count(disks, d)
            && Occurrences(job.mounts, "disk-" + d) == Count(disks, d)
            && (d in disks <==> Count(disks, d) >= 1)
            && (d in disks <==> !Absent(spec.volumes, "disk-" + d))
            && (forall v | v in spec.volumes && v.name == "disk-" + d ::
                  d in disks && v.body == ClaimSource("disk-" + d))
            && (forall mt | mt in job.mounts && mt.name == "disk-" + d ::
                  d in disks && mt.body == MountPoint("/mnt/" + d, ""))
  {
    OccurrencesInNormalForm(base, disks, d);
    NoOccurrences(SpecWith(base, disks).volumes, "disk-" + d);
    OwnEntries(base, disks, d);
    CountIsMembership(disks, d);
    hide SpecWith, Occurrences, Plain, Absent;
  }

  /** For objects an account with a pod stands for, agreement of the objects is agreement of the account. */
  lemma AgreementInObjects(context: string, profile: Profile, log: seq<Entry>, pod: Option<Pod>, cm: Option<ConfigMap>)
    requires Plain(profile.base) && Represents(profile, log, pod, cm) && AttachedAfter(log).Some?
    ensures pod.Some? && pod.value.spec == SpecWith(profile.base, AttachedAfter(log).value)
    ensures cm.Some? && SETTINGS_KEY in cm.value.data && Decode(cm.value.data[SETTINGS_KEY]).Some?
    ensures InAgreement(context, profile.base, pod.value, cm.value) <==> Agrees(context, log)
  {
    hide SpecWith, Occurrences, Decode, RecordAfter, AttachedAfter, Count;
    var disks := AttachedAfter(log).value;
    forall d { DiskInNormalForm(profile.base, disks, d); }
  }

  /** The three places agree in a store, for an agent whose pod is a base with disks attached. */
  ghost predicate AgreesIn(context: string, base: PodSpec, m: Store, agent: Agent)
    requires Plain(base)
  {
    var pod, cm := PodIn(m, agent), ConfigMapIn(m, agent);
    && pod.Some? && cm.Some?
    && |pod.value.spec.containers| == |base.containers|
    && SETTINGS_KEY in cm.value.data && Decode(cm.value.data[SETTINGS_KEY]).Some?
    && InAgreement(context, base, pod.value, cm.value)
  }

  lemma AgreesInIsAgrees(context: string, profile: Profile, log: seq<Entry>, m: Store, agent: Agent)
    requires Plain(profile.base) && Represents(profile, log, PodIn(m, agent), ConfigMapIn(m, agent))
    ensures AgreesIn(context, profile.base, m, agent) <==> Agrees(context, log)
  {
    hide InAgreement, Records, NoRepeats, HoldsRecord;
    if AttachedAfter(log).Some? {
      AgreementInObjects(context, profile, log, PodIn(m, agent), ConfigMapIn(m, agent));
    }
  }

  /** Three-way agreement over runs: start from an agent with no requests yet, take any schedule of
      any agents' actions, and suppose all this agent's requests were proper and none is in flight.
      Then the config map, the volume list and the job mounts hold the same disks, each once, and the
      pod spec is the base with the disks in order of their latest attach. */
  lemma ThreeWayAgreement(profile: Profile, s: System, schedule: seq<Action>, agent: Agent, context: string)
    requires Plain(profile.base) && Tracks(profile, [], ViewOf(s, agent))
    requires var v := ViewOf(Exec(s, schedule), agent);
             v.desk.current.None? && Proper(context, v.desk.past)
    ensures var v := ViewOf(Exec(s, schedule), agent);
            && v.pod.Some? && v.configMap.Some?
            && SETTINGS_KEY in v.configMap.value.data
            && Decode(v.configMap.value.data[SETTINGS_KEY]).Some?
            && v.pod.value.spec == SpecWith(profile.base, Replay(v.desk.past))
            && InAgreement(context, profile.base, v.pod.value, v.configMap.value)
  {
    var v := ViewOf(Exec(s, schedule), agent);
    EveryRunKeepsTrack(profile, s, schedule, agent);
    var log :| Tracks(profile, log, v);
    ProperHistoryAgrees(context, log, v.desk.past);
    AgreementInObjects(context, profile, log, v.pod, v.configMap);
  }

  /** Whatever was refused, the settings keep every field but the disk map for as long as the agent lives. */
  lemma SettingsSurvive(profile: Profile, s: System, schedule: seq<Action>, agent: Agent)
    requires Plain(profile.base) && Accounted(profile, ViewOf(s, agent))
    ensures var cm := ViewOf(Exec(s, schedule), agent).configMap;
            && cm.Some? && SETTINGS_KEY in cm.value.data
            && Decode(cm.value.data[SETTINGS_KEY]).Some?
            && RestOf(Decode(cm.value.data[SETTINGS_KEY]).value) == profile.settings
  {
    EveryMomentStands(profile, s, schedule, agent);
    var log :| Stands(profile, log, ViewOf(Exec(s, schedule), agent));
  }

  // ---- The lost pod ----

  ghost predicate Lost(v: View, cm: Option<ConfigMap>, requests: nat) {
    && v.pod.None? && v.configMap == cm
    && (v.desk.current.Some? ==> v.desk.current.value.pc.GetPod?)
    && |v.desk.past| >= requests
    && forall i | requests <= i < |v.desk.past| :: !v.desk.past[i].ok
  }

  /** Once a run has left the config map without a pod, every later attach and detach fails at its
      first call: nothing changes again under any schedule of these operations. */
  lemma {:induction false} LostPodStaysLost(s: System, schedule: seq<Action>, agent: Agent)
    requires ViewOf(s, agent).pod.None? && ViewOf(s, agent).desk.current.None?
    ensures var before, after := ViewOf(s, agent), ViewOf(Exec(s, schedule), agent);
            Lost(after, before.configMap, |before.desk.past|)
    decreases |schedule|
  {
    if schedule != [] {
      var middle, a := Exec(s, schedule[..|schedule| - 1]), schedule[|schedule| - 1];
      LostPodStaysLost(s, schedule[..|schedule| - 1], agent);
      if a.agent != agent {
        ActIsLocal(middle, middle, a, agent);
      }
    }
  }
}
