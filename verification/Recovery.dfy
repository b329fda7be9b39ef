/** One run of attach or detach and agreement on the stored objects: recovery by retry, the exact condition
    under which each outcome keeps agreement, and the second attach that breaks it. */
module Recovery {
  import opened Basics
  import opened Names
  import opened Settings
  import opened PodSpecs
  import opened Cluster
  import opened Recreate
  import opened Attachments
  import opened Agreement

  // ---- Recovery on the cluster ----

  /** A run alone, from objects an account stands for, leaves objects the account stands for once the run
      is entered at the stage its first refused call decides. */
  lemma TryLeaves(profile: Profile, log: seq<Entry>, m: Store, agent: Agent, task: Task, served: nat -> bool, n: nat,
                  ready: bool)
    requires Plain(profile.base) && Represents(profile, log, PodIn(m, agent), ConfigMapIn(m, agent))
    requires AttachedAfter(log).Some?
    ensures var (m', ok, _) := Alone(m, agent, task, GetPod, served, n, ready);
            && (ok <==> StageReached(served, n) == Rebuilt && served(n + 5) && ready)
            && exists ip :: Leaves(profile, log, Entry(task, StageReached(served, n), ip), task, ok, m', agent)
  {
    hide Represents, HoldsRecord, EditedConfigMap, EditedDisks, SpecWith, Alone, Successor;
    var pod, cm := PodIn(m, agent), ConfigMapIn(m, agent);
    var (m', ok, _) := Alone(m, agent, task, GetPod, served, n, ready);
    ReadsRight(profile, log, pod, cm);
    EditHoldsRecord(profile, cm.value, RecordAfter(log), task);
    SuccessorIsNext(profile, log, task, pod.value);
    CrashStates(m, agent, task, served, n, ready);
    var next, edited := Successor(pod.value, task), EditedConfigMap(cm.value, task).value;
    UntouchedRepresents(profile, log, task, pod, cm);
    RecordedRepresents(profile, log, task, PinOf(next), pod, cm, edited);
    DroppedRepresents(profile, log, task, PinOf(next), pod, Some(edited));
    RebuiltRepresents(profile, log, task, next, None, Some(edited));
    var ip := if StageReached(served, n) == Untouched then "" else PinOf(next);
    assert Leaves(profile, log, Entry(task, StageReached(served, n), ip), task, ok, m', agent);
  }

  lemma ReadsRight(profile: Profile, log: seq<Entry>, pod: Option<Pod>, cm: Option<ConfigMap>)
    requires Plain(profile.base) && Represents(profile, log, pod, cm) && AttachedAfter(log).Some?
    ensures pod.Some? && ReadRight(profile, log, pod.value)
    ensures cm.Some? && HoldsRecord(profile, cm.value, RecordAfter(log))
  {
  }

  /** The agent's objects are the same, but for the status its pod reports and its labels. */
  ghost predicate SameForAgent(m: Store, n: Store, agent: Agent) {
    ConfigMapIn(m, agent) == ConfigMapIn(n, agent) && SameButReports(PodIn(m, agent), PodIn(n, agent))
  }

  /** The agent's objects before each of a series of tries of one task, none of which lost the pod. Between tries
      the pod may report anything and be given labels, and the rest of the cluster may change. */
  ghost predicate Tries(runs: seq<Store>, refusals: seq<nat -> bool>, agent: Agent, task: Task) {
    && |runs| == |refusals| + 1
    && forall i | 0 <= i < |refusals| ::
         && StageReached(refusals[i], 0) != Dropped
         && SameForAgent(Alone(runs[i], agent, task, GetPod, refusals[i], 0, false).0, runs[i + 1], agent)
  }

  /** The entries of such a series. */
  ghost predicate EntriesOf(entries: seq<Entry>, refusals: seq<nat -> bool>, task: Task) {
    && |entries| == |refusals|
    && forall i | 0 <= i < |refusals| ::
         entries[i].task == task && entries[i].stage == StageReached(refusals[i], 0) != Dropped
  }

  lemma {:induction false} TriesAreAccounted(context: string, profile: Profile, log: seq<Entry>, runs: seq<Store>,
                                             refusals: seq<nat -> bool>, agent: Agent, task: Task)
    requires Plain(profile.base) && Tries(runs, refusals, agent, task)
    requires Agrees(context, log) && task.context == context
    requires Represents(profile, log, PodIn(runs[0], agent), ConfigMapIn(runs[0], agent))
    ensures var k := |refusals|;
            exists entries :: EntriesOf(entries, refusals, task)
                              && Represents(profile, log + entries, PodIn(runs[k], agent), ConfigMapIn(runs[k], agent))
    decreases |refusals|
  {
    hide Represents, Agrees, Alone, SameForAgent, StageReached;
    var k := |refusals|;
    if k == 0 {
      assert log + [] == log && EntriesOf([], refusals, task);
    } else {
      TriesAreAccounted(context, profile, log, runs[..k], refusals[..k - 1], agent, task);
      var entries :| EntriesOf(entries, refusals[..k - 1], task)
                     && Represents(profile, log + entries, PodIn(runs[k - 1], agent), ConfigMapIn(runs[k - 1], agent));
      EntriesAreTries(entries, refusals[..k - 1], task);
      var e := OneMoreTry(context, profile, log, entries, runs[k - 1], runs[k], refusals[k - 1], agent, task);
      assert EntriesOf(entries + [e], refusals, task) by {
        assert forall i | 0 <= i < k - 1 :: refusals[..k - 1][i] == refusals[i];
      }
    }
  }

  lemma EntriesAreTries(entries: seq<Entry>, refusals: seq<nat -> bool>, task: Task)
    requires EntriesOf(entries, refusals, task)
    ensures OnlyTries(entries, task)
    ensures (exists e :: e in entries && e.stage == Rebuilt)
       <==> (exists i :: 0 <= i < |refusals| && StageReached(refusals[i], 0) == Rebuilt)
  {
    hide StageReached;
    if i :| 0 <= i < |refusals| && StageReached(refusals[i], 0) == Rebuilt {
      assert entries[i] in entries;
    }
  }

  lemma OneMoreTry(context: string, profile: Profile, log: seq<Entry>, entries: seq<Entry>, m: Store, m': Store,
                   served: nat -> bool, agent: Agent, task: Task) returns (e: Entry)
    requires Plain(profile.base) && Agrees(context, log) && task.context == context
    requires OnlyTries(entries, task) && Represents(profile, log + entries, PodIn(m, agent), ConfigMapIn(m, agent))
    requires StageReached(served, 0) != Dropped
    requires SameForAgent(Alone(m, agent, task, GetPod, served, 0, false).0, m', agent)
    ensures e.task == task && e.stage == StageReached(served, 0)
    ensures Represents(profile, log + (entries + [e]), PodIn(m', agent), ConfigMapIn(m', agent))
  {
    hide Represents, NoRepeats, Records, Alone, StageReached, SameButReports;
    TriesLeave(context, log, task, entries);
    TryLeaves(profile, log + entries, m, agent, task, served, 0, false);
    var (middle, ok, _) := Alone(m, agent, task, GetPod, served, 0, false);
    var ip :| Leaves(profile, log + entries, Entry(task, StageReached(served, 0), ip), task, ok, middle, agent);
    e := Entry(task, StageReached(served, 0), ip);
    assert log + entries + [e] == log + (entries + [e]);
    assert SameForAgent(middle, m', agent);
    ReportsDoNotMatter(profile, log + (entries + [e]), PodIn(middle, agent), PodIn(m', agent), ConfigMapIn(m', agent));
  }

  /** One more attach would put the disk's volume into the pod again: the pod had it at the start, or one of the
      tries came as far as creating the pod with it. */
  ghost predicate WouldRepeat(pod: Pod, refusals: seq<nat -> bool>, task: Task) {
    && task.op.Add?
    && (!Absent(pod.spec.volumes, "disk-" + task.disk)
        || exists i :: 0 <= i < |refusals| && StageReached(refusals[i], 0) == Rebuilt)
  }

  /** Recovery on the cluster itself: from agreement, and after any number of tries of one task that did not lose
      the pod, a try with every call served and the wait successful succeeds. The stored objects end in agreement
      exactly when it did not attach a disk that was there at the start or that a try had already put into the pod,
      as a try whose wait failed has; and then the pod is as one successful try would have made it. */
  lemma RetryRecoversObjects(context: string, profile: Profile, log: seq<Entry>, runs: seq<Store>,
                             refusals: seq<nat -> bool>, agent: Agent, task: Task, served: nat -> bool, n: nat,
                             ready: bool)
    requires Plain(profile.base) && Tries(runs, refusals, agent, task) && task.context == context
    requires Represents(profile, log, PodIn(runs[0], agent), ConfigMapIn(runs[0], agent))
    requires AgreesIn(context, profile.base, runs[0], agent)
    requires StageReached(served, n) == Rebuilt && served(n + 5) && ready
    ensures var (m, ok, _) := Alone(runs[|refusals|], agent, task, GetPod, served, n, ready);
            && ok && PodIn(m, agent).Some? && AttachedAfter(log).Some?
            && (AgreesIn(context, profile.base, m, agent)
                <==> !WouldRepeat(PodIn(runs[0], agent).value, refusals, task))
            && (!WouldRepeat(PodIn(runs[0], agent).value, refusals, task) ==>
                  PodIn(m, agent).value.spec == SpecWith(profile.base, EditedList(AttachedAfter(log).value, task)))
  {
    hide Alone, StageReached, SpecWith, InAgreement, NoRepeats, Records, Represents, EditedDisks, Repeats, AgreesIn;
    var first, last := runs[0], runs[|refusals|];
    AgreesInIsAgrees(context, profile, log, first, agent);
    StartsWithDisk(context, profile, log, first, agent, task.disk);
    TriesAreAccounted(context, profile, log, runs, refusals, agent, task);
    var entries :| EntriesOf(entries, refusals, task)
                   && Represents(profile, log + entries, PodIn(last, agent), ConfigMapIn(last, agent));
    EntriesAreTries(entries, refusals, task);
    assert Repeats(log, task, entries) <==> WouldRepeat(PodIn(first, agent).value, refusals, task) by {
      RepeatsMeans(log, task, entries);
    }
    LastTry(context, profile, log, entries, last, agent, task, served, n, ready);
  }

  lemma RepeatsMeans(log: seq<Entry>, task: Task, entries: seq<Entry>)
    requires AttachedAfter(log).Some?
    ensures Repeats(log, task, entries) <==>
              task.op.Add?
              && (task.disk in AttachedAfter(log).value || exists e :: e in entries && e.stage == Rebuilt)
  {
  }

  lemma StartsWithDisk(context: string, profile: Profile, log: seq<Entry>, m: Store, agent: Agent, disk: string)
    requires Plain(profile.base) && Represents(profile, log, PodIn(m, agent), ConfigMapIn(m, agent))
    requires Agrees(context, log)
    ensures PodIn(m, agent).Some?
    ensures !Absent(PodIn(m, agent).value.spec.volumes, "disk-" + disk) <==> disk in AttachedAfter(log).value
  {
    hide Represents, SpecWith, InAgreement, Records, NoRepeats;
    AgreementInObjects(context, profile, log, PodIn(m, agent), ConfigMapIn(m, agent));
    DiskInNormalForm(profile.base, AttachedAfter(log).value, disk);
  }

  lemma LastTry(context: string, profile: Profile, log: seq<Entry>, entries: seq<Entry>, last: Store, agent: Agent,
                task: Task, served: nat -> bool, n: nat, ready: bool)
    requires Plain(profile.base) && Agrees(context, log) && task.context == context && OnlyTries(entries, task)
    requires Represents(profile, log + entries, PodIn(last, agent), ConfigMapIn(last, agent))
    requires StageReached(served, n) == Rebuilt && served(n + 5) && ready
    ensures var (m, ok, _) := Alone(last, agent, task, GetPod, served, n, ready);
            && ok && PodIn(m, agent).Some?
            && (AgreesIn(context, profile.base, m, agent) <==> !Repeats(log, task, entries))
            && (!Repeats(log, task, entries) ==>
                  PodIn(m, agent).value.spec == SpecWith(profile.base, EditedList(AttachedAfter(log).value, task)))
  {
    hide Alone, StageReached, SpecWith, InAgreement, NoRepeats, Records, Represents, EditedDisks, Repeats, AgreesIn;
    var m := Alone(last, agent, task, GetPod, served, n, ready).0;
    TriesLeave(context, log, task, entries);
    TryLeaves(profile, log + entries, last, agent, task, served, n, ready);
    var ip :| Leaves(profile, log + entries, Entry(task, StageReached(served, n), ip), task, true, m, agent);
    var done := log + entries + [Entry(task, Rebuilt, ip)];
    RetryRecovers(context, log, task, entries, ip);
    OneMore(log + entries, Entry(task, Rebuilt, ip));
    AgreementInObjects(context, profile, done, PodIn(m, agent), ConfigMapIn(m, agent));
    AgreesInIsAgrees(context, profile, done, m, agent);
  }

  // ---- What one run does to agreement, exactly ----

  /** From agreement, by the stage at which the run stopped: before any write the places still agree; with the
      config map written and the pod not yet deleted they agree exactly when there was nothing to edit; with
      the pod deleted there is nothing to agree with; with the pod created again they agree exactly when the
      run did not attach a disk whose volume the pod already had. */
  lemma RunKeepsAgreementExactly(context: string, profile: Profile, log: seq<Entry>, m: Store, agent: Agent, task: Task,
                                 served: nat -> bool, n: nat, ready: bool)
    requires Plain(profile.base) && Represents(profile, log, PodIn(m, agent), ConfigMapIn(m, agent))
    requires AgreesIn(context, profile.base, m, agent) && task.context == context
    ensures var m' := Alone(m, agent, task, GetPod, served, n, ready).0;
            var attached := !Absent(PodIn(m, agent).value.spec.volumes, "disk-" + task.disk);
            match StageReached(served, n)
            case Untouched => AgreesIn(context, profile.base, m', agent)
            case Recorded => AgreesIn(context, profile.base, m', agent) <==> (task.op.Add? <==> attached)
            case Dropped => PodIn(m', agent).None?
            case Rebuilt => AgreesIn(context, profile.base, m', agent) <==> !(task.op.Add? && attached)
  {
    hide Alone, Represents, StageReached, NoRepeats, Records, SpecWith, AgreesIn;
    var m', ok := Alone(m, agent, task, GetPod, served, n, ready).0, Alone(m, agent, task, GetPod, served, n, ready).1;
    AgreesInIsAgrees(context, profile, log, m, agent);
    AgreementInObjects(context, profile, log, PodIn(m, agent), ConfigMapIn(m, agent));
    DiskInNormalForm(profile.base, AttachedAfter(log).value, task.disk);
    TryLeaves(profile, log, m, agent, task, served, n, ready);
    var ip :| Leaves(profile, log, Entry(task, StageReached(served, n), ip), task, ok, m', agent);
    var e := Entry(task, StageReached(served, n), ip);
    AgreesInIsAgrees(context, profile, log + [e], m', agent);
    OneMore(log, e);
    match e.stage {
      case Untouched =>
      case Recorded => RecordedDiverges(context, log, task, ip);
      case Dropped => NoPodLeft(profile, log + [e], PodIn(m', agent), ConfigMapIn(m', agent));
      case Rebuilt => AgreementIsKeptExactly(context, log, task, ip);
    }
  }

  lemma NoPodLeft(profile: Profile, log: seq<Entry>, pod: Option<Pod>, cm: Option<ConfigMap>)
    requires Plain(profile.base) && Represents(profile, log, pod, cm) && AttachedAfter(log).None?
    ensures pod.None?
  {
  }

  // ---- A second attach ----

  ghost const ALWAYS: nat -> bool := _ => true

  /** A request arrives and its run goes through with every call served and the pod coming up. */
  ghost function Serve(s: System, agent: Agent, task: Task): seq<Action> {
    [Begin(agent, task)] + AloneSchedule(s.store, agent, task, GetPod, ALWAYS, 0, true)
  }

  lemma ServeIsAlone(s: System, agent: Agent, task: Task)
    requires DeskOf(s, agent).current.None?
    ensures var after := Exec(s, Serve(s, agent, task));
            var (m, ok, _) := Alone(s.store, agent, task, GetPod, ALWAYS, 0, true);
            after.store == m && DeskOf(after, agent) == Desk(DeskOf(s, agent).past + [Report(task, ok)], None)
  {
    hide Alone, AloneSchedule;
    var begun := Act(s, Begin(agent, task));
    assert Exec(s, [Begin(agent, task)]) == begun by { assert Exec(s, []) == s; }
    ExecConcat(s, [Begin(agent, task)], AloneSchedule(s.store, agent, task, GetPod, ALWAYS, 0, true));
    AloneIsASchedule(begun, agent, task, GetPod, ALWAYS, 0, true);
  }

  /** The kubelet reports a status for a pod that is not pinned yet, and then a run goes through: the pod it makes is
      pinned to the reported IP. */
  lemma ReportedAddressIsPinned(s: System, agent: Agent, task: Task, status: PodStatus)
    requires DeskOf(s, agent).current.None? && Workable(s.store, agent, task)
    requires PinOf(s.store[agent.PodRef()].pod) == ""
    ensures var seen := Act(s, Kubelet(agent, status));
            var after := Exec(seen, Serve(seen, agent, task));
            && PodIn(after.store, agent).Some?
            && PinOf(PodIn(after.store, agent).value) == status.podIP
            && PodIn(after.store, agent).value.annotations - {IP_ANNOTATION}
               == s.store[agent.PodRef()].pod.annotations - {IP_ANNOTATION}
  {
    hide Serve, Alone, EditedSpec, EditedConfigMap;
    var seen := Act(s, Kubelet(agent, status));
    assert Workable(seen.store, agent, task);
    ServeIsAlone(seen, agent, task);
    CrashStates(seen.store, agent, task, ALWAYS, 0, true);
  }

  /** The agent has no run in flight, and its pod is the base with these disks. */
  ghost predicate Holds(profile: Profile, s: System, agent: Agent, disks: seq<string>)
    requires Plain(profile.base)
  {
    && DeskOf(s, agent).current.None?
    && exists log ::
         && Represents(profile, log, PodIn(s.store, agent), ConfigMapIn(s.store, agent))
         && AttachedAfter(log) == Some(disks)
  }

  lemma HeldDisks(profile: Profile, s: System, agent: Agent, disks: seq<string>, d: string)
    requires Plain(profile.base) && Holds(profile, s, agent, disks)
    ensures PodIn(s.store, agent).Some?
    ensures var volumes := PodIn(s.store, agent).value.spec.volumes;
            && Occurrences(volumes, DiskName(d)) == Count(disks, d)
            && (!Absent(volumes, "disk-" + d) <==> Count(disks, d) >= 1)
  {
    hide Represents, SpecWith, Occurrences, Count, InAgreement, Agrees;
    var pod, cm := PodIn(s.store, agent), ConfigMapIn(s.store, agent);
    var log :| Represents(profile, log, pod, cm) && AttachedAfter(log) == Some(disks);
    AgreementInObjects("", profile, log, pod, cm);
    DiskInNormalForm(profile.base, disks, d);
  }

  /** One served attach: it succeeds, the disk goes to the end of the list whether or not it was there, and
      places that agreed still do exactly when it was not. */
  lemma ServedAttach(context: string, profile: Profile, s: System, agent: Agent, disks: seq<string>, disk: string)
    requires Plain(profile.base) && Holds(profile, s, agent, disks) && AgreesIn(context, profile.base, s.store, agent)
    ensures var task := Task(Add, context, disk);
            var after := Exec(s, Serve(s, agent, task));
            && DeskOf(after, agent).past == DeskOf(s, agent).past + [Report(task, true)]
            && Holds(profile, after, agent, disks + [disk])
            && (AgreesIn(context, profile.base, after.store, agent) <==> Count(disks, disk) == 0)
  {
    hide Alone, Represents, Serve, Exec, AgreesIn, Occurrences, Count;
    var task := Task(Add, context, disk);
    var log :| Represents(profile, log, PodIn(s.store, agent), ConfigMapIn(s.store, agent))
               && AttachedAfter(log) == Some(disks);
    HeldDisks(profile, s, agent, disks, disk);
    ServeIsAlone(s, agent, task);
    RunKeepsAgreementExactly(context, profile, log, s.store, agent, task, ALWAYS, 0, true);
    TryLeaves(profile, log, s.store, agent, task, ALWAYS, 0, true);
    var m := Alone(s.store, agent, task, GetPod, ALWAYS, 0, true).0;
    var ip :| Leaves(profile, log, Entry(task, Rebuilt, ip), task, true, m, agent);
    OneMore(log, Entry(task, Rebuilt, ip));
  }

  /** Two attaches of one disk, each reported successful: after the first the places agree, after the second
      they do not, and the pod has the disk's volume twice. */
  lemma SecondAttachRepeats(context: string, profile: Profile, s: System, agent: Agent, disks: seq<string>,
                            disk: string)
    requires Plain(profile.base) && Holds(profile, s, agent, disks) && AgreesIn(context, profile.base, s.store, agent)
    requires Absent(PodIn(s.store, agent).value.spec.volumes, "disk-" + disk)
    ensures var task := Task(Add, context, disk);
            var once := Exec(s, Serve(s, agent, task));
            var twice := Exec(once, Serve(once, agent, task));
            && AgreesIn(context, profile.base, once.store, agent)
            && !AgreesIn(context, profile.base, twice.store, agent)
            && DeskOf(twice, agent).past == DeskOf(s, agent).past + [Report(task, true), Report(task, true)]
            && PodIn(twice.store, agent).Some?
            && Occurrences(PodIn(twice.store, agent).value.spec.volumes, DiskName(disk)) == 2
  {
    hide Serve, Exec, AgreesIn, Holds, Occurrences;
    var task := Task(Add, context, disk);
    var once := Exec(s, Serve(s, agent, task));
    var twice := Exec(once, Serve(once, agent, task));
    HeldDisks(profile, s, agent, disks, disk);
    ServedAttach(context, profile, s, agent, disks, disk);
    CountOfConcat(disks, [disk], disk);
    ServedAttach(context, profile, once, agent, disks + [disk], disk);
    CountOfConcat(disks + [disk], [disk], disk);
    HeldDisks(profile, twice, agent, disks + [disk] + [disk], disk);
    assert [Report(task, true)] + [Report(task, true)] == [Report(task, true), Report(task, true)];
  }
}
