/** The metadata that a recreate carries from pod to pod: labels, annotations and the pinned IP
    (actions/volume_manager.go:90-104), over every schedule. */
module Carried {
  import opened Basics
  import opened Names
  import opened PodSpecs
  import opened Cluster
  import opened Recreate
  import opened Attachments

  /** A property of a pod's labels and annotations. */
  type Trait = (map<string, string>, map<string, string>) -> bool

  ghost predicate PodCarries(pod: Option<Pod>, good: Trait) {
    pod.Some? ==> good(pod.value.labels, pod.value.annotations)
  }

  /** The copy a run in flight has read or will create. */
  ghost predicate RunCarries(pc: Pc, good: Trait) {
    match pc
    case GetConfigMap(read) => good(read.labels, read.annotations)
    case UpdateConfigMap(read, _) => good(read.labels, read.annotations)
    case DeletePod(next) => good(next.labels, next.annotations)
    case CreatePod(next) => good(next.labels, next.annotations)
    case _ => true
  }

  /** Every copy there is: the stored pod, and that of a run in flight. */
  ghost predicate AllCarry(v: View, good: Trait) {
    && PodCarries(v.pod, good)
    && (v.desk.current.Some? ==> RunCarries(v.desk.current.value.pc, good))
  }

  /** Filling in the pin never makes it false. */
  ghost predicate SurvivesPinning(good: Trait) {
    forall labels, annotations, ip :: good(labels, annotations) ==> good(labels, Pinned(annotations, ip))
  }

  /** If the action patches labels onto the agent's pod, that never makes it false. */
  ghost predicate SurvivesAction(good: Trait, a: Action, agent: Agent) {
    a.Label? && a.agent == agent ==>
      forall labels, annotations :: good(labels, annotations) ==> good(labels + a.labels, annotations)
  }

  lemma StepCarries(m: Store, agent: Agent, task: Task, pc: Pc, served: bool, good: Trait)
    requires SurvivesPinning(good) && PodCarries(PodIn(m, agent), good) && RunCarries(pc, good)
    ensures var (m', pc') := Step(m, agent, task, pc, served);
            PodCarries(PodIn(m', agent), good) && RunCarries(pc', good)
  {
    hide EditedConfigMap, EditedSpec;
  }

  lemma ActCarries(s: System, a: Action, agent: Agent, good: Trait)
    requires SurvivesPinning(good) && SurvivesAction(good, a, agent) && AllCarry(ViewOf(s, agent), good)
    ensures AllCarry(ViewOf(Act(s, a), agent), good)
  {
    hide Step, SurvivesPinning;
    if a.agent != agent {
      ActIsLocal(s, s, a, agent);
    } else if a.Advance? && DeskOf(s, agent).current.Some? {
      var run := DeskOf(s, agent).current.value;
      StepCarries(s.store, agent, run.task, run.pc, a.served, good);
    }
  }

  /** What holds of every copy's labels and annotations holds of every copy at every later moment, unless
      pinning or a patch breaks it: no attach or detach loses metadata, under any schedule. */
  lemma {:induction false} CarriedForever(s: System, schedule: seq<Action>, agent: Agent, good: Trait)
    requires SurvivesPinning(good) && (forall a | a in schedule :: SurvivesAction(good, a, agent))
    requires AllCarry(ViewOf(s, agent), good)
    ensures AllCarry(ViewOf(Exec(s, schedule), agent), good)
    decreases |schedule|
  {
    if schedule != [] {
      var front, last := schedule[..|schedule| - 1], schedule[|schedule| - 1];
      assert last in schedule && forall a | a in front :: a in schedule;
      CarriedForever(s, front, agent, good);
      ActCarries(Exec(s, front), last, agent, good);
    }
  }

  /** This pin, and these other annotations. */
  ghost function PinIs(pin: string, others: map<string, string>): Trait {
    (labels, annotations) => PinIn(annotations) == pin && annotations - {IP_ANNOTATION} == others
  }

  ghost function LabelsAre(expected: map<string, string>): Trait {
    (labels, annotations) => labels == expected
  }

  /** What a recreate does to the pin: it keeps a non-empty one, and otherwise takes the pod's IP. */
  lemma PinOfSuccessor(pod: Pod, task: Task)
    ensures PinOf(Successor(pod, task)) == if PinOf(pod) != "" then PinOf(pod) else pod.status.podIP
    ensures Successor(pod, task).labels == pod.labels
    ensures Successor(pod, task).annotations - {IP_ANNOTATION} == pod.annotations - {IP_ANNOTATION}
  {
    assert Successor(pod, task).annotations - {IP_ANNOTATION} == pod.annotations - {IP_ANNOTATION};
  }

  /** Once the IP annotation is non-empty no attach or detach changes it, whatever IPs the pods get and
      whatever labels are set; all other annotations survive as well. */
  lemma PinnedForever(s: System, schedule: seq<Action>, agent: Agent, pin: string, others: map<string, string>)
    requires pin != "" && AllCarry(ViewOf(s, agent), PinIs(pin, others))
    ensures AllCarry(ViewOf(Exec(s, schedule), agent), PinIs(pin, others))
  {
    hide AllCarry;
    CarriedForever(s, schedule, agent, PinIs(pin, others));
  }

  /** The run in flight is one of this task that read this pod, and is on the way to its successor or past it. */
  ghost predicate FromRead(s: System, agent: Agent, task: Task, read: Pod) {
    var current, pod := DeskOf(s, agent).current, PodIn(s.store, agent);
    && current.Some? && current.value.task == task
    && match current.value.pc
       case GetConfigMap(copy) => copy == read
       case UpdateConfigMap(copy, _) => copy == read
       case DeletePod(next) => next == Successor(read, task)
       case CreatePod(next) => next == Successor(read, task)
       case OpenWatch | AwaitReady => pod.Some? && pod.value.annotations == Successor(read, task).annotations
       case _ => false
  }

  /** Since there were so many reports, the run has either gone on or left one more. */
  ghost predicate GoesOn(s: System, agent: Agent, task: Task, read: Pod, reports: nat) {
    |DeskOf(s, agent).past| > reports || (|DeskOf(s, agent).past| == reports && FromRead(s, agent, task, read))
  }

  lemma StepGoesOnFromRead(s: System, agent: Agent, task: Task, read: Pod, served: bool)
    requires FromRead(s, agent, task, read)
    ensures var s' := Act(s, Advance(agent, served));
            DeskOf(s', agent).current.None? || FromRead(s', agent, task, read)
  {
    hide EditedConfigMap, Successor;
  }

  lemma ReportGoesOn(s: System, a: Action, task: Task, read: Pod)
    requires FromRead(s, a.agent, task, read) && (a.Kubelet? || a.Label?)
    ensures FromRead(Act(s, a), a.agent, task, read)
  {
    hide Step, Successor;
  }

  lemma ReportsGrow(s: System, a: Action, agent: Agent)
    ensures var before, after := DeskOf(s, agent), DeskOf(Act(s, a), agent);
            && |after.past| >= |before.past|
            && (before.current.Some? && after.current.None? ==> |after.past| > |before.past|)
  {
    hide Step;
  }

  lemma ActGoesOn(s: System, a: Action, agent: Agent, task: Task, read: Pod, reports: nat)
    requires GoesOn(s, agent, task, read, reports)
    ensures GoesOn(Act(s, a), agent, task, read, reports)
  {
    hide Step, Successor, Act;
    ReportsGrow(s, a, agent);
    if |DeskOf(s, agent).past| == reports {
      if a.agent != agent {
        ActIsLocal(s, s, a, agent);
        assert PodIn(Act(s, a).store, agent) == PodIn(s.store, agent);
      } else {
        match a {
          case Advance(_, served) => StepGoesOnFromRead(s, agent, task, read, served);
          case Kubelet(_, _) | Label(_, _) => ReportGoesOn(s, a, task, read);
          case Begin(_, begun) => BeginWaits(s, agent, begun);
        }
      }
    }
  }

  lemma BeginWaits(s: System, agent: Agent, task: Task)
    requires DeskOf(s, agent).current.Some?
    ensures Act(s, Begin(agent, task)) == s
  {
  }

  lemma {:induction false} RunGoesOn(s: System, schedule: seq<Action>, agent: Agent, task: Task, read: Pod,
                                     reports: nat)
    requires GoesOn(s, agent, task, read, reports)
    ensures GoesOn(Exec(s, schedule), agent, task, read, reports)
    decreases |schedule|
  {
    hide GoesOn;
    if schedule != [] {
      var front, last := schedule[..|schedule| - 1], schedule[|schedule| - 1];
      RunGoesOn(s, front, agent, task, read, reports);
      ActGoesOn(Exec(s, front), last, agent, task, read, reports);
    }
  }

  /** A run that has read a pod without a pin while the pod had an IP, and has come as far as the wait, whatever
      happened in between: the pod it made is pinned to that IP, and every copy is at every later moment. */
  lemma FirstAddressIsForGood(s: System, between: seq<Action>, later: seq<Action>, agent: Agent, task: Task, read: Pod)
    requires DeskOf(s, agent).current == Some(Run(task, GetConfigMap(read)))
    requires PinOf(read) == "" && read.status.podIP != ""
    requires var desk := DeskOf(Exec(s, between), agent);
             && |desk.past| == |DeskOf(s, agent).past|
             && desk.current.Some? && (desk.current.value.pc.OpenWatch? || desk.current.value.pc.AwaitReady?)
    ensures PodIn(Exec(s, between).store, agent).Some?
    ensures AllCarry(ViewOf(Exec(Exec(s, between), later), agent),
                     PinIs(read.status.podIP, read.annotations - {IP_ANNOTATION}))
  {
    hide Exec, Successor, SurvivesPinning;
    var middle, good := Exec(s, between), PinIs(read.status.podIP, read.annotations - {IP_ANNOTATION});
    RunGoesOn(s, between, agent, task, read, |DeskOf(s, agent).past|);
    PinOfSuccessor(read, task);
    assert good(Successor(read, task).labels, Successor(read, task).annotations);
    assert AllCarry(ViewOf(middle, agent), good);
    PinnedForever(middle, later, agent, read.status.podIP, read.annotations - {IP_ANNOTATION});
  }

  /** While nobody patches an agent's labels they are the same in every copy. */
  lemma LabelsForever(s: System, schedule: seq<Action>, agent: Agent, labels: map<string, string>)
    requires forall a | a in schedule && a.agent == agent :: !a.Label?
    requires AllCarry(ViewOf(s, agent), LabelsAre(labels))
    ensures AllCarry(ViewOf(Exec(s, schedule), agent), LabelsAre(labels))
  {
    hide AllCarry;
    CarriedForever(s, schedule, agent, LabelsAre(labels));
  }

  /** A label with its value. */
  ghost function LabelIs(key: string, value: string): Trait {
    (labels, annotations) => key in labels && labels[key] == value
  }

  /** One label keeps its value in every copy when no patch gives it another. */
  lemma LabelForever(s: System, schedule: seq<Action>, agent: Agent, key: string, value: string)
    requires forall a | a in schedule && a.agent == agent && a.Label? && key in a.labels :: a.labels[key] == value
    requires AllCarry(ViewOf(s, agent), LabelIs(key, value))
    ensures AllCarry(ViewOf(Exec(s, schedule), agent), LabelIs(key, value))
  {
    hide AllCarry;
    CarriedForever(s, schedule, agent, LabelIs(key, value));
  }

  // ---- A label patched onto the pod: when it stays ----

  /** The run can still put its copy of the pod in place of the stored one. */
  ghost predicate CanReplace(m: Store, agent: Agent, run: Run) {
    match run.pc
    case GetConfigMap(_) => Workable(m, agent, run.task)
    case UpdateConfigMap(_, _) => agent.PodRef() in m && agent.ConfigMapRef() in m
    case DeletePod(_) => agent.PodRef() in m
    case CreatePod(_) => agent.PodRef() !in m
    case _ => false
  }

  /** A run in flight holds a copy of the pod without the trait, and can still create it. */
  ghost predicate Stale(s: System, agent: Agent, good: Trait) {
    var current := DeskOf(s, agent).current;
    current.Some? && !RunCarries(current.value.pc, good) && CanReplace(s.store, agent, current.value)
  }

  ghost predicate Patchless(schedule: seq<Action>, agent: Agent) {
    forall a | a in schedule && a.agent == agent :: !a.Label?
  }

  lemma StepStaysFresh(m: Store, agent: Agent, task: Task, pc: Pc, served: bool, good: Trait)
    requires SurvivesPinning(good) && PodCarries(PodIn(m, agent), good)
    requires RunCarries(pc, good) || !CanReplace(m, agent, Run(task, pc))
    ensures var (m', pc') := Step(m, agent, task, pc, served);
            && PodCarries(PodIn(m', agent), good)
            && (RunCarries(pc', good) || !CanReplace(m', agent, Run(task, pc')))
  {
    hide EditedConfigMap, EditedSpec;
  }

  lemma ActStaysFresh(s: System, a: Action, agent: Agent, good: Trait)
    requires SurvivesPinning(good) && (a.agent == agent ==> !a.Label?)
    requires PodCarries(PodIn(s.store, agent), good) && !Stale(s, agent, good)
    ensures PodCarries(PodIn(Act(s, a).store, agent), good) && !Stale(Act(s, a), agent, good)
  {
    hide Step, SurvivesPinning, EditedConfigMap;
    if a.agent != agent {
      ActIsLocal(s, s, a, agent);
      assert PodIn(s.store, agent) == PodIn(Act(s, a).store, agent);
      assert ConfigMapIn(s.store, agent) == ConfigMapIn(Act(s, a).store, agent);
    } else if a.Advance? && DeskOf(s, agent).current.Some? {
      var run := DeskOf(s, agent).current.value;
      StepStaysFresh(s.store, agent, run.task, run.pc, a.served, good);
    }
  }

  lemma {:induction false} FreshStays(s: System, schedule: seq<Action>, agent: Agent, good: Trait)
    requires SurvivesPinning(good) && Patchless(schedule, agent)
    requires PodCarries(PodIn(s.store, agent), good) && !Stale(s, agent, good)
    ensures PodCarries(PodIn(Exec(s, schedule).store, agent), good) && !Stale(Exec(s, schedule), agent, good)
    decreases |schedule|
  {
    hide Stale, PodCarries;
    if schedule != [] {
      var front, last := schedule[..|schedule| - 1], schedule[|schedule| - 1];
      assert last in schedule && forall a | a in front :: a in schedule;
      FreshStays(s, front, agent, good);
      ActStaysFresh(Exec(s, front), last, agent, good);
    }
  }

  /** So many of the agent's calls, all served. */
  function Advances(agent: Agent, n: nat): seq<Action> { seq(n, _ => Advance(agent, true)) }

  lemma StaleStep(m: Store, agent: Agent, task: Task, pc: Pc, good: Trait)
    requires LooksAtLabels(good) && !RunCarries(pc, good) && CanReplace(m, agent, Run(task, pc))
    ensures var (m', pc') := Step(m, agent, task, pc, true);
            if pc.CreatePod? then PodIn(m', agent) == Some(pc.next)
            else && !RunCarries(pc', good)
                 && CanReplace(m', agent, Run(task, pc'))
                 && Rank(pc') + 1 == Rank(pc)
                 && !pc'.Finished?
  {
    hide EditedConfigMap, EditedSpec, Pinned;
  }

  /** The annotations do not matter. */
  ghost predicate LooksAtLabels(good: Trait) {
    forall labels, a, b :: good(labels, a) <==> good(labels, b)
  }

  lemma StaleAdvance(s: System, agent: Agent, good: Trait)
    requires Stale(s, agent, good) && LooksAtLabels(good)
    ensures var s', run := Act(s, Advance(agent, true)), DeskOf(s, agent).current.value;
            if run.pc.CreatePod? then PodIn(s'.store, agent) == Some(run.pc.next)
            else Stale(s', agent, good) && Rank(DeskOf(s', agent).current.value.pc) + 1 == Rank(run.pc)
  {
    hide Step, CanReplace, LooksAtLabels, RunCarries;
    var run := DeskOf(s, agent).current.value;
    StaleStep(s.store, agent, run.task, run.pc, good);
  }

  /** A stale run with every call served creates its copy, without the trait. */
  lemma {:induction false} StaleLoses(s: System, agent: Agent, good: Trait)
    requires Stale(s, agent, good) && LooksAtLabels(good)
    ensures DeskOf(s, agent).current.Some?
    ensures var pc := DeskOf(s, agent).current.value.pc;
            && Rank(pc) >= 3
            && var pod := PodIn(Exec(s, Advances(agent, Rank(pc) - 2)).store, agent);
               pod.Some? && !good(pod.value.labels, pod.value.annotations)
    decreases Rank(DeskOf(s, agent).current.value.pc)
  {
    hide Step, CanReplace, LooksAtLabels, Exec;
    var run, s' := DeskOf(s, agent).current.value, Act(s, Advance(agent, true));
    ReplacingRank(s.store, agent, run);
    var n := Rank(run.pc) - 2;
    StaleAdvance(s, agent, good);
    ExecOne(s, Advance(agent, true));
    if run.pc.CreatePod? {
      assert Advances(agent, 1) == [Advance(agent, true)];
    } else {
      StaleLoses(s', agent, good);
      ExecConcat(s, [Advance(agent, true)], Advances(agent, n - 1));
      assert [Advance(agent, true)] + Advances(agent, n - 1) == Advances(agent, n);
    }
  }

  lemma ReplacingRank(m: Store, agent: Agent, run: Run)
    requires CanReplace(m, agent, run)
    ensures Rank(run.pc) >= 3 && (Rank(run.pc) == 3 <==> run.pc.CreatePod?)
  {
  }

  lemma ExecOne(s: System, a: Action)
    ensures Exec(s, [a]) == Act(s, a)
  {
    hide Act;
    assert Exec(s, []) == s;
  }

  /** A label patched onto the pod is there at every later moment the pod is, whatever is refused and as long as
      nobody patches again, exactly when no run in flight both holds a copy of the pod without it and can still
      create that copy. */
  lemma LabelStaysExactly(s: System, agent: Agent, key: string, value: string)
    requires PodIn(s.store, agent).Some?
    ensures (forall schedule | Patchless(schedule, agent) ::
               PodCarries(PodIn(Exec(Act(s, Label(agent, map[key := value])), schedule).store, agent),
                          LabelIs(key, value)))
       <==> !Stale(s, agent, LabelIs(key, value))
  {
    hide Stale, Exec;
    var patched, good := Act(s, Label(agent, map[key := value])), LabelIs(key, value);
    PatchLeavesRuns(s, agent, map[key := value], good);
    assert PodCarries(PodIn(patched.store, agent), good);
    if Stale(s, agent, good) {
      StaleLoses(patched, agent, good);
      var schedule := Advances(agent, Rank(DeskOf(patched, agent).current.value.pc) - 2);
      assert Patchless(schedule, agent) && !PodCarries(PodIn(Exec(patched, schedule).store, agent), good);
    } else {
      forall schedule | Patchless(schedule, agent)
        ensures PodCarries(PodIn(Exec(patched, schedule).store, agent), good)
      {
        FreshStays(patched, schedule, agent, good);
      }
    }
  }

  lemma PatchLeavesRuns(s: System, agent: Agent, labels: map<string, string>, good: Trait)
    requires PodIn(s.store, agent).Some?
    ensures Stale(Act(s, Label(agent, labels)), agent, good) <==> Stale(s, agent, good)
    ensures PodIn(Act(s, Label(agent, labels)).store, agent).Some?
    ensures PodIn(Act(s, Label(agent, labels)).store, agent).value.labels == PodIn(s.store, agent).value.labels + labels
    ensures DeskOf(Act(s, Label(agent, labels)), agent) == DeskOf(s, agent)
  {
    hide EditedConfigMap, RunCarries;
  }

  /** For a VM whose objects an account stands for, a run that has read the pod can create its copy: a patched label
      stays exactly when no run in flight holds a copy without it. */
  lemma LabelStaysUnlessCopied(profile: Profile, s: System, agent: Agent, key: string, value: string)
    requires Plain(profile.base) && Accounted(profile, ViewOf(s, agent)) && PodIn(s.store, agent).Some?
    ensures (forall schedule | Patchless(schedule, agent) ::
               PodCarries(PodIn(Exec(Act(s, Label(agent, map[key := value])), schedule).store, agent),
                          LabelIs(key, value)))
       <==> (DeskOf(s, agent).current.Some? ==>
               RunCarries(DeskOf(s, agent).current.value.pc, LabelIs(key, value)))
  {
    hide Exec, Patchless;
    LabelStaysExactly(s, agent, key, value);
    var log :| Tracks(profile, log, ViewOf(s, agent));
    var current := DeskOf(s, agent).current;
    if current.Some? && !RunCarries(current.value.pc, LabelIs(key, value)) {
      CopyCanReplace(profile, log, s, agent);
    }
  }

  lemma CopyCanReplace(profile: Profile, log: seq<Entry>, s: System, agent: Agent)
    requires Plain(profile.base) && Tracks(profile, log, ViewOf(s, agent)) && PodIn(s.store, agent).Some?
    requires DeskOf(s, agent).current.Some?
    ensures var run := DeskOf(s, agent).current.value;
            CanReplace(s.store, agent, run) || run.pc.GetPod? || run.pc.OpenWatch? || run.pc.AwaitReady?
  {
    hide LooksLike, IsNext, ReadRight, EditedDisks, EditedConfigMap, HoldsRecord;
    var run := DeskOf(s, agent).current.value;
    match run.pc {
      case GetConfigMap(_) => EditHoldsRecord(profile, ConfigMapIn(s.store, agent).value, RecordAfter(log), run.task);
      case CreatePod(next) => OneMore(log, Entry(run.task, Dropped, PinOf(next)));
      case _ =>
    }
  }

  lemma StaleOnceRead(s: System, agent: Agent, task: Task, good: Trait)
    requires DeskOf(s, agent).current.None? && Workable(s.store, agent, task)
    requires !PodCarries(PodIn(s.store, agent), good)
    ensures var t := Act(Act(s, Begin(agent, task)), Advance(agent, true));
            Stale(t, agent, good) && Rank(DeskOf(t, agent).current.value.pc) == 6
  {
    hide EditedConfigMap;
  }

  /** A run that has made one, two or three calls, all served, holds the copy it made of the pod. */
  lemma {:induction false} StaleAfter(s: System, agent: Agent, task: Task, made: nat, good: Trait)
    requires DeskOf(s, agent).current.None? && Workable(s.store, agent, task) && 1 <= made <= 3
    requires LooksAtLabels(good) && !PodCarries(PodIn(s.store, agent), good)
    ensures var t := Exec(s, [Begin(agent, task)] + Advances(agent, made));
            Stale(t, agent, good) && Rank(DeskOf(t, agent).current.value.pc) == 7 - made
  {
    hide Exec, LooksAtLabels, EditedConfigMap, Act, Stale;
    var begun, a := Act(s, Begin(agent, task)), Advance(agent, true);
    ExecOne(s, Begin(agent, task));
    if made == 1 {
      assert [Begin(agent, task)] + Advances(agent, 1) == [Begin(agent, task)] + [a];
      ExecConcat(s, [Begin(agent, task)], [a]);
      ExecOne(begun, a);
      StaleOnceRead(s, agent, task, good);
    } else {
      var fewer := [Begin(agent, task)] + Advances(agent, made - 1);
      var t := Exec(s, fewer);
      StaleAfter(s, agent, task, made - 1, good);
      assert [Begin(agent, task)] + Advances(agent, made) == fewer + [a];
      ExecConcat(s, fewer, [a]);
      ExecOne(t, a);
      StaleAdvance(t, agent, good);
    }
  }

  /** What is not carried: a label patched onto the pod after a run has made one, two or three of its calls is gone
      when the run, with every call served, has created the pod again. */
  lemma LabelsSetMidRunAreLost(s: System, agent: Agent, task: Task, made: nat, key: string, value: string)
    requires DeskOf(s, agent).current.None? && Workable(s.store, agent, task) && 1 <= made <= 3
    requires !PodCarries(PodIn(s.store, agent), LabelIs(key, value))
    ensures var schedule := [Begin(agent, task)] + Advances(agent, made) + [Label(agent, map[key := value])];
            var before, after := Exec(s, schedule), Exec(s, schedule + Advances(agent, 5 - made));
            && PodIn(before.store, agent).Some? && PodCarries(PodIn(before.store, agent), LabelIs(key, value))
            && PodIn(after.store, agent).Some? && !PodCarries(PodIn(after.store, agent), LabelIs(key, value))
  {
    hide Exec, Stale, Advances;
    var good, patch := LabelIs(key, value), Label(agent, map[key := value]);
    var begun := [Begin(agent, task)] + Advances(agent, made);
    var t := Exec(s, begun);
    StaleAfter(s, agent, task, made, good);
    StaleHasPod(t, agent, good);
    ExecConcat(s, begun, [patch]);
    ExecOne(t, patch);
    PatchLeavesRuns(t, agent, map[key := value], good);
    StaleLoses(Act(t, patch), agent, good);
    ExecConcat(s, begun + [patch], Advances(agent, 5 - made));
  }

  lemma StaleHasPod(s: System, agent: Agent, good: Trait)
    requires Stale(s, agent, good) && Rank(DeskOf(s, agent).current.value.pc) >= 4
    ensures PodIn(s.store, agent).Some?
  {
  }
}
