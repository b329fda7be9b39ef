/** recreatePod as a protocol: one program counter a run, one API call a step, and any number of
    agents' runs interleaved over the shared cluster (actions/volume_manager.go:76-164). */
module Recreate {
  import opened Basics
  import opened Names
  import opened Settings
  import opened PodSpecs
  import opened Cluster

  datatype Operation = Add | Remove

  datatype Task = Task(op: Operation, context: string, disk: string)

  datatype Agent = Agent(ns: string, id: string) {
    function PodRef(): Ref { Ref(PodKind, ns, AgentName(id)) }

    function ConfigMapRef(): Ref { Ref(ConfigMapKind, ns, AgentName(id)) }
  }

  // ---- The edits a run makes between its calls ----

  function EditedDisks(disks: map<string, string>, task: Task): map<string, string> {
    var cid := NewCid(task.context, task.disk);
    match task.op
    case Add => disks[cid := MountPath(task.disk)]
    case Remove => disks - {cid}
  }

  /** The config map with the disk map of its settings edited, when the settings can be decoded. */
  function EditedConfigMap(cm: ConfigMap, task: Task): Option<ConfigMap> {
    if SETTINGS_KEY !in cm.data then None else
    var s := Decode(cm.data[SETTINGS_KEY]);
    if s.None? then None else
    var edited := s.value.(persistent := Some(EditedDisks(DisksOf(s.value), task)));
    Some(cm.(data := cm.data[SETTINGS_KEY := Parsed(Encode(edited))]))
  }

  function EditedSpec(spec: PodSpec, task: Task): PodSpec {
    match task.op
    case Add => WithDisk(spec, task.disk)
    case Remove => WithoutDisk(spec, task.disk)
  }

  /** The IP annotation is kept once it is non-empty; otherwise it becomes the pod's current IP. */
  function Pinned(annotations: map<string, string>, podIP: string): map<string, string> {
    if IP_ANNOTATION in annotations && annotations[IP_ANNOTATION] != "" then annotations
    else annotations[IP_ANNOTATION := podIP]
  }

  /** The pod a run creates in place of the one it read. */
  function Successor(pod: Pod, task: Task): Pod {
    Pod(pod.labels, Pinned(pod.annotations, pod.status.podIP), EditedSpec(pod.spec, task), NO_STATUS)
  }

  // ---- One run ----

  datatype Pc =
    | GetPod
    | GetConfigMap(read: Pod)
    | UpdateConfigMap(read: Pod, edited: ConfigMap)
    | DeletePod(next: Pod)
    | CreatePod(next: Pod)
    | OpenWatch
    | AwaitReady
    | Finished(ok: bool)

  /** One step: the call the counter stands at, served or refused. At `AwaitReady` the flag says
      whether the wait succeeded; at `OpenWatch`, whether the selector parsed and the watch opened. */
  function Step(m: Store, agent: Agent, task: Task, pc: Pc, served: bool): (Store, Pc) {
    match pc
    case GetPod =>
      var res := Read(m, agent.PodRef(), served);
      (m, if res.Ok? then GetConfigMap(res.value.pod) else Finished(false))
    case GetConfigMap(pod) =>
      var res := Read(m, agent.ConfigMapRef(), served);
      if res.Err? then (m, Finished(false)) else
      var edited := EditedConfigMap(res.value.configMap, task);
      (m, if edited.Some? then UpdateConfigMap(pod, edited.value) else Finished(false))
    case UpdateConfigMap(pod, edited) =>
      var (m', res) := Replace(m, agent.ConfigMapRef(), ConfigMapObject(edited), served);
      (m', if res.Ok? then DeletePod(Successor(pod, task)) else Finished(false))
    case DeletePod(next) =>
      var (m', res) := Erase(m, agent.PodRef(), served);
      (m', if res.Ok? then CreatePod(next) else Finished(false))
    case CreatePod(next) =>
      var (m', res) := Insert(m, agent.PodRef(), PodObject(next), served);
      (m', if res.Ok? then OpenWatch else Finished(false))
    case OpenWatch => (m, if served then AwaitReady else Finished(false))
    case AwaitReady => (m, Finished(served))
    case Finished(ok) => (m, pc)
  }

  // ---- Many agents ----

  datatype Run = Run(task: Task, pc: Pc)

  datatype Report = Report(task: Task, ok: bool)

  /** What is known of one agent's requests: the reports returned so far, and the run in flight. */
  datatype Desk = Desk(past: seq<Report>, current: Option<Run>)

  datatype System = System(store: Store, desks: map<Agent, Desk>)

  /** A request arrives, a run takes its next step, the kubelet reports a status for a pod, or somebody
      patches labels onto a pod, as setting VM metadata does. */
  datatype Action =
    | Begin(agent: Agent, task: Task)
    | Advance(agent: Agent, served: bool)
    | Kubelet(agent: Agent, status: PodStatus)
    | Label(agent: Agent, labels: map<string, string>)

  function DeskOf(s: System, agent: Agent): Desk {
    if agent in s.desks then s.desks[agent] else Desk([], None)
  }

  function WithStatus(m: Store, r: Ref, status: PodStatus): Store
    requires r.kind == PodKind
  {
    if r in m then m[r := PodObject(m[r].pod.(status := status))] else m
  }

  /** A request for an agent that has a run in flight waits: at most one is in flight an agent. */
  function Act(s: System, a: Action): System {
    var desk := DeskOf(s, a.agent);
    match a
    case Begin(agent, task) =>
      if desk.current.Some? then s else s.(desks := s.desks[agent := desk.(current := Some(Run(task, GetPod)))])
    case Advance(agent, served) =>
      if desk.current.None? then s else
      var run := desk.current.value;
      var (m, pc) := Step(s.store, agent, run.task, run.pc, served);
      System(m, s.desks[agent :=
        if pc.Finished? then Desk(desk.past + [Report(run.task, pc.ok)], None)
        else desk.(current := Some(run.(pc := pc)))])
    case Kubelet(agent, status) => s.(store := WithStatus(s.store, agent.PodRef(), status))
    case Label(agent, labels) => s.(store := Relabel(s.store, agent.PodRef(), labels, true).0)
  }

  function Exec(s: System, schedule: seq<Action>): System
    decreases |schedule|
  {
    if schedule == [] then s else Act(Exec(s, schedule[..|schedule| - 1]), schedule[|schedule| - 1])
  }

  /** Everything about one agent: its pod, its config map and its requests. */
  datatype View = View(pod: Option<Pod>, configMap: Option<ConfigMap>, desk: Desk)

  function ViewOf(s: System, agent: Agent): View {
    View(PodAt(s.store, agent.ns, AgentName(agent.id)), ConfigMapAt(s.store, agent.ns, AgentName(agent.id)),
         DeskOf(s, agent))
  }

  /** The schedule with only one agent's actions left in it. */
  function Only(schedule: seq<Action>, agent: Agent): seq<Action>
    decreases |schedule|
  {
    if schedule == [] then []
    else
      var last := schedule[|schedule| - 1];
      Only(schedule[..|schedule| - 1], agent) + if last.agent == agent then [last] else []
  }

  lemma AgentRefsDiffer(a: Agent, b: Agent)
    requires a != b
    ensures a.PodRef() != b.PodRef() && a.ConfigMapRef() != b.ConfigMapRef()
  {
    NamesInjective();
  }

  /** A step reads and writes nothing but its agent's pod and config map. */
  lemma StepIsLocal(m: Store, n: Store, agent: Agent, task: Task, pc: Pc, served: bool)
    requires PodAt(m, agent.ns, AgentName(agent.id)) == PodAt(n, agent.ns, AgentName(agent.id))
    requires ConfigMapAt(m, agent.ns, AgentName(agent.id)) == ConfigMapAt(n, agent.ns, AgentName(agent.id))
    ensures var ((m', pcM), (n', pcN)) := (Step(m, agent, task, pc, served), Step(n, agent, task, pc, served));
            && pcM == pcN
            && PodAt(m', agent.ns, AgentName(agent.id)) == PodAt(n', agent.ns, AgentName(agent.id))
            && ConfigMapAt(m', agent.ns, AgentName(agent.id)) == ConfigMapAt(n', agent.ns, AgentName(agent.id))
  {
    hide EditedConfigMap, Successor;
  }

  lemma StepTouchesOwnObjects(m: Store, agent: Agent, task: Task, pc: Pc, served: bool, r: Ref)
    requires r != agent.PodRef() && r != agent.ConfigMapRef()
    ensures var (m', _) := Step(m, agent, task, pc, served);
            (r in m' <==> r in m) && (r in m ==> m'[r] == m[r])
  {
    hide EditedConfigMap, Successor;
  }

  lemma ActTouchesOwnObjects(s: System, a: Action, r: Ref)
    requires r != a.agent.PodRef() && r != a.agent.ConfigMapRef()
    ensures r in Act(s, a).store <==> r in s.store
    ensures r in s.store ==> Act(s, a).store[r] == s.store[r]
  {
    hide Step;
    if a.Advance? && DeskOf(s, a.agent).current.Some? {
      var run := DeskOf(s, a.agent).current.value;
      StepTouchesOwnObjects(s.store, a.agent, run.task, run.pc, a.served, r);
    }
  }

  /** An agent's own action depends on nothing but its view; another agent's action leaves the view alone. */
  lemma ActIsLocal(s: System, t: System, a: Action, agent: Agent)
    requires ViewOf(s, agent) == ViewOf(t, agent)
    ensures a.agent == agent ==> ViewOf(Act(s, a), agent) == ViewOf(Act(t, a), agent)
    ensures a.agent != agent ==> ViewOf(Act(s, a), agent) == ViewOf(s, agent)
  {
    hide Step;
    if a.agent != agent {
      AgentRefsDiffer(a.agent, agent);
      ActTouchesOwnObjects(s, a, agent.PodRef());
      ActTouchesOwnObjects(s, a, agent.ConfigMapRef());
    } else if a.Advance? && DeskOf(s, agent).current.Some? {
      var run := DeskOf(s, agent).current.value;
      StepIsLocal(s.store, t.store, agent, run.task, run.pc, a.served);
    }
  }

  /** Non-interference: under every schedule, with calls refused anywhere, each agent's pod, config
      map and reports are what they would be if only its own actions had happened. */
  lemma {:induction false} NonInterference(s: System, schedule: seq<Action>, agent: Agent)
    ensures ViewOf(Exec(s, schedule), agent) == ViewOf(Exec(s, Only(schedule, agent)), agent)
    decreases |schedule|
  {
    if schedule != [] {
      var front, last := schedule[..|schedule| - 1], schedule[|schedule| - 1];
      NonInterference(s, front, agent);
      ActIsLocal(Exec(s, front), Exec(s, Only(front, agent)), last, agent);
      if last.agent == agent {
        assert Only(schedule, agent)[..|Only(front, agent)|] == Only(front, agent);
      } else {
        assert Only(schedule, agent) == Only(front, agent);
      }
    }
  }

  /** No run touches an object that is not the pod or config map of an agent in the schedule. */
  lemma {:induction false} OnlyOwnObjects(s: System, schedule: seq<Action>, r: Ref)
    requires forall a | a in schedule :: r != a.agent.PodRef() && r != a.agent.ConfigMapRef()
    ensures r in Exec(s, schedule).store <==> r in s.store
    ensures r in s.store ==> Exec(s, schedule).store[r] == s.store[r]
    decreases |schedule|
  {
    if schedule != [] {
      var front, last := schedule[..|schedule| - 1], schedule[|schedule| - 1];
      OnlyOwnObjects(s, front, r);
      assert last in schedule;
      ActTouchesOwnObjects(Exec(s, front), last, r);
    }
  }

  // ---- A run alone ----

  /** One run with nobody else acting: call `n` is answered by `served(n)`, the wait by `ready`.
      Gives the final store, whether the run succeeded, and the number of calls made. */
  function Alone(m: Store, agent: Agent, task: Task, pc: Pc, served: nat -> bool, n: nat, ready: bool)
    : (Store, bool, nat)
    decreases Rank(pc)
  {
    if pc.Finished? then (m, pc.ok, n)
    else if pc.AwaitReady? then (m, ready, n)
    else
      var (m', pc') := Step(m, agent, task, pc, served(n));
      Alone(m', agent, task, pc', served, n + 1, ready)
  }

  function Rank(pc: Pc): nat {
    match pc
    case GetPod => 7
    case GetConfigMap(_) => 6
    case UpdateConfigMap(_, _) => 5
    case DeletePod(_) => 4
    case CreatePod(_) => 3
    case OpenWatch => 2
    case AwaitReady => 1
    case Finished(_) => 0
  }

  // ---- Crash states ----

  /** How far a run got: no write, the config map updated, the pod deleted, the pod created again. */
  datatype Stage = Untouched | Recorded | Dropped | Rebuilt

  /** A run can get past its reads only with a pod, and a config map whose settings decode. */
  ghost predicate Workable(m: Store, agent: Agent, task: Task) {
    && agent.PodRef() in m
    && agent.ConfigMapRef() in m
    && KindOf(m[agent.ConfigMapRef()]) == ConfigMapKind
    && EditedConfigMap(m[agent.ConfigMapRef()].configMap, task).Some?
  }

  /** The store with exactly the writes up to a stage: (old, old), (new, old), (new, absent) or (new, new). */
  ghost function AtStage(m: Store, agent: Agent, task: Task, stage: Stage): Store
    requires Workable(m, agent, task)
  {
    var recorded: Store := m[agent.ConfigMapRef() :=
      ConfigMapObject(EditedConfigMap(m[agent.ConfigMapRef()].configMap, task).value)];
    match stage
    case Untouched => m
    case Recorded => recorded
    case Dropped => recorded - {agent.PodRef()}
    case Rebuilt => recorded[agent.PodRef() := PodObject(Successor(m[agent.PodRef()].pod, task))]
  }

  /** The stage decided by the first refused call among the five that matter. */
  ghost function StageReached(served: nat -> bool, n: nat): Stage {
    if !served(n) || !served(n + 1) || !served(n + 2) then Untouched
    else if !served(n + 3) then Recorded
    else if !served(n + 4) then Dropped
    else Rebuilt
  }

  /** Every run alone, whatever is refused, ends in one of the four crash states, the one decided by
      the first refused call, and reports success only in the last of them. A run that cannot work
      changes nothing and fails. */
  lemma CrashStates(m: Store, agent: Agent, task: Task, served: nat -> bool, n: nat, ready: bool)
    ensures var (m', ok, _) := Alone(m, agent, task, GetPod, served, n, ready);
            if Workable(m, agent, task) then
              && m' == AtStage(m, agent, task, StageReached(served, n))
              && (ok <==> StageReached(served, n) == Rebuilt && served(n + 5) && ready)
            else m' == m && !ok
  {
    AloneStep(m, agent, task, GetPod, served, n, ready);
    if served(n) && agent.PodRef() in m {
      FromGetConfigMap(m, agent, task, m[agent.PodRef()].pod, served, n + 1, ready);
    }
  }

  lemma FromGetConfigMap(m: Store, agent: Agent, task: Task, read: Pod, served: nat -> bool, n: nat, ready: bool)
    requires agent.PodRef() in m && read == m[agent.PodRef()].pod
    ensures var (m', ok, _) := Alone(m, agent, task, GetConfigMap(read), served, n, ready);
            if served(n) && served(n + 1) && Workable(m, agent, task) then
              && m' == AtStage(m, agent, task,
                               if !served(n + 2) then Recorded else if !served(n + 3) then Dropped else Rebuilt)
              && (ok <==> served(n + 2) && served(n + 3) && served(n + 4) && ready)
            else m' == m && !ok
  {
    hide EditedConfigMap, Successor, Alone;
    AloneStep(m, agent, task, GetConfigMap(read), served, n, ready);
    if served(n) && Workable(m, agent, task) {
      FromUpdate(m, agent, task, read, EditedConfigMap(m[agent.ConfigMapRef()].configMap, task).value, served,
                 n + 1, ready);
    }
  }

  lemma FromUpdate(m: Store, agent: Agent, task: Task, read: Pod, edited: ConfigMap, served: nat -> bool, n: nat,
                   ready: bool)
    requires agent.PodRef() in m && agent.ConfigMapRef() in m
    ensures var (m', ok, _) := Alone(m, agent, task, UpdateConfigMap(read, edited), served, n, ready);
            var recorded: Store := m[agent.ConfigMapRef() := ConfigMapObject(edited)];
            && m' == (if !served(n) then m
                      else if !served(n + 1) then recorded
                      else if !served(n + 2) then recorded - {agent.PodRef()}
                      else recorded[agent.PodRef() := PodObject(Successor(read, task))])
            && (ok <==> served(n) && served(n + 1) && served(n + 2) && served(n + 3) && ready)
  {
    AloneStep(m, agent, task, UpdateConfigMap(read, edited), served, n, ready);
    if served(n) {
      var recorded: Store := m[agent.ConfigMapRef() := ConfigMapObject(edited)];
      FromDelete(recorded, agent, task, Successor(read, task), served, n + 1, ready);
    }
  }

  /** One step of a run alone: on to the next counter, or stopped with one more call made. */
  lemma AloneStep(m: Store, agent: Agent, task: Task, pc: Pc, served: nat -> bool, n: nat, ready: bool)
    requires !pc.Finished? && !pc.AwaitReady?
    ensures var (m', pc') := Step(m, agent, task, pc, served(n));
            Alone(m, agent, task, pc, served, n, ready) ==
            if pc'.Finished? then (m', pc'.ok, n + 1) else Alone(m', agent, task, pc', served, n + 1, ready)
  {
  }

  /** A run alone depends only on the answers to the calls it makes. */
  lemma {:induction false} AloneByItsCalls(m: Store, agent: Agent, task: Task, pc: Pc, served: nat -> bool,
                                           others: nat -> bool, n: nat, ready: bool)
    requires forall i | n <= i < Alone(m, agent, task, pc, served, n, ready).2 :: served(i) == others(i)
    ensures Alone(m, agent, task, pc, others, n, ready) == Alone(m, agent, task, pc, served, n, ready)
    decreases Rank(pc)
  {
    if !pc.Finished? && !pc.AwaitReady? {
      hide Step;
      var (m', pc') := Step(m, agent, task, pc, served(n));
      StepGoesOn(m, agent, task, pc, served(n));
      LaterCalls(m', agent, task, pc', served, n + 1, ready);
      AloneByItsCalls(m', agent, task, pc', served, others, n + 1, ready);
    }
  }

  lemma {:induction false} LaterCalls(m: Store, agent: Agent, task: Task, pc: Pc, served: nat -> bool, n: nat,
                                      ready: bool)
    ensures Alone(m, agent, task, pc, served, n, ready).2 >= n
    decreases Rank(pc)
  {
    if !pc.Finished? && !pc.AwaitReady? {
      hide Step;
      var (m', pc') := Step(m, agent, task, pc, served(n));
      StepGoesOn(m, agent, task, pc, served(n));
      LaterCalls(m', agent, task, pc', served, n + 1, ready);
    }
  }

  lemma FirstCall(m: Store, agent: Agent, task: Task, served: nat -> bool, n: nat, ready: bool)
    ensures Alone(m, agent, task, GetPod, served, n, ready).2 > n
  {
    hide Step;
    AloneStep(m, agent, task, GetPod, served, n, ready);
    var (m', pc') := Step(m, agent, task, GetPod, served(n));
    LaterCalls(m', agent, task, pc', served, n + 1, ready);
  }

  /** With none of its calls refused, a run that can work succeeds exactly when the wait does. */
  lemma CalmRun(m: Store, agent: Agent, task: Task, served: nat -> bool, n: nat, ready: bool)
    requires Workable(m, agent, task)
    requires forall i | n <= i < Alone(m, agent, task, GetPod, served, n, ready).2 :: served(i)
    ensures Alone(m, agent, task, GetPod, served, n, ready).1 <==> ready
  {
    hide Alone, Workable, AtStage;
    var always: nat -> bool := _ => true;
    AloneByItsCalls(m, agent, task, GetPod, served, always, n, ready);
    CrashStates(m, agent, task, always, n, ready);
  }

  /** The second half of a run: delete the pod, create its successor, wait. */
  lemma FromDelete(m: Store, agent: Agent, task: Task, next: Pod, served: nat -> bool, n: nat, ready: bool)
    requires agent.PodRef() in m
    ensures var (m', ok, _) := Alone(m, agent, task, DeletePod(next), served, n, ready);
            && m' == (if !served(n) then m
                      else if !served(n + 1) then m - {agent.PodRef()}
                      else m[agent.PodRef() := PodObject(next)])
            && (ok <==> served(n) && served(n + 1) && served(n + 2) && ready)
  {
    AloneStep(m, agent, task, DeletePod(next), served, n, ready);
    if served(n) {
      var dropped: Store := m - {agent.PodRef()};
      AloneStep(dropped, agent, task, CreatePod(next), served, n + 1, ready);
      if served(n + 1) {
        var rebuilt: Store := dropped[agent.PodRef() := PodObject(next)];
        assert rebuilt == m[agent.PodRef() := PodObject(next)];
        AloneStep(rebuilt, agent, task, OpenWatch, served, n + 2, ready);
      }
    }
  }

  // ---- A run alone is a run of the system ----

  /** The actions a run alone takes. */
  function AloneSchedule(m: Store, agent: Agent, task: Task, pc: Pc, served: nat -> bool, n: nat,
                         ready: bool): seq<Action>
    decreases Rank(pc)
  {
    if pc.Finished? then []
    else if pc.AwaitReady? then [Advance(agent, ready)]
    else
      var (m', pc') := Step(m, agent, task, pc, served(n));
      [Advance(agent, served(n))] + AloneSchedule(m', agent, task, pc', served, n + 1, ready)
  }

  lemma StepGoesOn(m: Store, agent: Agent, task: Task, pc: Pc, served: bool)
    requires !pc.Finished?
    ensures Rank(Step(m, agent, task, pc, served).1) < Rank(pc)
    ensures pc.AwaitReady? ==> Step(m, agent, task, pc, served) == (m, Finished(served))
  {
    hide EditedConfigMap, Successor;
  }

  /** A run alone is what the system does on the schedule of that run: same store, same report. */
  lemma {:induction false} AloneIsASchedule(s: System, agent: Agent, task: Task, pc: Pc, served: nat -> bool, n: nat,
                                            ready: bool)
    requires !pc.Finished? && DeskOf(s, agent).current == Some(Run(task, pc))
    ensures var (m, ok, _) := Alone(s.store, agent, task, pc, served, n, ready);
            var after := Exec(s, AloneSchedule(s.store, agent, task, pc, served, n, ready));
            && after.store == m
            && DeskOf(after, agent) == Desk(DeskOf(s, agent).past + [Report(task, ok)], None)
    decreases Rank(pc)
  {
    hide Step;
    var flag := if pc.AwaitReady? then ready else served(n);
    var (m', pc') := Step(s.store, agent, task, pc, flag);
    var first := Advance(agent, flag);
    var s' := Act(s, first);
    StepGoesOn(s.store, agent, task, pc, flag);
    assert Exec(s, [first]) == s' by { assert Exec(s, []) == s; }
    if !pc'.Finished? {
      var rest := AloneSchedule(m', agent, task, pc', served, n + 1, ready);
      AloneIsASchedule(s', agent, task, pc', served, n + 1, ready);
      ExecConcat(s, [first], rest);
    } else if !pc.AwaitReady? {
      assert [first] + [] == [first];
    }
  }

  lemma {:induction false} ExecConcat(s: System, front: seq<Action>, back: seq<Action>)
    ensures Exec(s, front + back) == Exec(Exec(s, front), back)
    decreases |back|
  {
    if back == [] {
      assert front + back == front;
    } else {
      assert (front + back)[..|front + back| - 1] == front + back[..|back| - 1];
      ExecConcat(s, front, back[..|back| - 1]);
    }
  }
}
