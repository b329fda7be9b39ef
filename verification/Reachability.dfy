/** Every operation of the program as its single API calls, in any interleaving, and the label index in every
    cluster these calls can reach. */
module Reachability {
  import opened Basics
  import opened Names
  import opened Selectors
  import opened PodSpecs
  import opened Cluster
  import opened Recreate
  import opened Disks
  import opened Lookups
  import opened Carried
  import opened Attachments
  import Plans
  import Requests
  import CreateVM
  import DeleteVM
  import Metadata

  // ---- The calls ----

  /** What a metadata setter in flight has read and is going to write. */
  datatype Job =
    | VMJob(agent: Agent, rules: Metadata.Rules, metadata: map<string, string>, labels: map<string, string>)
    | DiskJob(ns: string, disk: string, rules: Metadata.Rules, metadata: map<string, string>, claim: Claim)

  datatype World = World(system: System, jobs: map<nat, Job>)

  /** One call of one operation, served; a refused call changes nothing. Attach and detach move by their own
      actions. A creation may take any step of its plan at any time and a deletion may delete anything, which
      allows more than the programs do. */
  datatype Move =
    | Protocol(action: Action)
    | CreateStep(ns: string, config: Requests.AgentConfig, req: Requests.Request, ip: string,
                 outside: Requests.Outside, step: nat)
    | CreateClaim(ns: string, disk: string, diskReq: DiskRequest)
    | DeleteCall(ref: Ref)
    | ReadPod(job: nat, agent: Agent, rules: Metadata.Rules, metadata: map<string, string>)
    | PatchPod(job: nat, order: seq<string>)
    | ReadClaim(job: nat, ns: string, disk: string, rules: Metadata.Rules, metadata: map<string, string>)
    | UpdateClaim(job: nat)

  function StoreIn(w: World): Store { w.system.store }

  function With(w: World, m: Store): World { w.(system := w.system.(store := m)) }

  ghost function Go(w: World, move: Move): World {
    var m := StoreIn(w);
    match move
    case Protocol(action) => w.(system := Act(w.system, action))
    case CreateStep(ns, config, req, ip, outside, step) =>
      var plan := CreateVM.CreationPlan(ns, config, req, ip, outside);
      if step < |plan| then With(w, Plans.Placed(m, plan[step])) else w
    case CreateClaim(ns, disk, diskReq) =>
      With(w, Insert(m, ClaimRef(ns, disk), ClaimObject(NewClaim(diskReq, disk)), true).0)
    case DeleteCall(r) => With(w, Erase(m, r, true).0)
    case ReadPod(job, agent, rules, metadata) =>
      if agent.PodRef() !in m then w
      else w.(jobs := w.jobs[job := VMJob(agent, rules, metadata, m[agent.PodRef()].pod.labels)])
    case PatchPod(job, order) =>
      if job !in w.jobs || !w.jobs[job].VMJob? || !Metadata.IsOrder(order, w.jobs[job].metadata) then w
      else w.(system := Act(w.system, Label(w.jobs[job].agent, PatchOf(w.jobs[job], order))))
    case ReadClaim(job, ns, disk, rules, metadata) =>
      if ClaimRef(ns, disk) !in m then w
      else w.(jobs := w.jobs[job := DiskJob(ns, disk, rules, metadata, m[ClaimRef(ns, disk)].claim)])
    case UpdateClaim(job) =>
      if job !in w.jobs || !w.jobs[job].DiskJob?
         || !Metadata.AllValidForDisk(w.jobs[job].rules, w.jobs[job].metadata) then w
      else With(w, Replace(m, ClaimRef(w.jobs[job].ns, w.jobs[job].disk), ClaimObject(UpdateOf(w.jobs[job])), true).0)
  }

  /** The labels a VM setter patches: those in which its merge differs from what it read. */
  ghost function PatchOf(job: Job, order: seq<string>): map<string, string>
    requires job.VMJob? && Metadata.IsOrder(order, job.metadata)
  {
    Metadata.Changed(job.labels, Metadata.MergeInOrder(job.rules, job.labels, job.metadata, order))
  }

  /** The claim a disk setter writes: the one it read, with the merged labels. */
  function UpdateOf(job: Job): Claim
    requires job.DiskJob?
  {
    job.claim.(labels := Metadata.DiskMerged(job.claim.labels, job.metadata))
  }

  ghost function Run(w: World, moves: seq<Move>): World
    decreases |moves|
  {
    if moves == [] then w else Go(Run(w, moves[..|moves| - 1]), moves[|moves| - 1])
  }

  // ---- The index, kept by every call ----

  /** The requests give no identifying label another value. */
  ghost predicate KeepsIdentity(move: Move) {
    match move
    case Protocol(Label(agent, labels)) => AGENT_LABEL in labels ==> labels[AGENT_LABEL] == agent.id
    case ReadPod(_, agent, rules, metadata) => KeepsAgentLabel(rules, metadata, agent.id)
    case ReadClaim(_, _, disk, rules, metadata) => KeepsDiskLabel(rules, metadata, disk)
    case _ => true
  }

  ghost predicate SoundJob(job: Job) {
    match job
    case VMJob(agent, rules, metadata, labels) =>
      AGENT_LABEL in labels && labels[AGENT_LABEL] == agent.id && KeepsAgentLabel(rules, metadata, agent.id)
    case DiskJob(ns, disk, rules, metadata, claim) =>
      DISK_LABEL in claim.labels && claim.labels[DISK_LABEL] == disk && KeepsDiskLabel(rules, metadata, disk)
  }

  ghost predicate SoundDesk(agent: Agent, desk: Desk) {
    desk.current.Some? ==> RunCarries(desk.current.value.pc, LabelIs(AGENT_LABEL, agent.id))
  }

  /** The index holds of what is stored, and of every copy an operation in flight has read. An empty cluster with
      nothing in flight is sound. */
  ghost predicate Sound(w: World) {
    && LabelIndex(StoreIn(w))
    && (forall agent | agent in w.system.desks :: SoundDesk(agent, w.system.desks[agent]))
    && (forall job | job in w.jobs :: SoundJob(w.jobs[job]))
  }

  lemma ClaimIndexed(r: Ref, claim: Claim, disk: string)
    requires r.kind == ClaimKind && r.name == DiskName(disk)
    requires DISK_LABEL in claim.labels && claim.labels[DISK_LABEL] == disk
    ensures Indexed(r, ClaimObject(claim))
  {
    NamesInjective();
  }

  lemma IndexedClaim(m: Store, ns: string, disk: string)
    requires LabelIndex(m) && ClaimRef(ns, disk) in m
    ensures HasLabel(m[ClaimRef(ns, disk)], DISK_LABEL, disk)
  {
    assert Indexed(ClaimRef(ns, disk), m[ClaimRef(ns, disk)]);
  }

  lemma PodIndexed(r: Ref, pod: Pod, id: string)
    requires r.kind == PodKind && r.name == AgentName(id)
    requires AGENT_LABEL in pod.labels && pod.labels[AGENT_LABEL] == id
    ensures Indexed(r, PodObject(pod))
  {
    NamesInjective();
  }

  /** An action of the protocol keeps the index: the pod of its agent keeps its label, stored or in flight,
      and nothing else that is indexed changes. */
  lemma ActionKeepsIndex(w: World, a: Action)
    requires Sound(w) && KeepsIdentity(Protocol(a))
    ensures Sound(w.(system := Act(w.system, a)))
  {
    hide Act, RunCarries, Indexed, LabelIs;
    var s, s', good := w.system, Act(w.system, a), LabelIs(AGENT_LABEL, a.agent.id);
    LabelSurvives(a, a.agent);
    ViewIsSound(w, a.agent);
    ActCarries(s, a, a.agent, good);
    forall r | r in s'.store ensures Indexed(r, s'.store[r]) {
      if r == a.agent.PodRef() {
        LabelledPod(s'.store, a.agent);
      } else if r == a.agent.ConfigMapRef() {
        assert Indexed(r, s'.store[r]) by { NotIndexed(r, s'.store[r]); }
      } else {
        ActTouchesOwnObjects(s, a, r);
      }
    }
    OtherDesksStay(s, a);
  }

  lemma NotIndexed(r: Ref, o: Object)
    requires r.kind != PodKind && r.kind != ClaimKind
    ensures Indexed(r, o)
  {
  }

  lemma LabelSurvives(a: Action, agent: Agent)
    requires KeepsIdentity(Protocol(a)) && a.agent == agent
    ensures SurvivesPinning(LabelIs(AGENT_LABEL, agent.id))
    ensures SurvivesAction(LabelIs(AGENT_LABEL, agent.id), a, agent)
  {
  }

  lemma ViewIsSound(w: World, agent: Agent)
    requires Sound(w)
    ensures AllCarry(ViewOf(w.system, agent), LabelIs(AGENT_LABEL, agent.id))
  {
    if agent.PodRef() in StoreIn(w) {
      IndexedPod(StoreIn(w), agent.ns, agent.id);
    }
  }

  lemma LabelledPod(m: Store, agent: Agent)
    requires PodCarries(PodIn(m, agent), LabelIs(AGENT_LABEL, agent.id)) && agent.PodRef() in m
    ensures Indexed(agent.PodRef(), m[agent.PodRef()])
  {
    PodIndexed(agent.PodRef(), m[agent.PodRef()].pod, agent.id);
  }

  lemma OtherDesksStay(s: System, a: Action)
    ensures forall agent | agent in Act(s, a).desks && agent != a.agent ::
              agent in s.desks && Act(s, a).desks[agent] == s.desks[agent]
  {
    hide Step;
  }

  lemma StoreKeepsSound(w: World, m: Store)
    requires Sound(w) && LabelIndex(m)
    ensures Sound(With(w, m))
  {
  }

  lemma ChangeKeepsSound(w: World, m: Store, r: Ref)
    requires Sound(w) && r in m && Indexed(r, m[r])
    requires forall q | q in m && q != r :: q in StoreIn(w) && m[q] == StoreIn(w)[q]
    ensures Sound(With(w, m))
  {
    hide Indexed;
    OneChange(StoreIn(w), m, r);
    StoreKeepsSound(w, m);
  }

  lemma MoveKeepsIndex(w: World, move: Move)
    requires Sound(w) && KeepsIdentity(move)
    ensures Sound(Go(w, move))
  {
    hide Act, CreateVM.CreationPlan, Indexed, LabelIndex, SoundJob, SoundDesk, Metadata.MergeInOrder;
    var m := StoreIn(w);
    match move {
      case Protocol(a) => ActionKeepsIndex(w, a);
      case CreateStep(_, _, _, _, _, _) => CreateStepKeepsIndex(w, move);
      case CreateClaim(ns, disk, diskReq) =>
        if ClaimRef(ns, disk) !in m {
          ClaimIndexed(ClaimRef(ns, disk), NewClaim(diskReq, disk), disk);
          ChangeKeepsSound(w, StoreIn(Go(w, move)), ClaimRef(ns, disk));
        }
      case DeleteCall(r) => ErasureKeepsIndex(w, r);
      case ReadPod(job, agent, rules, metadata) => ReadPodKeepsIndex(w, move);
      case PatchPod(job, order) => PatchKeepsIndex(w, job, order);
      case ReadClaim(job, ns, disk, rules, metadata) => ReadClaimKeepsIndex(w, move);
      case UpdateClaim(job) => UpdateKeepsIndex(w, job);
    }
  }

  lemma CreateStepKeepsIndex(w: World, move: Move)
    requires Sound(w) && move.CreateStep?
    ensures Sound(Go(w, move))
  {
    hide CreateVM.CreationPlan, Indexed, LabelIndex, SoundJob, SoundDesk;
    var plan := CreateVM.CreationPlan(move.ns, move.config, move.req, move.ip, move.outside);
    PlannedIndexed(move.ns, move.config, move.req, move.ip, move.outside);
    if move.step < |plan| && plan[move.step].Planned? && plan[move.step].ref !in StoreIn(w) {
      assert plan[move.step] in plan;
      ChangeKeepsSound(w, StoreIn(Go(w, move)), plan[move.step].ref);
    }
  }

  lemma ErasureKeepsIndex(w: World, r: Ref)
    requires Sound(w)
    ensures Sound(Go(w, DeleteCall(r)))
  {
    hide Indexed, SoundJob, SoundDesk;
  }

  lemma ReadPodKeepsIndex(w: World, move: Move)
    requires Sound(w) && move.ReadPod? && KeepsIdentity(move)
    ensures Sound(Go(w, move))
  {
    hide Indexed, LabelIndex, SoundDesk;
    if move.agent.PodRef() in StoreIn(w) {
      IndexedPod(StoreIn(w), move.agent.ns, move.agent.id);
    }
  }

  lemma ReadClaimKeepsIndex(w: World, move: Move)
    requires Sound(w) && move.ReadClaim? && KeepsIdentity(move)
    ensures Sound(Go(w, move))
  {
    hide Indexed, LabelIndex, SoundDesk;
    if ClaimRef(move.ns, move.disk) in StoreIn(w) {
      IndexedClaim(StoreIn(w), move.ns, move.disk);
    }
  }

  /** What a VM setter read may be old by the time it patches; the patch still leaves the agent's label alone. */
  lemma PatchKeepsIndex(w: World, job: nat, order: seq<string>)
    requires Sound(w)
    ensures Sound(Go(w, PatchPod(job, order)))
  {
    hide Act, LabelIndex, Indexed, SoundDesk, Metadata.MergeInOrder, KeepsAgentLabel;
    if job in w.jobs && w.jobs[job].VMJob? && Metadata.IsOrder(order, w.jobs[job].metadata) {
      var j := w.jobs[job];
      assert SoundJob(j);
      MergeKeepsIdentity(j.rules, j.labels, j.metadata, order, j.agent.id);
      ActionKeepsIndex(w, Label(j.agent, PatchOf(j, order)));
    }
  }

  lemma UpdateKeepsIndex(w: World, job: nat)
    requires Sound(w)
    ensures Sound(Go(w, UpdateClaim(job)))
  {
    hide LabelIndex, Indexed, SoundDesk, Metadata.DiskMerged;
    if job in w.jobs && w.jobs[job].DiskJob? && Metadata.AllValidForDisk(w.jobs[job].rules, w.jobs[job].metadata) {
      var j, m' := w.jobs[job], StoreIn(Go(w, UpdateClaim(job)));
      var r := ClaimRef(j.ns, j.disk);
      assert SoundJob(j);
      Metadata.DiskIdentity(j.claim.labels, j.metadata, j.disk);
      if r in StoreIn(w) {
        ClaimIndexed(r, UpdateOf(j), j.disk);
        ChangeKeepsSound(w, m', r);
      }
    }
  }

  lemma PlannedIndexed(ns: string, config: Requests.AgentConfig, req: Requests.Request, ip: string,
                       outside: Requests.Outside)
    ensures forall p | p in CreateVM.CreationPlan(ns, config, req, ip, outside) ::
              p.Planned? ==> Indexed(p.ref, p.object_)
  {
    var last := CreateVM.PlannedWorkload(ns, req, ip, outside);
    WorkloadIndexed(ns, req, ip, outside);
    SupportHasNoPods(ns, config, req, outside);
    hide CreateVM.PlannedWorkload, CreateVM.SupportPlan, Indexed;
    forall p | p in CreateVM.CreationPlan(ns, config, req, ip, outside) && p.Planned?
      ensures Indexed(p.ref, p.object_)
    {
      assert p == last || p in CreateVM.SupportPlan(ns, config, req, outside);
    }
  }

  lemma WorkloadIndexed(ns: string, req: Requests.Request, ip: string, outside: Requests.Outside)
    ensures var p := CreateVM.PlannedWorkload(ns, req, ip, outside); p.Planned? ==> Indexed(p.ref, p.object_)
  {
    NamesInjective();
  }

  lemma SupportHasNoPods(ns: string, config: Requests.AgentConfig, req: Requests.Request, outside: Requests.Outside)
    ensures forall p | p in CreateVM.SupportPlan(ns, config, req, outside) :: p.Planned? ==> Indexed(p.ref, p.object_)
  {
    hide CreateVM.ServiceOf, CreateVM.PayloadOf, CreateVM.AgentConfigMap;
    forall p | p in CreateVM.SupportPlan(ns, config, req, outside) && p.Planned? ensures Indexed(p.ref, p.object_) {
      assert p.ref.kind != PodKind && p.ref.kind != ClaimKind;
    }
  }

  /** The label index holds in every cluster that any interleaving of API calls can reach, calls of attach,
      detach, create, delete and the metadata setters among them, each run possibly cut short anywhere, as long
      as no request gives an identifying label another value. So HasVM and HasDisk answer by label what is
      there by name, in mid-run as well. */
  lemma {:induction false} IndexInEveryReachableCluster(w: World, moves: seq<Move>, ns: string, id: string)
    requires Sound(w) && forall move | move in moves :: KeepsIdentity(move)
    ensures Sound(Run(w, moves))
    ensures IsLabelValue(id) ==>
              var m := StoreIn(Run(w, moves));
              && (HasVMIn(m, ns, id) <==> Ref(PodKind, ns, AgentName(id)) in m)
              && (HasDiskIn(m, ns, id) <==> ClaimRef(ns, id) in m)
    decreases |moves|
  {
    hide Go, KeepsIdentity, HasVMIn, HasDiskIn, Indexed, SoundJob, SoundDesk, IsLabelValue;
    if moves != [] {
      var front, last := moves[..|moves| - 1], moves[|moves| - 1];
      assert last in moves && forall move | move in front :: move in moves;
      IndexInEveryReachableCluster(w, front, ns, id);
      MoveKeepsIndex(Run(w, front), last);
    }
    if IsLabelValue(id) {
      LabelsAgreeWithNames(StoreIn(Run(w, moves)), ns, id);
    }
  }

  // ---- GetDisks in every reachable cluster ----

  /** The call does not create or delete the agent's own pod or config map. */
  ghost predicate Spares(move: Move, agent: Agent) {
    match move
    case DeleteCall(r) => r != agent.PodRef() && r != agent.ConfigMapRef()
    case CreateStep(ns, _, req, _, _, _) => !(ns == agent.ns && req.agentId == agent.id)
    case _ => true
  }

  lemma PlannedNames(ns: string, config: Requests.AgentConfig, req: Requests.Request, ip: string,
                     outside: Requests.Outside)
    ensures forall p | p in CreateVM.CreationPlan(ns, config, req, ip, outside) && p.Planned? ::
              p.ref.kind == PodKind || p.ref.kind == ConfigMapKind ==>
                p.ref.ns == ns && p.ref.name == AgentName(req.agentId)
  {
    hide CreateVM.ServiceOf, CreateVM.PayloadOf, CreateVM.AgentConfigMap, CreateVM.ResourcesOf, CreateVM.BaseSpec;
  }

  lemma SparedView(w: World, move: Move, agent: Agent)
    requires Spares(move, agent) && !move.Protocol? && !move.PatchPod?
    ensures ViewOf(Go(w, move).system, agent) == ViewOf(w.system, agent)
  {
    hide CreateVM.CreationPlan, Metadata.DiskMerged, Metadata.AllValidForDisk;
    NamesInjective();
    if move.CreateStep? {
      PlannedNames(move.ns, move.config, move.req, move.ip, move.outside);
      var plan := CreateVM.CreationPlan(move.ns, move.config, move.req, move.ip, move.outside);
      assert move.step < |plan| ==> plan[move.step] in plan;
    }
  }

  lemma MoveKeepsAccount(profile: Profile, w: World, move: Move, agent: Agent)
    requires Plain(profile.base) && Spares(move, agent) && Accounted(profile, ViewOf(w.system, agent))
    ensures Accounted(profile, ViewOf(Go(w, move).system, agent))
  {
    hide Act, Tracks, Metadata.MergeInOrder;
    var log :| Tracks(profile, log, ViewOf(w.system, agent));
    if move.Protocol? {
      ActionKeepsTrack(profile, log, w.system, agent, move.action);
    } else if move.PatchPod? {
      var job := if move.job in w.jobs then Some(w.jobs[move.job]) else None;
      if job.Some? && job.value.VMJob? && Metadata.IsOrder(move.order, job.value.metadata) {
        ActionKeepsTrack(profile, log, w.system, agent, Label(job.value.agent, PatchOf(job.value, move.order)));
      }
    } else {
      hide Go;
      SparedView(w, move, agent);
    }
  }

  lemma {:induction false} RunKeepsAccount(profile: Profile, w: World, moves: seq<Move>, agent: Agent)
    requires Plain(profile.base) && Accounted(profile, ViewOf(w.system, agent))
    requires forall move | move in moves :: Spares(move, agent)
    ensures Accounted(profile, ViewOf(Run(w, moves).system, agent))
    decreases |moves|
  {
    hide Go, Accounted, Spares;
    if moves != [] {
      var front, last := moves[..|moves| - 1], moves[|moves| - 1];
      assert last in moves && forall move | move in front :: move in moves;
      RunKeepsAccount(profile, w, front, agent);
      MoveKeepsAccount(profile, Run(w, front), last, agent);
    }
  }

  /** GetDisks in every cluster reachable by single calls of all operations, as long as the agent's own pod and
      config map are neither created nor deleted by them and no request changes an identifying label: whenever the
      pod is there some account stands for what is stored, and GetDisks finds, in order, exactly those of the
      account's disks whose claims exist. */
  lemma GetDisksInEveryReachableCluster(profile: Profile, w: World, moves: seq<Move>, agent: Agent,
                                        provider: Provider, asked: string)
    requires Plain(profile.base) && NoClaims(profile.base) && Accounted(profile, ViewOf(w.system, agent)) && Sound(w)
    requires forall move | move in moves :: KeepsIdentity(move) && Spares(move, agent)
    requires agent.PodRef() in StoreIn(Run(w, moves))
    ensures FindsStanding(profile, ViewOf(Run(w, moves).system, agent), agent, StoreIn(Run(w, moves)), provider, asked)
  {
    hide Run, FindsStanding, Accounted, KeepsIdentity, Spares;
    IndexInEveryReachableCluster(w, moves, agent.ns, agent.id);
    RunKeepsAccount(profile, w, moves, agent);
    TrackedDisksFound(profile, ViewOf(Run(w, moves).system, agent), agent, StoreIn(Run(w, moves)), provider, asked);
  }

  // ---- The programs make such moves ----

  /** Moves that keep identity lead from the world to this store. */
  ghost predicate Leads(w: World, moves: seq<Move>, m: Store) {
    (forall move | move in moves :: KeepsIdentity(move)) && StoreIn(Run(w, moves)) == m
  }

  lemma RunOne(w: World, move: Move)
    ensures Run(w, [move]) == Go(w, move)
  {
    hide Go;
    assert [move][..0] == [];
    assert Run(w, []) == w;
  }

  lemma {:induction false} RunConcat(w: World, a: seq<Move>, b: seq<Move>)
    ensures Run(w, a + b) == Run(Run(w, a), b)
    decreases |b|
  {
    hide Go;
    if b == [] {
      assert a + b == a;
    } else {
      assert (a + b)[..|a + b| - 1] == a + b[..|b| - 1];
      RunConcat(w, a, b[..|b| - 1]);
    }
  }

  lemma LeadsOne(w: World, move: Move, m: Store)
    requires KeepsIdentity(move) && StoreIn(Go(w, move)) == m
    ensures exists moves :: Leads(w, moves, m)
  {
    hide Go;
    RunOne(w, move);
    assert Leads(w, [move], m);
  }

  lemma LeadsNowhere(w: World)
    ensures exists moves :: Leads(w, moves, StoreIn(w))
  {
    assert Leads(w, [], StoreIn(w));
  }

  lemma LeadsTwo(w: World, first: Move, second: Move, m: Store)
    requires KeepsIdentity(first) && KeepsIdentity(second) && StoreIn(Go(Go(w, first), second)) == m
    ensures exists moves :: Leads(w, moves, m)
  {
    hide Go;
    RunOne(w, first);
    RunOne(Go(w, first), second);
    RunConcat(w, [first], [second]);
    assert Leads(w, [first] + [second], m);
  }

  /** A schedule of the protocol as moves. */
  function Moves(schedule: seq<Action>): seq<Move> {
    seq(|schedule|, i requires 0 <= i < |schedule| => Protocol(schedule[i]))
  }

  lemma {:induction false} ScheduleIsMoves(w: World, schedule: seq<Action>)
    ensures Run(w, Moves(schedule)).system == Exec(w.system, schedule)
    decreases |schedule|
  {
    hide Act;
    if schedule != [] {
      ScheduleIsMoves(w, schedule[..|schedule| - 1]);
      assert Moves(schedule)[..|schedule| - 1] == Moves(schedule[..|schedule| - 1]);
    }
  }

  lemma {:induction false} AloneNeverLabels(m: Store, agent: Agent, task: Task, pc: Pc, served: nat -> bool, n: nat,
                                            ready: bool)
    ensures forall a | a in AloneSchedule(m, agent, task, pc, served, n, ready) :: a.Advance?
    decreases Rank(pc)
  {
    if !pc.Finished? && !pc.AwaitReady? {
      StepGoesOn(m, agent, task, pc, served(n));
      var (m', pc') := Step(m, agent, task, pc, served(n));
      AloneNeverLabels(m', agent, task, pc', served, n + 1, ready);
    }
  }

  /** Attach and detach: a run alone, whatever is refused. */
  lemma RecreateIsMoves(w: World, agent: Agent, task: Task, served: nat -> bool, n: nat, ready: bool)
    requires DeskOf(w.system, agent).current.None?
    ensures exists moves :: Leads(w, moves, Alone(StoreIn(w), agent, task, GetPod, served, n, ready).0)
  {
    hide Alone, AloneSchedule, Exec, Run;
    var begun := Go(w, Protocol(Begin(agent, task)));
    var schedule := AloneSchedule(StoreIn(w), agent, task, GetPod, served, n, ready);
    AloneIsASchedule(begun.system, agent, task, GetPod, served, n, ready);
    AloneNeverLabels(StoreIn(w), agent, task, GetPod, served, n, ready);
    ScheduleIsMoves(begun, schedule);
    RunOne(w, Protocol(Begin(agent, task)));
    RunConcat(w, [Protocol(Begin(agent, task))], Moves(schedule));
    assert forall i | 0 <= i < |schedule| :: schedule[i] in schedule;
    assert Leads(w, [Protocol(Begin(agent, task))] + Moves(schedule),
                 Alone(StoreIn(w), agent, task, GetPod, served, n, ready).0);
  }

  /** The first steps of a creation, each as a move. */
  function CreateSteps(ns: string, config: Requests.AgentConfig, req: Requests.Request, ip: string,
                       outside: Requests.Outside, k: nat): seq<Move>
  {
    seq(k, i requires 0 <= i < k => CreateStep(ns, config, req, ip, outside, i))
  }

  lemma {:induction false} BuiltIsMoves(w: World, ns: string, config: Requests.AgentConfig, req: Requests.Request,
                                        ip: string, outside: Requests.Outside, k: nat)
    requires k <= |CreateVM.CreationPlan(ns, config, req, ip, outside)|
    ensures Run(w, CreateSteps(ns, config, req, ip, outside, k))
         == With(w, Plans.Built(StoreIn(w), CreateVM.CreationPlan(ns, config, req, ip, outside)[..k]))
    decreases k
  {
    hide CreateVM.CreationPlan, Plans.Placed;
    if k > 0 {
      var plan := CreateVM.CreationPlan(ns, config, req, ip, outside);
      var steps := CreateSteps(ns, config, req, ip, outside, k);
      BuiltIsMoves(w, ns, config, req, ip, outside, k - 1);
      assert steps[..k - 1] == CreateSteps(ns, config, req, ip, outside, k - 1);
      assert plan[..k][..k - 1] == plan[..k - 1];
    }
  }

  /** Create: every outcome of its contract. */
  lemma CreateIsMoves(w: World, ns: string, config: Requests.AgentConfig, req: Requests.Request, ip: string,
                      outside: Requests.Outside, m: Store, ok: bool, calm: bool, waits: bool, ready: bool)
    requires CreateVM.CreateOutcome(StoreIn(w), CreateVM.CreationPlan(ns, config, req, ip, outside), m, ok, calm,
                                    waits, ready)
    ensures exists moves :: Leads(w, moves, m)
  {
    hide CreateVM.CreationPlan, Plans.Built, Plans.Feasible, Run;
    var plan := CreateVM.CreationPlan(ns, config, req, ip, outside);
    var k: nat :| k <= |plan| && Plans.Did(StoreIn(w), plan, m, k);
    assert Plans.Did(StoreIn(w), plan, m, k);
    BuiltIsMoves(w, ns, config, req, ip, outside, k);
    assert Leads(w, CreateSteps(ns, config, req, ip, outside, k), m);
  }

  lemma {:induction false} ErasureIsMoves(w: World, m: Store)
    requires forall r | r in m :: r in StoreIn(w) && m[r] == StoreIn(w)[r]
    ensures exists moves :: Leads(w, moves, m)
    decreases StoreIn(w).Keys - m.Keys
  {
    hide Run, KeepsIdentity;
    if StoreIn(w).Keys == m.Keys {
      assert m == StoreIn(w);
      LeadsNowhere(w);
    } else {
      var r :| r in StoreIn(w) && r !in m;
      var next := Go(w, DeleteCall(r));
      assert StoreIn(next) == StoreIn(w) - {r} && r in StoreIn(w).Keys - m.Keys;
      assert StoreIn(next).Keys - m.Keys == StoreIn(w).Keys - m.Keys - {r};
      ErasureIsMoves(next, m);
      var moves :| Leads(next, moves, m);
      RunOne(w, DeleteCall(r));
      RunConcat(w, [DeleteCall(r)], moves);
      assert KeepsIdentity(DeleteCall(r)) by { DeletesKeepIdentity(r); }
      assert Leads(w, [DeleteCall(r)] + moves, m);
    }
  }

  lemma DeletesKeepIdentity(r: Ref)
    ensures KeepsIdentity(DeleteCall(r))
  {
  }

  /** Delete: every outcome of its contract. */
  lemma DeleteIsMoves(w: World, m: Store, ns: string, id: string, ok: bool, calm: bool)
    requires DeleteVM.DeleteOutcome(StoreIn(w), m, ns, id, ok, calm)
    ensures exists moves :: Leads(w, moves, m)
  {
    ErasureIsMoves(w, m);
  }

  lemma CreateDiskIsMoves(w: World, m: Store, ns: string, disk: string, req: DiskRequest, ok: bool, calm: bool,
                          bound: bool)
    requires DiskCreated(StoreIn(w), m, ns, disk, req, ok, calm, bound)
    ensures exists moves :: Leads(w, moves, m)
  {
    hide Leads;
    if m == StoreIn(w) {
      LeadsNowhere(w);
    } else {
      LeadsOne(w, CreateClaim(ns, disk, req), m);
    }
  }

  lemma DeleteDiskIsMoves(w: World, m: Store, r: Ref, ok: bool, served: bool)
    requires DiskDeleted(StoreIn(w), m, r, ok, served)
    ensures exists moves :: Leads(w, moves, m)
  {
    hide Leads;
    if ok {
      LeadsOne(w, DeleteCall(r), m);
    } else {
      LeadsNowhere(w);
    }
  }

  /** SetDiskMetadata: a read and an update, when the metadata leaves `disk-id` alone. */
  lemma SetDiskIsMoves(w: World, rules: Metadata.Rules, m: Store, ns: string, disk: string,
                       metadata: map<string, string>, ok: bool, calm: bool)
    requires Metadata.DiskLabelled(rules, StoreIn(w), m, ClaimRef(ns, disk), metadata, ok, calm)
    requires KeepsDiskLabel(rules, metadata, disk)
    ensures exists moves :: Leads(w, moves, m)
  {
    hide Leads, Metadata.DiskMerged;
    if ok {
      LeadsTwo(w, ReadClaim(0, ns, disk, rules, metadata), UpdateClaim(0), m);
    } else {
      LeadsNowhere(w);
    }
  }

  lemma ReadThenPatch(w: World, rules: Metadata.Rules, agent: Agent, metadata: map<string, string>, order: seq<string>)
    requires agent.PodRef() in StoreIn(w) && Metadata.IsOrder(order, metadata)
    ensures StoreIn(Go(Go(w, ReadPod(0, agent, rules, metadata)), PatchPod(0, order)))
         == Metadata.Merged(rules, StoreIn(w), agent.PodRef(), metadata, order)
  {
    hide Metadata.MergeInOrder, Step;
    var before := StoreIn(w)[agent.PodRef()].pod.labels;
    var after := Metadata.MergeInOrder(rules, before, metadata, order);
    Metadata.MergeOnlyAdds(rules, before, metadata, order);
    assert before + Metadata.Changed(before, after) == after;
  }

  /** SetVMMetadata: a read and a patch, when the metadata leaves the agent's label alone. */
  lemma SetVMIsMoves(w: World, rules: Metadata.Rules, m: Store, agent: Agent, metadata: map<string, string>, ok: bool,
                     calm: bool)
    requires Metadata.VMLabelled(rules, StoreIn(w), m, agent.PodRef(), metadata, ok, calm)
    requires KeepsAgentLabel(rules, metadata, agent.id)
    ensures exists moves :: Leads(w, moves, m)
  {
    hide Leads, Metadata.MergeInOrder, Go;
    if ok {
      var order: seq<string> :| Metadata.IsOrder(order, metadata)
                                && m == Metadata.Merged(rules, StoreIn(w), agent.PodRef(), metadata, order);
      ReadThenPatch(w, rules, agent, metadata, order);
      LeadsTwo(w, ReadPod(0, agent, rules, metadata), PatchPod(0, order), m);
    } else {
      LeadsNowhere(w);
    }
  }
}
