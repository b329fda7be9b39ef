/** The three watch loops as one machine: a trace of watch events with one timer firing
    (waitForPod, waitForDeployment and waitForDisk). */
module WaitLoop {
  import opened Basics
  import opened Names
  import opened Cluster

  datatype EventType = AddedEvent | Modified | DeletedEvent | ErrorEvent | ChannelClosed

  /** The object of an event, when it has the type the loop expects. */
  datatype Payload<+T> = Expected(seen: T) | Unexpected

  datatype Item<+T> = TimerFires | Event(kind: EventType, payload: Payload<T>)

  /** `Crash` is a nil dereference while the object is inspected. */
  datatype Readiness = Ready | NotReady | Crash

  datatype Outcome = Succeeded | WrongType | WrongEvent | Timeout | Crashed | StillWaiting

  /** Waiting goes on only past a modification of the right type that is not ready yet. */
  predicate Undecided<T>(item: Item<T>, readiness: T -> Readiness) {
    item.Event? && item.kind == Modified && item.payload.Expected? && readiness(item.payload.seen) == NotReady
  }

  predicate Success<T>(item: Item<T>, readiness: T -> Readiness) {
    item.Event? && item.kind == Modified && item.payload.Expected? && readiness(item.payload.seen) == Ready
  }

  /** What success means without the loop: some item succeeds and everything before it is undecided. */
  ghost predicate Succeeds<T>(trace: seq<Item<T>>, readiness: T -> Readiness) {
    exists n ::
      && 0 <= n < |trace|
      && Success(trace[n], readiness)
      && forall i | 0 <= i < n :: Undecided(trace[i], readiness)
  }

  /** Something in the trace decides the wait: the timer does, if nothing before it. */
  ghost predicate Decided<T>(trace: seq<Item<T>>, readiness: T -> Readiness) {
    exists i :: 0 <= i < |trace| && !Undecided(trace[i], readiness)
  }

  /** How a wait on the trace ends. It succeeds exactly when the first decisive item is a modification to a ready
      object of the expected type, goes on exactly while no item decides (a timer firing does), and otherwise names
      what the first decisive item was. It consumes `n` items before that one. */
  ghost predicate Ends<T>(trace: seq<Item<T>>, readiness: T -> Readiness, out: Outcome, n: nat) {
    && n <= |trace| && (forall i | 0 <= i < n :: Undecided(trace[i], readiness))
    && (n < |trace| ==> !Undecided(trace[n], readiness))
    && (out == Succeeded <==> Succeeds(trace, readiness))
    && (out == StillWaiting <==> forall i | 0 <= i < |trace| :: Undecided(trace[i], readiness))
    && (out == Timeout <==> n < |trace| && trace[n].TimerFires?)
    && (out == WrongEvent <==> n < |trace| && trace[n].Event? && trace[n].kind != Modified)
    && (out == WrongType <==>
         n < |trace| && trace[n].Event? && trace[n].kind == Modified && trace[n].payload.Unexpected?)
  }

  /** The loop over watch events that creating a disk and creating a deployment share. */
  method Wait<T>(trace: seq<Item<T>>, readiness: T -> Readiness) returns (out: Outcome, n: nat)
    ensures Ends(trace, readiness, out, n)
  {
    for i := 0 to |trace|
      invariant forall k | 0 <= k < i :: Undecided(trace[k], readiness)
    {
      match trace[i] {
        case TimerFires => return Timeout, i;
        case Event(kind, payload) =>
          if kind != Modified {
            return WrongEvent, i;
          }
          if payload.Unexpected? {
            return WrongType, i;
          }
          match readiness(payload.seen) {
            case Ready =>
              assert Success(trace[i], readiness);
              return Succeeded, i;
            case Crash => return Crashed, i;
            case NotReady =>
          }
      }
    }
    return StillWaiting, |trace|;
  }

  // ---- What each wait is for, on the trace itself ----

  predicate Modifies<T>(item: Item<T>) { item.Event? && item.kind == Modified && item.payload.Expected? }

  /** A claim becomes bound: the first items modify claims in other phases, the next one a claim in phase `Bound`. */
  ghost predicate BecomesBound(trace: seq<Item<Claim>>) {
    exists n ::
      && 0 <= n < |trace|
      && Modifies(trace[n]) && trace[n].payload.seen.phase == "Bound"
      && forall i | 0 <= i < n :: Modifies(trace[i]) && trace[i].payload.seen.phase != "Bound"
  }

  /** The pod is running, and the first of its containers named `bosh-job` is ready and running. */
  ghost predicate IsUp(pod: Pod) {
    && pod.status.phase == "Running"
    && exists i ::
         && 0 <= i < |pod.status.containers|
         && pod.status.containers[i].name == "bosh-job"
         && pod.status.containers[i].ready && pod.status.containers[i].running
         && forall k | 0 <= k < i :: pod.status.containers[k].name != "bosh-job"
  }

  ghost predicate ComesUp(trace: seq<Item<Pod>>) {
    exists n ::
      && 0 <= n < |trace|
      && Modifies(trace[n]) && IsUp(trace[n].payload.seen)
      && forall i | 0 <= i < n :: Modifies(trace[i]) && !IsUp(trace[i].payload.seen)
  }

  /** The deployment has been observed with its replicas available; before that it was not observed as it is, or had
      another number available. */
  ghost predicate RollsOut(trace: seq<Item<Rollout>>) {
    exists n ::
      && 0 <= n < |trace|
      && Modifies(trace[n])
      && trace[n].payload.seen.observed >= trace[n].payload.seen.generation
      && trace[n].payload.seen.replicas == Some(trace[n].payload.seen.available)
      && forall i | 0 <= i < n ::
           && Modifies(trace[i])
           && var r := trace[i].payload.seen;
              r.observed < r.generation || (r.replicas.Some? && r.replicas.value != r.available)
  }

  lemma BoundIsSuccess(trace: seq<Item<Claim>>)
    ensures Succeeds(trace, ClaimReadiness) <==> BecomesBound(trace)
  {
  }

  lemma UpIsReady(pod: Pod)
    ensures PodReadiness(pod) == Ready <==> IsUp(pod)
  {
  }

  lemma UpIsSuccess(trace: seq<Item<Pod>>)
    ensures Succeeds(trace, PodReadiness) <==> ComesUp(trace)
  {
    forall pod ensures PodReadiness(pod) == Ready <==> IsUp(pod) { UpIsReady(pod); }
    hide IsUp, PodReadiness;
  }

  lemma RolledOutIsSuccess(trace: seq<Item<Rollout>>)
    ensures Succeeds(trace, RolloutReadiness) <==> RollsOut(trace)
  {
  }

  // ---- The three readiness tests ----

  function FirstJob(statuses: seq<ContainerStatus>): (i: nat)
    ensures i <= |statuses|
    ensures i < |statuses| ==> statuses[i].name == JOB
    ensures forall k | 0 <= k < i :: statuses[k].name != JOB
  {
    if statuses == [] || statuses[0].name == JOB then 0 else 1 + FirstJob(statuses[1..])
  }

  /** A pod is ready when it is running and its first `bosh-job` container is ready and running. */
  function PodReadiness(pod: Pod): Readiness {
    var i, statuses := FirstJob(pod.status.containers), pod.status.containers;
    if pod.status.phase == "Running" && i < |statuses| && statuses[i].ready && statuses[i].running
    then Ready else NotReady
  }

  method IsAgentContainerRunning(pod: Pod) returns (running: bool)
    ensures running <==> PodReadiness(pod) == Ready
    ensures running <==> IsUp(pod)
  {
    UpIsReady(pod);
    if pod.status.phase != "Running" {
      return false;
    }
    var statuses := pod.status.containers;
    for i := 0 to |statuses|
      invariant forall k | 0 <= k < i :: statuses[k].name != JOB
    {
      if statuses[i].name == JOB {
        return statuses[i].ready && statuses[i].running;
      }
    }
    return false;
  }

  /** The loop over the events of a pod watch, with its own test of the pod. */
  method WaitForRunning(trace: seq<Item<Pod>>) returns (out: Outcome, n: nat)
    ensures Ends(trace, PodReadiness, out, n)
  {
    for i := 0 to |trace|
      invariant forall k | 0 <= k < i :: Undecided(trace[k], PodReadiness)
    {
      match trace[i] {
        case TimerFires => return Timeout, i;
        case Event(kind, payload) =>
          if kind != Modified {
            return WrongEvent, i;
          }
          if payload.Unexpected? {
            return WrongType, i;
          }
          var running := IsAgentContainerRunning(payload.seen);
          if running {
            assert Success(trace[i], PodReadiness);
            return Succeeded, i;
          }
      }
    }
    return StillWaiting, |trace|;
  }

  function ClaimReadiness(claim: Claim): Readiness {
    if claim.phase == "Bound" then Ready else NotReady
  }

  /** The parts of a deployment its readiness test looks at; `replicas` is a pointer that may be nil. */
  datatype Rollout = Rollout(generation: int, observed: int, available: int, replicas: Option<int>)

  function RolloutReadiness(r: Rollout): Readiness {
    if r.observed < r.generation then NotReady
    else if r.replicas.None? then Crash
    else if r.available == r.replicas.value then Ready
    else NotReady
  }
}
