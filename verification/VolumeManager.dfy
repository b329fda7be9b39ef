/** AttachDisk and DetachDisk as the program runs them (actions/volume_manager.go:36-259):
    each call of the in-place code is one step of the protocol. */
module VolumeManager {
  import opened Basics
  import opened Names
  import opened Settings
  import opened PodSpecs
  import opened PodEditing
  import opened Cluster
  import opened WaitLoop
  import opened Recreate

  // ---- What a request promises, in the names, keys and paths that the program writes ----

  /** The pod created in place of another: labels kept, an empty IP annotation filled in, the status cleared, and
      one disk more or its first entries gone. */
  ghost predicate Replaces(op: Operation, disk: string, pod: Pod, next: Pod) {
    var key := "bosh.cloudfoundry.org/ip-address";
    var pinned := key in pod.annotations && pod.annotations[key] != "";
    && next.labels == pod.labels
    && next.annotations == pod.annotations[key := if pinned then pod.annotations[key] else pod.status.podIP]
    && next.status == PodStatus("", "", [])
    && if op == Add then GainsDisk(pod.spec, next.spec, disk) else LosesDisk(pod.spec, next.spec, disk)
  }

  /** The config map has settings that can be read. */
  predicate Readable(cm: ConfigMap) {
    "instance_settings" in cm.data && Decode(cm.data["instance_settings"]).Some?
  }

  /** The settings record the disk at its path, or no longer; all else in them and in the config map is kept. */
  ghost predicate Rewrites(op: Operation, context: string, disk: string, cm: ConfigMap, next: ConfigMap) {
    && Readable(cm) && Readable(next)
    && next.labels == cm.labels
    && next.data == cm.data["instance_settings" := next.data["instance_settings"]]
    && var was, now := Decode(cm.data["instance_settings"]).value, Decode(next.data["instance_settings"]).value;
       && RestOf(now) == RestOf(was)
       && DisksOf(now) == if op == Add then DisksOf(was)[context + ":" + disk := "/mnt/" + disk]
                          else DisksOf(was) - {context + ":" + disk}
  }

  /** A request that was not rejected: it touches the agent's pod and config map and nothing else; it succeeds only
      with both rewritten and the pod up again; and it does succeed when both are there to be read, no call is
      refused and the pod comes up. */
  ghost predicate Rebuilds(op: Operation, context: string, ns: string, vm: string, disk: string, trace: seq<Item<Pod>>,
                           m: Store, m': Store, ok: bool, calm: bool) {
    var pod, cm := Ref(PodKind, ns, "agent-" + vm), Ref(ConfigMapKind, ns, "agent-" + vm);
    && (forall r | r != pod && r != cm :: (r in m' <==> r in m) && (r in m ==> m'[r] == m[r]))
    && (ok ==>
          && pod in m && cm in m && pod in m' && cm in m'
          && Replaces(op, disk, m[pod].pod, m'[pod].pod)
          && Rewrites(op, context, disk, m[cm].configMap, m'[cm].configMap)
          && ComesUp(trace))
    && (calm && pod in m && cm in m && Readable(m[cm].configMap) && ComesUp(trace) ==> ok)
  }

  lemma SuccessorReplaces(pod: Pod, task: Task)
    ensures Replaces(task.op, task.disk, pod, Successor(pod, task))
  {
    hide GainsDisk, LosesDisk, WithDisk, WithoutDisk;
    WithDiskGains(pod.spec, task.disk);
    WithoutDiskLoses(pod.spec, task.disk);
  }

  lemma EditRewrites(cm: ConfigMap, task: Task)
    ensures EditedConfigMap(cm, task).Some? <==> Readable(cm)
    ensures Readable(cm) ==> Rewrites(task.op, task.context, task.disk, cm, EditedConfigMap(cm, task).value)
  {
    if Readable(cm) {
      hide Decode, Encode, RestOf;
      var was := Decode(cm.data["instance_settings"]).value;
      EditSurvives(was, EditedDisks(DisksOf(was), task));
    }
  }

  lemma AloneRebuilds(m: Store, agent: Agent, task: Task, served: nat -> bool, n: nat, trace: seq<Item<Pod>>)
    ensures var (m', ok, n') := Alone(m, agent, task, GetPod, served, n, Succeeds(trace, PodReadiness));
            n' > n && Rebuilds(task.op, task.context, agent.ns, agent.id, task.disk, trace, m, m', ok,
                               forall i | n <= i < n' :: served(i))
  {
    hide Alone, Replaces, Rewrites, Successor, EditedConfigMap, ComesUp, Succeeds, Readable;
    UpIsSuccess(trace);
    FirstCall(m, agent, task, served, n, Succeeds(trace, PodReadiness));
    CrashStates(m, agent, task, served, n, Succeeds(trace, PodReadiness));
    if agent.PodRef() in m {
      SuccessorReplaces(m[agent.PodRef()].pod, task);
    }
    if agent.ConfigMapRef() in m {
      EditRewrites(m[agent.ConfigMapRef()].configMap, task);
    }
    var n' := Alone(m, agent, task, GetPod, served, n, Succeeds(trace, PodReadiness)).2;
    if Workable(m, agent, task) && forall i | n <= i < n' :: served(i) {
      CalmRun(m, agent, task, served, n, Succeeds(trace, PodReadiness));
    }
  }

  class Manager {
    const provider: Provider

    constructor (provider: Provider)
      ensures this.provider == provider
    {
      this.provider := provider;
    }

    method AttachDisk(api: Api, vmCid: string, diskCid: string, trace: seq<Item<Pod>>) returns (res: Result<()>)
      requires Decided(trace, PodReadiness)
      modifies api
      ensures Handled(Add, vmCid, diskCid, trace, old(api.objects), old(api.calls), api.served, api.objects, api.calls,
                      res)
      ensures Answers(Add, vmCid, diskCid, trace, old(api.objects), old(api.calls), api.served, api.objects, api.calls,
                      res)
    {
      res := Handle(api, Add, vmCid, diskCid, trace);
      HandledAnswers(Add, vmCid, diskCid, trace, old(api.objects), old(api.calls), api.served, api.objects, api.calls,
                     res);
    }

    method DetachDisk(api: Api, vmCid: string, diskCid: string, trace: seq<Item<Pod>>) returns (res: Result<()>)
      requires Decided(trace, PodReadiness)
      modifies api
      ensures Handled(Remove, vmCid, diskCid, trace, old(api.objects), old(api.calls), api.served, api.objects,
                      api.calls, res)
      ensures Answers(Remove, vmCid, diskCid, trace, old(api.objects), old(api.calls), api.served, api.objects,
                      api.calls, res)
    {
      res := Handle(api, Remove, vmCid, diskCid, trace);
      HandledAnswers(Remove, vmCid, diskCid, trace, old(api.objects), old(api.calls), api.served, api.objects,
                     api.calls, res);
    }

    /** The checks both requests make before the recreate. */
    method Handle(api: Api, op: Operation, vmCid: string, diskCid: string, trace: seq<Item<Pod>>)
      returns (res: Result<()>)
      requires Decided(trace, PodReadiness)
      modifies api
      ensures Handled(op, vmCid, diskCid, trace, old(api.objects), old(api.calls), api.served, api.objects, api.calls,
                      res)
    {
      var vm, disk := ParseCid(vmCid), ParseCid(diskCid);
      if vm.None? || disk.None? {
        return Err(Panicked);
      }
      if disk.value.0 != vm.value.0 {
        return Err(Rejected);
      }
      var client := provider.New(disk.value.0);
      if client.None? {
        return Err(Rejected);
      }
      res := RecreatePod(api, client.value, op, vm.value.1, disk.value.1, trace);
    }

    /** What a request does: without two well-formed cloud IDs of one known context it makes no call
        and changes nothing; otherwise it is exactly one run alone of the protocol. */
    ghost predicate Handled(op: Operation, vmCid: string, diskCid: string, trace: seq<Item<Pod>>, m: Store, n: nat,
                            served: nat -> bool, m': Store, n': nat, res: Result<()>)
    {
      var vm, disk := ParseCid(vmCid), ParseCid(diskCid);
      if vm.None? || disk.None? then m' == m && n' == n && res == Err(Panicked)
      else if vm.value.0 != disk.value.0 || provider.New(disk.value.0).None?
      then m' == m && n' == n && res == Err(Rejected)
      else
        var client := provider.New(disk.value.0).value;
        (m', res.Ok?, n') == Alone(m, Agent(client.ns, vm.value.1), Task(op, client.context, disk.value.1), GetPod,
                                   served, n, Succeeds(trace, PodReadiness))
    }

    /** The same in terms of the identifiers that the cloud IDs name and of the configured contexts: a request across
        contexts or through an unknown one makes no call; any other rebuilds the pod of that VM in the namespace of
        its context. */
    ghost predicate Answers(op: Operation, vmCid: string, diskCid: string, trace: seq<Item<Pod>>, m: Store, n: nat,
                            served: nat -> bool, m': Store, n': nat, res: Result<()>)
    {
      && (forall c1, vm, c2, disk | Through(vmCid, c1, vm) && Through(diskCid, c2, disk) ::
            c1 != c2 || !provider.Knows(c2) ==> m' == m && n' == n && res == Err(Rejected))
      && (forall context, vm, disk, resolved, ns |
            && Through(vmCid, context, vm) && Through(diskCid, context, disk)
            && provider.Resolves(context, resolved, ns) ::
              && n' > n
              && Rebuilds(op, resolved, ns, vm, disk, trace, m, m', res.Ok?, forall i | n <= i < n' :: served(i)))
    }

    lemma HandledAnswers(op: Operation, vmCid: string, diskCid: string, trace: seq<Item<Pod>>, m: Store, n: nat,
                         served: nat -> bool, m': Store, n': nat, res: Result<()>)
      requires Handled(op, vmCid, diskCid, trace, m, n, served, m', n', res)
      ensures Answers(op, vmCid, diskCid, trace, m, n, served, m', n', res)
    {
      hide Through, ParseCid, Rebuilds, Alone, Provider.New, Provider.Knows, Provider.Resolves, Succeeds;
      ThroughIsParse(vmCid);
      ThroughIsParse(diskCid);
      forall context { provider.NewResolves(context); }
      forall context, vm, disk, resolved, ns |
        Through(vmCid, context, vm) && Through(diskCid, context, disk) && provider.Resolves(context, resolved, ns)
        ensures n' > n
             && Rebuilds(op, resolved, ns, vm, disk, trace, m, m', res.Ok?, forall i | n <= i < n' :: served(i))
      {
        AloneRebuilds(m, Agent(ns, vm), Task(op, resolved, disk), served, n, trace);
      }
    }

    /** The in-place program and the step machine agree on every cluster, whatever is refused: same final
        objects, same success, same number of calls. */
    method RecreatePod(api: Api, client: Client, op: Operation, agentId: string, diskId: string, trace: seq<Item<Pod>>)
      returns (res: Result<()>)
      requires Decided(trace, PodReadiness)
      modifies api
      ensures (api.objects, res.Ok?, api.calls) ==
              Alone(old(api.objects), Agent(client.ns, agentId), Task(op, client.context, diskId), GetPod, api.served,
                    old(api.calls), Succeeds(trace, PodReadiness))
    {
      hide Alone, Successor, Succeeds, EditedConfigMap;
      ghost var agent, task := Agent(client.ns, agentId), Task(op, client.context, diskId);
      ghost var ready := Succeeds(trace, PodReadiness);
      AloneStep(api.objects, agent, task, GetPod, api.served, api.calls, ready);
      var got := api.Get(Ref(PodKind, client.ns, AgentName(agentId)));
      if got.Err? {
        return Err(got.error);
      }
      var pod := got.value.pod;
      res := UpdateConfigMapDisks(api, client, op, agentId, diskId, pod, ready);
      if res.Err? {
        return;
      }
      var next := EditPod(pod, op, client.context, diskId);
      res := ReplacePod(api, client, op, agentId, diskId, next, trace);
    }

    /** updateVolumes: the spec is edited in place. */
    method EditSpec(spec: PodSpec, op: Operation, diskId: string) returns (edited: PodSpec)
      ensures edited == match op case Add => WithDisk(spec, diskId) case Remove => WithoutDisk(spec, diskId)
      ensures if op == Add then GainsDisk(spec, edited, diskId) else LosesDisk(spec, edited, diskId)
    {
      hide WithDisk, WithoutDisk, GainsDisk, LosesDisk, SpecBuffer.Containers, SpecBuffer.ContainersTo,
           SpecBuffer.ValidMounts;
      var buffer := new SpecBuffer(spec);
      if op == Add {
        buffer.AddVolume(diskId);
      } else {
        buffer.RemoveVolume(diskId);
      }
      edited := buffer.ToValue();
    }

    /** The spec edited, the metadata carried over and the status cleared. */
    method EditPod(pod: Pod, op: Operation, context: string, diskId: string) returns (next: Pod)
      ensures next == Successor(pod, Task(op, context, diskId))
      ensures Replaces(op, diskId, pod, next)
    {
      hide WithDisk, WithoutDisk, Replaces;
      SuccessorReplaces(pod, Task(op, context, diskId));
      var edited := EditSpec(pod.spec, op, diskId);
      var annotations := pod.annotations;
      if IP_ANNOTATION !in annotations || |annotations[IP_ANNOTATION]| == 0 {
        annotations := annotations[IP_ANNOTATION := pod.status.podIP];
      }
      next := Pod(pod.labels, annotations, edited, NO_STATUS);
    }

    /** From the delete on: the old pod goes, the edited one is created, and the wait decides. */
    method ReplacePod(api: Api, client: Client, op: Operation, agentId: string, diskId: string, next: Pod,
                      trace: seq<Item<Pod>>) returns (res: Result<()>)
      requires Decided(trace, PodReadiness)
      modifies api
      ensures (api.objects, res.Ok?, api.calls) ==
              Alone(old(api.objects), Agent(client.ns, agentId), Task(op, client.context, diskId), DeletePod(next),
                    api.served, old(api.calls), Succeeds(trace, PodReadiness))
    {
      ghost var agent, task := Agent(client.ns, agentId), Task(op, client.context, diskId);
      ghost var ready := Succeeds(trace, PodReadiness);
      var podRef := Ref(PodKind, client.ns, AgentName(agentId));
      AloneStep(api.objects, agent, task, DeletePod(next), api.served, api.calls, ready);
      res := api.Delete(podRef);
      if res.Err? {
        return;
      }
      AloneStep(api.objects, agent, task, CreatePod(next), api.served, api.calls, ready);
      res := api.Create(podRef, PodObject(next));
      if res.Err? {
        return;
      }
      AloneStep(api.objects, agent, task, OpenWatch, api.served, api.calls, ready);
      res := WaitForPod(api, trace);
    }

    /** From any point at which the config map is to be read: the two steps of the protocol, or its end. */
    method UpdateConfigMapDisks(api: Api, client: Client, op: Operation, agentId: string, diskId: string,
                                ghost read: Pod, ghost ready: bool) returns (res: Result<()>)
      modifies api
      ensures var agent, task := Agent(client.ns, agentId), Task(op, client.context, diskId);
              Alone(old(api.objects), agent, task, GetConfigMap(read), api.served, old(api.calls), ready) ==
              if res.Ok? then Alone(api.objects, agent, task, DeletePod(Successor(read, task)), api.served, api.calls,
                                    ready)
              else (api.objects, false, api.calls)
    {
      hide Alone, Successor, Decode, Encode;
      ghost var agent, task := Agent(client.ns, agentId), Task(op, client.context, diskId);
      AloneStep(api.objects, agent, task, GetConfigMap(read), api.served, api.calls, ready);
      var cmRef := Ref(ConfigMapKind, client.ns, AgentName(agentId));
      var got := api.Get(cmRef);
      if got.Err? {
        return Err(got.error);
      }
      var cm := got.value.configMap;
      if SETTINGS_KEY !in cm.data {
        return Err(Rejected);
      }
      var decoded := Decode(cm.data[SETTINGS_KEY]);
      if decoded.None? {
        return Err(Rejected);
      }
      var settings := decoded.value;
      var diskCid := NewCid(client.context, diskId);
      var persistent := if settings.persistent.None? then map[] else settings.persistent.value;
      match op {
        case Add => persistent := persistent[diskCid := MountPath(diskId)];
        case Remove => persistent := persistent - {diskCid};
      }
      settings := settings.(persistent := Some(persistent));
      cm := cm.(data := cm.data[SETTINGS_KEY := Parsed(Encode(settings))]);
      assert EditedConfigMap(got.value.configMap, task) == Some(cm);
      AloneStep(api.objects, agent, task, UpdateConfigMap(read, cm), api.served, api.calls, ready);
      res := api.Update(cmRef, ConfigMapObject(cm));
    }

    method WaitForPod(api: Api, trace: seq<Item<Pod>>) returns (res: Result<()>)
      requires Decided(trace, PodReadiness)
      modifies api`calls
      ensures api.calls == old(api.calls) + 1
      ensures res.Ok? <==> api.served(old(api.calls)) && Succeeds(trace, PodReadiness)
      ensures res.Ok? <==> api.served(old(api.calls)) && ComesUp(trace)
    {
      UpIsSuccess(trace);
      var open := api.Watch();
      if !open {
        return Err(Unavailable);
      }
      var out, _ := WaitForRunning(trace);
      return if out == Succeeded then Ok(()) else if out == Timeout then Err(TimedOut) else Err(Rejected);
    }
  }
}
