/** Creating a VM (actions/create_vm.go): a fixed order of creations, each of which may fail. */
module CreateVM {
  import opened Basics
  import opened Names
  import opened Settings
  import opened PodSpecs
  import opened Cluster
  import opened WaitLoop
  import opened Plans
  import opened Requests

  // ---- What each part of the request asks for ----

  function Mine(id: string): map<string, string> { map[AGENT_LABEL := id] }

  function ServiceTypeOf(kind: string): string {
    if kind == "NodePort" || kind == "LoadBalancer" then kind else "ClusterIP"
  }

  function PortOf(p: PortDef): ServicePort {
    ServicePort(p.name, p.protocol, p.port, p.nodePort, p.targetPort)
  }

  function PortsOf(ports: seq<PortDef>): seq<ServicePort> {
    seq(|ports|, i requires 0 <= i < |ports| => PortOf(ports[i]))
  }

  function ServiceOf(def: ServiceDef, id: string): Service {
    Service(Mine(id), ServiceTypeOf(def.kind), def.clusterIP, PortsOf(def.ports), def.externalIPs,
            if def.kind == "LoadBalancer" then def.loadBalancerIP else "",
            if def.selector == map[] then Mine(id) else def.selector)
  }

  function PlannedService(ns: string, id: string, def: ServiceDef): Planned {
    if def.kind == "Ingress"
    then Planned(Ref(IngressKind, ns, def.name), IngressObject(Ingress(Mine(id), def.backend, def.tls, def.rules)),
                 true)
    else Planned(Ref(ServiceKind, ns, def.name), ServiceObject(ServiceOf(def, id)), false)
  }

  function SecretTypeOf(kind: string): string {
    match kind
    case "DockerCfg" => "kubernetes.io/dockercfg"
    case "ServiceAccountToken" => "kubernetes.io/service-account-token"
    case "TLS" => "kubernetes.io/tls"
    case _ => "Opaque"
  }

  const DOCKERCFG := ".dockercfg"

  /** The secret's data: a `.dockercfg` entry names a file, whose content takes its place. */
  function PayloadOf(data: map<string, string>, files: map<string, string>): Option<map<string, string>> {
    if DOCKERCFG !in data then Some(data)
    else if data[DOCKERCFG] in files then Some(data[DOCKERCFG := files[data[DOCKERCFG]]])
    else None
  }

  function PlannedSecret(ns: string, id: string, def: SecretDef, files: map<string, string>): Planned {
    var payload := PayloadOf(def.data, files);
    if payload.None? then Unbuildable
    else Planned(Ref(SecretKind, ns, def.name),
                 SecretObject(Secret(Mine(id), def.annotations, payload.value, def.stringData, SecretTypeOf(def.kind))),
                 true)
  }

  /** Every quantity parses and belongs to a supported resource. */
  predicate SupportedResources(list: map<string, string>, quantity: string -> Option<string>) {
    forall k | k in list :: (k == "cpu" || k == "memory") && quantity(list[k]).Some?
  }

  /** `None` outside is an error; `Some(None)` an absent list. */
  function ResourcesOf(list: Option<map<string, string>>,
                       quantity: string -> Option<string>): Option<Option<map<string, string>>> {
    if list.None? then Some(None)
    else if SupportedResources(list.value, quantity)
    then Some(Some(map k | k in list.value :: quantity(list.value[k]).GetOr("")))
    else None
  }

  function BaseSpec(id: string, workload: Workload): PodSpec {
    PodSpec(id,
            [Container(JOB, workload,
                       [Named("bosh-config", MountPoint("/var/vcap/bosh/instance_settings.json",
                                                        "instance_settings.json")),
                        Named("bosh-ephemeral", MountPoint("/var/vcap/data", ""))])],
            [Named("bosh-config", ConfigMapSource(AgentName(id), SETTINGS_KEY, "instance_settings.json")),
             Named("bosh-ephemeral", EmptyDirSource)])
  }

  function IpAnnotation(ip: string): map<string, string> {
    if ip == "" then map[] else map[IP_ANNOTATION := ip]
  }

  function AgentPod(id: string, workload: Workload, annotations: map<string, string>): Pod {
    Pod(Mine(id), annotations, BaseSpec(id, workload), NO_STATUS)
  }

  /** The last step: a pod, a deployment, or nothing that can be built. The deployment's template
      carries no annotations. */
  function PlannedWorkload(ns: string, req: Request, ip: string, outside: Outside): Planned {
    var limits, requests := ResourcesOf(req.limits, outside.quantity), ResourcesOf(req.requests, outside.quantity);
    if limits.None? || requests.None? || (req.replicas.Some? && req.replicas.value < 1) then Unbuildable else
    var workload := Workload(req.image, ["/usr/sbin/runsvdir-start"], true, 0, limits.value, requests.value);
    if req.replicas.None?
    then Planned(Ref(PodKind, ns, AgentName(req.agentId)),
                 PodObject(AgentPod(req.agentId, workload, IpAnnotation(ip))), true)
    else Planned(Ref(DeploymentKind, ns, AgentName(req.agentId)),
                 DeploymentObject(Deployment(req.replicas.value, AgentPod(req.agentId, workload, map[]))), true)
  }

  function InstanceSettings(config: AgentConfig, req: Request): Settings {
    Settings(req.agentId, None,
             Some(map name | name in req.networks ::
               var n := req.networks[name];
               Network(n.kind, n.ip, n.netmask, n.gateway, n.default, n.dns, true)),
             config.mbus, config.ntp, req.agentId, config.blobstore, req.env)
  }

  function AgentConfigMap(config: AgentConfig, req: Request): ConfigMap {
    ConfigMap(Mine(req.agentId), map[SETTINGS_KEY := Parsed(Encode(InstanceSettings(config, req)))])
  }

  function PlannedNamespace(ns: string): Planned {
    Planned(Ref(NamespaceKind, "", ns), NamespaceObject, false)
  }

  function PlannedConfigMap(ns: string, config: AgentConfig, req: Request): Planned {
    Planned(Ref(ConfigMapKind, ns, AgentName(req.agentId)), ConfigMapObject(AgentConfigMap(config, req)), true)
  }

  function ServicePlan(ns: string, id: string, defs: seq<ServiceDef>): (plan: seq<Planned>)
    ensures WellKinded(plan)
  {
    seq(|defs|, i requires 0 <= i < |defs| => PlannedService(ns, id, defs[i]))
  }

  function SecretPlan(ns: string, id: string, defs: seq<SecretDef>, files: map<string, string>): (plan: seq<Planned>)
    ensures WellKinded(plan)
  {
    seq(|defs|, i requires 0 <= i < |defs| => PlannedSecret(ns, id, defs[i], files))
  }

  function SupportPlan(ns: string, config: AgentConfig, req: Request, outside: Outside): (plan: seq<Planned>)
    ensures WellKinded(plan)
  {
    [PlannedNamespace(ns), PlannedConfigMap(ns, config, req)]
    + ServicePlan(ns, req.agentId, req.services)
    + SecretPlan(ns, req.agentId, req.secrets, outside.files)
  }

  function WorkloadPlan(ns: string, req: Request, ip: string, outside: Outside): (plan: seq<Planned>)
    ensures WellKinded(plan)
  {
    [PlannedWorkload(ns, req, ip, outside)]
  }

  /** The whole order of creation: namespace, config map, services and ingresses in list order,
      secrets in list order, then the pod or the deployment. */
  function CreationPlan(ns: string, config: AgentConfig, req: Request, ip: string,
                        outside: Outside): (plan: seq<Planned>)
    ensures WellKinded(plan)
  {
    SupportPlan(ns, config, req, outside) + WorkloadPlan(ns, req, ip, outside)
  }

  /** The cluster afterwards is the old one with the plan carried out up to some step: the whole plan on
      success, a proper prefix of it on failure, except that a deployment may be there when only the wait
      for it failed. Success with a deployment means that it came up. A feasible plan succeeds when no call
      is refused and a deployment comes up. */
  ghost predicate CreateOutcome(m: Store, plan: seq<Planned>, m': Store, ok: bool, calm: bool, waits: bool, ready: bool)
    requires WellKinded(plan)
  {
    && (Ran(m, plan, m', ok) || (waits && !ok && Ran(m, plan, m', true)))
    && (ok && waits ==> ready)
    && (calm && Feasible(m, plan) && (waits ==> ready) ==> ok)
  }

  /** The last step; `built` says whether its object is there. */
  ghost predicate LastStep(m: Store, plan: seq<Planned>, m': Store, ok: bool, built: bool, calm: bool, waits: bool,
                           ready: bool)
    requires WellKinded(plan)
  {
    && Ran(m, plan, m', built)
    && (ok ==> built)
    && (!waits ==> ok == built)
    && (ok && waits ==> ready)
    && (calm && Feasible(m, plan) && (waits ==> ready) ==> ok)
  }

  lemma OutcomeOfParts(m: Store, support: seq<Planned>, middle: Store, last: seq<Planned>, m': Store, ok: bool,
                       built: bool, calmA: bool, calmB: bool, waits: bool, ready: bool)
    requires WellKinded(support) && WellKinded(last)
    requires PartDone(m, support, middle, true, calmA)
    requires LastStep(middle, last, m', ok, built, calmB, waits, ready)
    ensures WellKinded(support + last) && CreateOutcome(m, support + last, m', ok, calmA && calmB, waits, ready)
  {
    RanThen(m, support, middle, last, m', built);
    BuiltConcat(m, support, last);
    assert support[..|support|] == support;
  }

  // ---- The plan and what the request asks for ----

  /** Where each part stands in the plan. */
  lemma PlanAt(ns: string, config: AgentConfig, req: Request, ip: string, outside: Outside, i: nat)
    ensures var plan := CreationPlan(ns, config, req, ip, outside);
            && |plan| == 3 + |req.services| + |req.secrets|
            && (i < |plan| ==>
                  plan[i] == if i == 0 then PlannedNamespace(ns)
                             else if i == 1 then PlannedConfigMap(ns, config, req)
                             else if i < 2 + |req.services| then PlannedService(ns, req.agentId, req.services[i - 2])
                             else if i < 2 + |req.services| + |req.secrets|
                             then PlannedSecret(ns, req.agentId, req.secrets[i - 2 - |req.services|], outside.files)
                             else PlannedWorkload(ns, req, ip, outside))
  {
    hide PlannedNamespace, PlannedConfigMap, PlannedService, PlannedSecret, PlannedWorkload;
  }

  lemma WantedAt(ns: string, req: Request, i: nat)
    requires i < |Wanted(ns, req)|
    ensures Wanted(ns, req)[i] ==
              if i == 0 then Ref(NamespaceKind, "", ns)
              else if i == 1 then Ref(ConfigMapKind, ns, "agent-" + req.agentId)
              else if i < 2 + |req.services| then ServiceRef(ns, req.services[i - 2])
              else if i < 2 + |req.services| + |req.secrets|
              then Ref(SecretKind, ns, req.secrets[i - 2 - |req.services|].name)
              else Ref(if req.replicas.None? then PodKind else DeploymentKind, ns, "agent-" + req.agentId)
  {
  }

  lemma ConfigMapIsWanted(config: AgentConfig, req: Request)
    ensures IsConfigMap(AgentConfigMap(config, req), config, req)
  {
    hide Encode, Decode;
    RoundTrip(InstanceSettings(config, req));
  }

  lemma ServiceIsWanted(ns: string, def: ServiceDef, id: string)
    ensures var p := PlannedService(ns, id, def);
            && p.Planned? && p.ref == ServiceRef(ns, def) && (p.strict <==> def.kind == "Ingress")
            && if def.kind == "Ingress" then p.object_.IngressObject? && IsIngress(p.object_.ingress, def, id)
               else p.object_.ServiceObject? && IsService(p.object_.service, def, id)
  {
  }

  lemma SecretIsWanted(ns: string, def: SecretDef, id: string, files: map<string, string>)
    ensures var p := PlannedSecret(ns, id, def, files);
            && (p.Planned? <==> ".dockercfg" in def.data ==> def.data[".dockercfg"] in files)
            && (p.Planned? ==> p.strict && p.ref == Ref(SecretKind, ns, def.name)
                               && p.object_.SecretObject? && IsSecret(p.object_.secret, def, id, files))
  {
  }

  lemma ResourcesAreParsed(list: Option<map<string, string>>, quantity: string -> Option<string>)
    ensures ResourcesOf(list, quantity).Some? <==> Parses(list, quantity)
    ensures ResourcesOf(list, quantity).Some? ==> IsParsed(ResourcesOf(list, quantity).value, list, quantity)
  {
  }

  lemma PodIsWanted(req: Request, workload: Workload, annotations: map<string, string>, outside: Outside)
    requires workload.image == req.image && workload.command == ["/usr/sbin/runsvdir-start"]
    requires workload.privileged && workload.user == 0
    requires IsParsed(workload.limits, req.limits, outside.quantity)
    requires IsParsed(workload.requests, req.requests, outside.quantity)
    ensures IsPod(AgentPod(req.agentId, workload, annotations), req, annotations, outside)
  {
    hide IsParsed;
  }

  lemma WorkloadIsWanted(ns: string, config: AgentConfig, req: Request, ip: string, outside: Outside)
    ensures var p, i := PlannedWorkload(ns, req, ip, outside), 2 + |req.services| + |req.secrets|;
            && (p.Planned? <==> && Parses(req.limits, outside.quantity) && Parses(req.requests, outside.quantity)
                                && (req.replicas.Some? ==> req.replicas.value >= 1))
            && (p.Planned? ==>
                  && p.strict
                  && p.ref == Ref(if req.replicas.None? then PodKind else DeploymentKind, ns, "agent-" + req.agentId)
                  && IsWanted(i, p.object_, config, req, ip, outside))
  {
    hide ResourcesOf, Parses, IsParsed, IsPod, AgentPod;
    ResourcesAreParsed(req.limits, outside.quantity);
    ResourcesAreParsed(req.requests, outside.quantity);
    var p := PlannedWorkload(ns, req, ip, outside);
    if p.Planned? {
      var workload := Workload(req.image, ["/usr/sbin/runsvdir-start"], true, 0,
                               ResourcesOf(req.limits, outside.quantity).value,
                               ResourcesOf(req.requests, outside.quantity).value);
      PodIsWanted(req, workload, IpAnnotation(ip), outside);
      PodIsWanted(req, workload, map[], outside);
    }
  }

  /** Each step of the plan that can be built makes what the request asks for at its place, and only the steps for
      the namespace and the services accept what is already there. */
  lemma StepIsWanted(ns: string, config: AgentConfig, req: Request, ip: string, outside: Outside, i: nat)
    requires i < |CreationPlan(ns, config, req, ip, outside)|
    ensures |Wanted(ns, req)| == |CreationPlan(ns, config, req, ip, outside)|
    ensures var p := CreationPlan(ns, config, req, ip, outside)[i];
            p.Planned? ==>
              && p.ref == Wanted(ns, req)[i] && IsWanted(i, p.object_, config, req, ip, outside)
              && (p.strict <==> p.ref.kind != NamespaceKind && p.ref.kind != ServiceKind)
  {
    hide CreationPlan, Wanted, PlannedService, PlannedSecret, PlannedWorkload, IsService, IsIngress, IsSecret, IsPod,
         IsConfigMap, AgentConfigMap, Parses;
    PlanAt(ns, config, req, ip, outside, i);
    WantedAt(ns, req, i);
    var services := |req.services|;
    if i < 2 {
      ConfigMapIsWanted(config, req);
    } else if i < 2 + services {
      ServiceIsWanted(ns, req.services[i - 2], req.agentId);
    } else if i < 2 + services + |req.secrets| {
      SecretIsWanted(ns, req.secrets[i - 2 - services], req.agentId, outside.files);
    } else {
      WorkloadIsWanted(ns, config, req, ip, outside);
    }
  }

  /** The names that must be free are, and none of them is asked for twice. */
  ghost predicate NamesFree(m: Store, wanted: seq<Ref>) {
    forall i | 0 <= i < |wanted| :: NameFree(m, wanted, i)
  }

  ghost predicate NameFree(m: Store, wanted: seq<Ref>, i: nat)
    requires i < |wanted|
  {
    wanted[i].kind == NamespaceKind || wanted[i].kind == ServiceKind || (wanted[i] !in m && wanted[i] !in wanted[..i])
  }

  ghost predicate AllPlanned(plan: seq<Planned>) {
    forall i | 0 <= i < |plan| :: plan[i].Planned?
  }

  lemma FeasibleInNames(m: Store, plan: seq<Planned>, wanted: seq<Ref>)
    requires WellKinded(plan) && |plan| == |wanted|
    requires forall i | 0 <= i < |plan| && plan[i].Planned? ::
               plan[i].ref == wanted[i]
               && (plan[i].strict <==> wanted[i].kind != NamespaceKind && wanted[i].kind != ServiceKind)
    ensures Feasible(m, plan) <==> AllPlanned(plan) && NamesFree(m, wanted)
  {
    hide Feasible;
    FeasibleMeans(m, plan);
    if AllPlanned(plan) {
      assert forall i | 0 <= i < |plan| :: Fits(m, plan, i) <==> NameFree(m, wanted, i);
    } else {
      var i :| 0 <= i < |plan| && plan[i].Unbuildable?;
      assert !Fits(m, plan, i);
    }
  }

  lemma FeasibleIsFree(m: Store, ns: string, config: AgentConfig, req: Request, ip: string, outside: Outside)
    ensures var plan := CreationPlan(ns, config, req, ip, outside);
            Feasible(m, plan) <==> AllPlanned(plan) && NamesFree(m, Wanted(ns, req))
  {
    hide CreationPlan, Wanted, IsWanted, Feasible, AllPlanned, NamesFree;
    var plan, wanted := CreationPlan(ns, config, req, ip, outside), Wanted(ns, req);
    PlanAt(ns, config, req, ip, outside, 0);
    forall i: nat | i < |plan|
      ensures plan[i].Planned? ==> plan[i].ref == wanted[i]
      ensures plan[i].Planned? ==>
                (plan[i].strict <==> wanted[i].kind != NamespaceKind && wanted[i].kind != ServiceKind)
    {
      StepIsWanted(ns, config, req, ip, outside, i);
    }
    FeasibleInNames(m, plan, wanted);
  }

  predicate WorkloadFits(req: Request, outside: Outside) {
    && Parses(req.limits, outside.quantity) && Parses(req.requests, outside.quantity)
    && (req.replicas.Some? ==> req.replicas.value >= 1)
  }

  lemma StepIsPlanned(ns: string, config: AgentConfig, req: Request, ip: string, outside: Outside, i: nat)
    requires i < |CreationPlan(ns, config, req, ip, outside)|
    ensures |CreationPlan(ns, config, req, ip, outside)| == 3 + |req.services| + |req.secrets|
    ensures CreationPlan(ns, config, req, ip, outside)[i].Planned? <==>
              var first := 2 + |req.services|;
              if i < first then true
              else if i < first + |req.secrets| then CanRead(req.secrets[i - first], outside.files)
              else WorkloadFits(req, outside)
  {
    hide CreationPlan, PlannedService, PlannedSecret, PlannedWorkload, Parses, IsWanted, IsSecret, IsService, IsIngress;
    PlanAt(ns, config, req, ip, outside, i);
    var first := 2 + |req.services|;
    if 2 <= i < first {
      ServiceIsWanted(ns, req.services[i - 2], req.agentId);
    } else if first <= i < first + |req.secrets| {
      SecretIsWanted(ns, req.secrets[i - first], req.agentId, outside.files);
    } else if i >= first {
      WorkloadIsWanted(ns, config, req, ip, outside);
    }
  }

  lemma AllPlannedMeans(ns: string, config: AgentConfig, req: Request, ip: string, outside: Outside)
    ensures AllPlanned(CreationPlan(ns, config, req, ip, outside)) <==>
              && (forall i | 0 <= i < |req.secrets| :: CanRead(req.secrets[i], outside.files))
              && WorkloadFits(req, outside)
  {
    hide CreationPlan, CanRead, WorkloadFits;
    var plan, first := CreationPlan(ns, config, req, ip, outside), 2 + |req.services|;
    PlanAt(ns, config, req, ip, outside, 0);
    forall i: nat | i < |plan|
      ensures plan[i].Planned? <==>
                if i < first then true
                else if i < first + |req.secrets| then CanRead(req.secrets[i - first], outside.files)
                else WorkloadFits(req, outside)
    {
      StepIsPlanned(ns, config, req, ip, outside, i);
    }
    if AllPlanned(plan) {
      assert plan[|plan| - 1].Planned?;
      forall i | 0 <= i < |req.secrets| ensures CanRead(req.secrets[i], outside.files) {
        assert plan[first + i].Planned?;
      }
    }
  }

  lemma NameFreeMeans(m: Store, ns: string, req: Request, i: nat)
    requires i < |Wanted(ns, req)|
    ensures NameFree(m, Wanted(ns, req), i) <==>
              var first := 2 + |req.services|;
              if i == 0 then true
              else if i == 1 then Ref(ConfigMapKind, ns, "agent-" + req.agentId) !in m
              else if i < first then req.services[i - 2].kind == "Ingress" ==> IngressFree(m, ns, req.services, i - 2)
              else if i < first + |req.secrets| then SecretFree(m, ns, req.secrets, i - first)
              else Ref(if req.replicas.None? then PodKind else DeploymentKind, ns, "agent-" + req.agentId) !in m
  {
    hide Wanted;
    var wanted, first := Wanted(ns, req), 2 + |req.services|;
    forall j: nat | j < |wanted| { WantedAt(ns, req, j); }
    if 2 <= i < first && req.services[i - 2].kind == "Ingress" {
      assert forall j | 0 <= j < i - 2 :: wanted[2 + j] == ServiceRef(ns, req.services[j]);
    } else if first <= i < first + |req.secrets| {
      assert forall j | 0 <= j < i - first :: wanted[first + j] == Ref(SecretKind, ns, req.secrets[j].name);
    }
  }

  lemma NamesFreeMeans(m: Store, ns: string, req: Request)
    ensures NamesFree(m, Wanted(ns, req)) <==>
              && Ref(ConfigMapKind, ns, "agent-" + req.agentId) !in m
              && (forall i | 0 <= i < |req.services| && req.services[i].kind == "Ingress" ::
                    IngressFree(m, ns, req.services, i))
              && (forall i | 0 <= i < |req.secrets| :: SecretFree(m, ns, req.secrets, i))
              && Ref(if req.replicas.None? then PodKind else DeploymentKind, ns, "agent-" + req.agentId) !in m
  {
    hide Wanted, NameFree, IngressFree, SecretFree;
    var wanted, first := Wanted(ns, req), 2 + |req.services|;
    if NamesFree(m, wanted) {
      NameFreeMeans(m, ns, req, 1);
      NameFreeMeans(m, ns, req, |wanted| - 1);
      forall i | 0 <= i < |req.services| && req.services[i].kind == "Ingress"
        ensures IngressFree(m, ns, req.services, i)
      {
        NameFreeMeans(m, ns, req, 2 + i);
      }
      forall i | 0 <= i < |req.secrets| ensures SecretFree(m, ns, req.secrets, i) {
        NameFreeMeans(m, ns, req, first + i);
      }
    } else {
      var i: nat :| i < |wanted| && !NameFree(m, wanted, i);
      NameFreeMeans(m, ns, req, i);
    }
  }

  /** The whole plan can be carried out exactly when nothing stands in the way of the request. */
  lemma ClearIsFeasible(m: Store, ns: string, config: AgentConfig, req: Request, ip: string, outside: Outside)
    ensures Feasible(m, CreationPlan(ns, config, req, ip, outside)) <==> Clear(m, ns, req, outside)
  {
    hide CreationPlan, Wanted, Feasible, NamesFree, AllPlanned, Parses, IngressFree, SecretFree, CanRead;
    FeasibleIsFree(m, ns, config, req, ip, outside);
    AllPlannedMeans(ns, config, req, ip, outside);
    NamesFreeMeans(m, ns, req);
  }

  /** After some steps of the plan: what was there, as it was, and the first objects of the order, each as wanted. */
  lemma PrefixIsWanted(m: Store, m': Store, ns: string, config: AgentConfig, req: Request, ip: string, outside: Outside,
                       k: nat)
    requires Did(m, CreationPlan(ns, config, req, ip, outside), m', k)
    ensures |CreationPlan(ns, config, req, ip, outside)| == |Wanted(ns, req)|
    ensures forall r | r in m :: r in m' && m'[r] == m[r]
    ensures forall r :: r in m' <==> r in m || r in Wanted(ns, req)[..k]
    ensures forall r | r in m' && r !in m :: Made(ns, r, m'[r], config, req, ip, outside)
  {
    hide CreationPlan, Wanted, Did, IsWanted, Made;
    var plan, wanted := CreationPlan(ns, config, req, ip, outside), Wanted(ns, req);
    AtMostAll(m, plan, m', k);
    DidMeans(m, plan, m', k);
    PlanAt(ns, config, req, ip, outside, 0);
    forall i: nat | i < k ensures plan[i].ref == wanted[i] { StepIsWanted(ns, config, req, ip, outside, i); }
    forall r ensures r in m' <==> r in m || r in wanted[..k] {
      assert r in wanted[..k] <==> exists i :: 0 <= i < k && wanted[i] == r;
    }
    forall r | r in m' && r !in m ensures Made(ns, r, m'[r], config, req, ip, outside) {
      var i: nat :| i < k && FirstStepFor(plan, r, i) && m'[r] == plan[i].object_;
      FirstIsMade(ns, config, req, ip, outside, r, i, k);
    }
  }

  lemma AtMostAll(m: Store, plan: seq<Planned>, m': Store, k: nat)
    requires WellKinded(plan) && Did(m, plan, m', k)
    ensures k <= |plan|
  {
  }

  lemma FirstIsMade(ns: string, config: AgentConfig, req: Request, ip: string, outside: Outside, r: Ref, i: nat, k: nat)
    requires var plan := CreationPlan(ns, config, req, ip, outside);
             && i < k <= |plan| && FirstStepFor(plan, r, i) && forall j | 0 <= j < k :: plan[j].Planned?
    ensures Made(ns, r, CreationPlan(ns, config, req, ip, outside)[i].object_, config, req, ip, outside)
  {
    hide CreationPlan, Wanted, IsWanted;
    forall j: nat | j <= i { StepIsWanted(ns, config, req, ip, outside, j); }
    var wanted := Wanted(ns, req);
    assert r !in wanted[..i];
  }

  /** The outcome of the plan, told without the plan. */
  lemma OutcomeMakes(m: Store, m': Store, ns: string, config: AgentConfig, req: Request, ip: string, outside: Outside,
                     trace: seq<Item<Rollout>>, ok: bool, calm: bool)
    requires CreateOutcome(m, CreationPlan(ns, config, req, ip, outside), m', ok, calm, req.replicas.Some?,
                           Succeeds(trace, RolloutReadiness))
    ensures Makes(m, m', ns, config, req, ip, outside, trace, ok, calm)
  {
    hide CreationPlan, Wanted, Did, Clear, Succeeds, RollsOut, Made;
    var plan := CreationPlan(ns, config, req, ip, outside);
    RolledOutIsSuccess(trace);
    ClearIsFeasible(m, ns, config, req, ip, outside);
    var k: nat :| k <= |plan| && Did(m, plan, m', k) && (ok ==> k == |plan|)
                  && (!ok && k == |plan| ==> req.replicas.Some?);
    PrefixIsWanted(m, m', ns, config, req, ip, outside, k);
    if ok {
      AllDone(m, plan, m');
    }
    assert Clear(m, ns, req, outside) && (req.replicas.Some? ==> RollsOut(trace)) && calm ==> ok;
    assert forall r | r in m' && r !in m :: Made(ns, r, m'[r], config, req, ip, outside);
  }

  lemma AllDone(m: Store, plan: seq<Planned>, m': Store)
    requires WellKinded(plan) && Did(m, plan, m', |plan|)
    ensures Feasible(m, plan)
  {
    assert plan[..|plan|] == plan;
  }

  lemma OneName(names: set<string>, name: string)
    requires |names| == 1 && name in names
    ensures forall other | other in names :: other == name
  {
    assert |names - {name}| == 0;
  }

  lemma NoGround(m: Store, ns: string, config: AgentConfig, req: Request)
    ensures Grounds(m, m, ns, config, req, false, false)
  {
  }

  lemma GroundsLaid(m: Store, middle: Store, m': Store, ns: string, config: AgentConfig, req: Request, ok: bool,
                    calm: bool)
    requires var space := Ref(NamespaceKind, "", ns);
             space in middle && (middle == m || (space !in m && middle == m[space := NamespaceObject]))
    requires var cm := Ref(ConfigMapKind, ns, AgentName(req.agentId));
             && (ok ==> cm !in middle) && (calm && cm !in middle ==> ok)
             && m' == if ok then middle[cm := ConfigMapObject(AgentConfigMap(config, req))] else middle
    ensures Grounds(m, m', ns, config, req, ok, calm)
  {
    hide AgentConfigMap, IsConfigMap;
    ConfigMapIsWanted(config, req);
  }

  // ---- The program ----

  class Creator {
    const provider: Provider
    const config: AgentConfig
    const outside: Outside

    constructor (provider: Provider, config: AgentConfig, outside: Outside)
      ensures this.provider == provider && this.config == config && this.outside == outside
    {
      this.provider, this.config, this.outside := provider, config, outside;
    }

    /** Create. Without exactly one network and a known context nothing is called or changed.
        Otherwise the outcome is that of the creation plan, and success returns the VM's cloud ID. */
    method Create(api: Api, req: Request, trace: seq<Item<Rollout>>) returns (res: Result<string>)
      requires Decided(trace, RolloutReadiness)
      modifies api
      ensures api.calls >= old(api.calls)
      ensures |req.networks| != 1 || provider.New(req.context).None? ==>
                api.objects == old(api.objects) && api.calls == old(api.calls) && res == Err(Rejected)
      ensures |req.networks| == 1 && provider.New(req.context).Some? ==>
                exists name | name in req.networks ::
                  CreateOutcome(old(api.objects),
                                CreationPlan(provider.New(req.context).value.ns, config, req, req.networks[name].ip,
                                             outside),
                                api.objects, res.Ok?, api.Calm(old(api.calls), api.calls),
                                req.replicas.Some?, Succeeds(trace, RolloutReadiness))
      ensures res.Ok? ==> res.value == NewCid(provider.New(req.context).value.context, req.agentId)
      ensures |req.networks| != 1 || !provider.Knows(req.context) ==>
                api.objects == old(api.objects) && api.calls == old(api.calls) && res == Err(Rejected)
      ensures |req.networks| == 1 ==> forall name, resolved, ns |
                name in req.networks && provider.Resolves(req.context, resolved, ns) ::
                && Makes(old(api.objects), api.objects, ns, config, req, req.networks[name].ip, outside, trace, res.Ok?,
                         api.Calm(old(api.calls), api.calls))
                && (res.Ok? ==> res.value == resolved + ":" + req.agentId)
    {
      hide CreateOutcome, CreationPlan, Makes, Succeeds, Provider.New, Provider.Knows, Provider.Resolves;
      provider.NewResolves(req.context);
      if |req.networks| != 1 {
        return Err(Rejected);
      }
      var name :| name in req.networks;
      OneName(req.networks.Keys, name);
      var found := provider.New(req.context);
      if found.None? {
        return Err(Rejected);
      }
      var ip := req.networks[name].ip;
      var ok := CreateFor(api, found.value, req, ip, trace);
      OutcomeMakes(old(api.objects), api.objects, found.value.ns, config, req, ip, outside, trace, ok,
                   api.Calm(old(api.calls), api.calls));
      return if ok then Ok(NewCid(found.value.context, req.agentId)) else Err(Unavailable);
    }

    method CreateFor(api: Api, client: Client, req: Request, ip: string, trace: seq<Item<Rollout>>) returns (ok: bool)
      requires Decided(trace, RolloutReadiness)
      modifies api
      ensures api.calls >= old(api.calls)
      ensures CreateOutcome(old(api.objects), CreationPlan(client.ns, config, req, ip, outside), api.objects, ok,
                            api.Calm(old(api.calls), api.calls), req.replicas.Some?, Succeeds(trace, RolloutReadiness))
    {
      ghost var start, support := api.objects, SupportPlan(client.ns, config, req, outside);
      ghost var last, ready := WorkloadPlan(client.ns, req, ip, outside), Succeeds(trace, RolloutReadiness);
      ok := CreateSupport(api, client, req);
      ghost var middle, soFar := api.objects, api.calls;
      ghost var calm := api.Calm(old(api.calls), soFar);
      if !ok {
        PartStopped(start, support, middle, last, calm);
        return;
      }
      ghost var built;
      ok, built := CreateWorkload(api, client.ns, req, ip, trace);
      OutcomeOfParts(start, support, middle, last, api.objects, ok, built, calm, api.Calm(soFar, api.calls),
                     req.replicas.Some?, ready);
    }

    /** Everything before the pod or deployment. */
    method CreateSupport(api: Api, client: Client, req: Request) returns (ok: bool)
      modifies api
      ensures api.calls >= old(api.calls)
      ensures PartDone(old(api.objects), SupportPlan(client.ns, config, req, outside), api.objects, ok,
                       api.Calm(old(api.calls), api.calls))
    {
      hide Grounds, PlannedService, PlannedSecret, AgentConfigMap, Ran, Feasible;
      ghost var start, basics := api.objects, [PlannedNamespace(client.ns), PlannedConfigMap(client.ns, config, req)];
      ghost var services, secrets := ServicePlan(client.ns, req.agentId, req.services),
                                     SecretPlan(client.ns, req.agentId, req.secrets, outside.files);
      ok := CreateBasics(api, client, req);
      ghost var m1, n1 := api.objects, api.calls;
      if !ok {
        PartStopped(start, basics, m1, services, api.Calm(old(api.calls), n1));
        PartStopped(start, basics + services, m1, secrets, api.Calm(old(api.calls), n1));
        return;
      }
      ok := CreateServices(api, client.ns, req.agentId, req.services);
      ghost var m2, n2 := api.objects, api.calls;
      PartThen(start, basics, m1, services, m2, ok, api.Calm(old(api.calls), n1), api.Calm(n1, n2));
      if !ok {
        PartStopped(start, basics + services, m2, secrets, api.Calm(old(api.calls), n1) && api.Calm(n1, n2));
        return;
      }
      ok := CreateSecrets(api, client.ns, req.agentId, req.secrets);
      PartThen(start, basics + services, m2, secrets, api.objects, ok,
               api.Calm(old(api.calls), n1) && api.Calm(n1, n2), api.Calm(n2, api.calls));
    }

    /** createNamespace: a namespace that is there already, or appears in between, is no error. */
    method CreateNamespace(api: Api, ns: string) returns (ok: bool)
      modifies api
      ensures api.calls >= old(api.calls)
      ensures var r := Ref(NamespaceKind, "", ns);
              api.objects == if ok && r !in old(api.objects) then old(api.objects)[r := NamespaceObject]
                             else old(api.objects)
      ensures api.Calm(old(api.calls), api.calls) ==> ok
    {
      var r := Ref(NamespaceKind, "", ns);
      var got := api.Get(r);
      if got.Ok? {
        return true;
      }
      var created := api.Create(r, NamespaceObject);
      return created.Ok? || created.error == AlreadyExists;
    }

    /** createNamespace and createConfigMap. */
    method CreateBasics(api: Api, client: Client, req: Request) returns (ok: bool)
      modifies api
      ensures api.calls >= old(api.calls)
      ensures PartDone(old(api.objects), [PlannedNamespace(client.ns), PlannedConfigMap(client.ns, config, req)],
                       api.objects, ok, api.Calm(old(api.calls), api.calls))
      ensures Grounds(old(api.objects), api.objects, client.ns, config, req, ok, api.Calm(old(api.calls), api.calls))
    {
      hide AgentConfigMap, Grounds;
      ghost var start, plan := api.objects, [PlannedNamespace(client.ns), PlannedConfigMap(client.ns, config, req)];
      assert Did(start, plan, start, 0) && plan[..2] == plan;
      FeasibleStep(start, plan, start, 0);
      ok := CreateNamespace(api, client.ns);
      ghost var middle := api.objects;
      if !ok {
        NoGround(start, client.ns, config, req);
        return;
      }
      DidOneMore(start, plan, start, 0);
      FeasibleStep(start, plan, api.objects, 1);
      var res := api.Create(Ref(ConfigMapKind, client.ns, AgentName(req.agentId)),
                            ConfigMapObject(AgentConfigMap(config, req)));
      GroundsLaid(start, middle, api.objects, client.ns, config, req, res.Ok?, api.Calm(old(api.calls), api.calls));
      if res.Err? {
        return false;
      }
      DidOneMore(start, plan, Placed(start, plan[0]), 1);
    }

    /** createServices: an ingress is created, any other service got or created. */
    method CreateServices(api: Api, ns: string, id: string, defs: seq<ServiceDef>) returns (ok: bool)
      modifies api
      ensures api.calls >= old(api.calls)
      ensures PartDone(old(api.objects), ServicePlan(ns, id, defs), api.objects, ok,
                       api.Calm(old(api.calls), api.calls))
    {
      ghost var start, plan := api.objects, ServicePlan(ns, id, defs);
      for i := 0 to |defs|
        invariant api.calls >= old(api.calls)
        invariant Did(start, plan, api.objects, i)
      {
        var def := defs[i];
        FeasibleStep(start, plan, api.objects, i);
        ghost var before := api.objects;
        assert plan[i] == PlannedService(ns, id, def);
        if def.kind == "Ingress" {
          var res := api.Create(Ref(IngressKind, ns, def.name),
                                IngressObject(Ingress(Mine(id), def.backend, def.tls, def.rules)));
          if res.Err? {
            return false;
          }
        } else {
          var service := BuildService(def, id);
          ok := GetOrCreate(api, Ref(ServiceKind, ns, def.name), service);
          if !ok {
            return false;
          }
        }
        DidOneMore(start, plan, before, i);
      }
      assert plan[..|defs|] == plan;
      return true;
    }

    /** The get-or-create step: an existing service is kept, whoever owns it. */
    method GetOrCreate(api: Api, r: Ref, service: Service) returns (ok: bool)
      requires r.kind == ServiceKind
      modifies api
      ensures api.calls >= old(api.calls)
      ensures api.objects == if ok then Placed(old(api.objects), Planned(r, ServiceObject(service), false))
               else old(api.objects)
      ensures api.Calm(old(api.calls), api.calls) ==> ok
    {
      var got := api.Get(r);
      if got.Err? {
        var res := api.Create(r, ServiceObject(service));
        return res.Ok?;
      }
      return true;
    }

    method BuildService(def: ServiceDef, id: string) returns (service: Service)
      ensures service == ServiceOf(def, id)
      ensures IsService(service, def, id)
    {
      var serviceType := "ClusterIP";
      match def.kind {
        case "NodePort" => serviceType := "NodePort";
        case "LoadBalancer" => serviceType := "LoadBalancer";
        case _ =>
      }
      var ports := [];
      for i := 0 to |def.ports|
        invariant |ports| == i && forall k | 0 <= k < i :: ports[k] == PortOf(def.ports[k])
      {
        ports := ports + [PortOf(def.ports[i])];
      }
      assert ports == PortsOf(def.ports);
      service := Service(Mine(id), serviceType, def.clusterIP, ports, def.externalIPs, "", map[]);
      if serviceType == "LoadBalancer" && |def.loadBalancerIP| != 0 {
        service := service.(loadBalancerIP := def.loadBalancerIP);
      }
      service := service.(selector := if |def.selector| != 0 then def.selector else Mine(id));
    }

    /** createSecret: an existing secret is an error, found by a read or by the create. */
    method CreateSecrets(api: Api, ns: string, id: string, defs: seq<SecretDef>) returns (ok: bool)
      modifies api
      ensures api.calls >= old(api.calls)
      ensures PartDone(old(api.objects), SecretPlan(ns, id, defs, outside.files), api.objects, ok,
                       api.Calm(old(api.calls), api.calls))
    {
      hide PayloadOf, SecretTypeOf, Feasible, Built;
      ghost var start, plan := api.objects, SecretPlan(ns, id, defs, outside.files);
      DidNothing(start, plan);
      for i := 0 to |defs|
        invariant api.calls >= old(api.calls)
        invariant Did(start, plan, api.objects, i)
      {
        var def := defs[i];
        FeasibleStep(start, plan, api.objects, i);
        ghost var before := api.objects;
        var r := Ref(SecretKind, ns, def.name);
        var got := api.Get(r);
        if got.Ok? {
          return false;
        }
        var payload := BuildPayload(def.data);
        if payload.None? {
          return false;
        }
        var secret := Secret(Mine(id), def.annotations, payload.value, def.stringData, SecretTypeOf(def.kind));
        var res := api.Create(r, SecretObject(secret));
        if res.Err? {
          return false;
        }
        DidOneMore(start, plan, before, i);
      }
      assert plan[..|defs|] == plan;
      return true;
    }

    /** The data loop of createSecret, over the entries in any order. */
    method BuildPayload(data: map<string, string>) returns (payload: Option<map<string, string>>)
      ensures payload == PayloadOf(data, outside.files)
      ensures payload.None? <==> ".dockercfg" in data && data[".dockercfg"] !in outside.files
      ensures payload.Some? ==>
                && payload.value.Keys == data.Keys
                && (forall k | k in data && k != ".dockercfg" :: payload.value[k] == data[k])
                && (".dockercfg" in data ==> payload.value[".dockercfg"] == outside.files[data[".dockercfg"]])
    {
      var todo, out := data.Keys, map[];
      while todo != {}
        invariant todo <= data.Keys && out.Keys == data.Keys - todo
        invariant forall k | k in out :: k != DOCKERCFG ==> out[k] == data[k]
        invariant DOCKERCFG in out
                 ==> data[DOCKERCFG] in outside.files && out[DOCKERCFG] == outside.files[data[DOCKERCFG]]
        decreases todo
      {
        var k :| k in todo;
        todo := todo - {k};
        if k == DOCKERCFG {
          if data[k] !in outside.files {
            return None;
          }
          out := out[k := outside.files[data[k]]];
        } else {
          out := out[k := data[k]];
        }
      }
      if DOCKERCFG in data {
        assert out == data[DOCKERCFG := outside.files[data[DOCKERCFG]]];
      } else {
        assert out == data;
      }
      return Some(out);
    }

    /** createPod, or createDeployment with its wait. `built` says whether the object is there. */
    method CreateWorkload(api: Api, ns: string, req: Request, ip: string, trace: seq<Item<Rollout>>)
      returns (ok: bool, ghost built: bool)
      requires Decided(trace, RolloutReadiness)
      modifies api
      ensures api.calls >= old(api.calls)
      ensures LastStep(old(api.objects), WorkloadPlan(ns, req, ip, outside), api.objects, ok, built,
                       api.Calm(old(api.calls), api.calls), req.replicas.Some?, Succeeds(trace, RolloutReadiness))
    {
      hide ResourcesOf, BaseSpec;
      ghost var start, plan := api.objects, WorkloadPlan(ns, req, ip, outside);
      assert Did(start, plan, start, 0) && plan[..1] == plan;
      FeasibleStep(start, plan, start, 0);
      var limits := BuildResources(req.limits);
      var requests := BuildResources(req.requests);
      if limits.None? || requests.None? || (req.replicas.Some? && req.replicas.value < 1) {
        return false, false;
      }
      var workload := Workload(req.image, ["/usr/sbin/runsvdir-start"], true, 0, limits.value, requests.value);
      if req.replicas.None? {
        var annotations := map[];
        if |ip| > 0 {
          annotations := annotations[IP_ANNOTATION := ip];
        }
        var res := api.Create(Ref(PodKind, ns, AgentName(req.agentId)),
                              PodObject(AgentPod(req.agentId, workload, annotations)));
        if res.Err? {
          return false, false;
        }
        DidOneMore(start, plan, start, 0);
        return true, true;
      }
      var res := api.Create(Ref(DeploymentKind, ns, AgentName(req.agentId)),
                            DeploymentObject(Deployment(req.replicas.value, AgentPod(req.agentId, workload, map[]))));
      if res.Err? {
        return false, false;
      }
      DidOneMore(start, plan, start, 0);
      var open := api.Watch();
      if !open {
        return false, true;
      }
      var out, _ := Wait(trace, RolloutReadiness);
      return out == Succeeded, true;
    }

    /** getResourceList, over the entries in any order. */
    method BuildResources(list: Option<map<string, string>>) returns (out: Option<Option<map<string, string>>>)
      ensures out == ResourcesOf(list, outside.quantity)
      ensures out.Some? <==> Parses(list, outside.quantity)
      ensures out.Some? ==> IsParsed(out.value, list, outside.quantity)
    {
      ResourcesAreParsed(list, outside.quantity);
      if list.None? {
        return Some(None);
      }
      var entries := list.value;
      var todo, found := entries.Keys, map[];
      while todo != {}
        invariant todo <= entries.Keys && found.Keys == entries.Keys - todo
        invariant forall k | k in found ::
                    (k == "cpu" || k == "memory") && outside.quantity(entries[k]) == Some(found[k])
        decreases todo
      {
        var k :| k in todo;
        todo := todo - {k};
        var quantity := outside.quantity(entries[k]);
        if quantity.None? || (k != "cpu" && k != "memory") {
          return None;
        }
        found := found[k := quantity.value];
      }
      assert found == map k | k in entries :: outside.quantity(entries[k]).GetOr("");
      return Some(Some(found));
    }
  }
}
