/** What creating and deleting a VM does to the cluster as a whole, and how a created VM starts the
    attach and detach runs. */
module Lifecycle {
  import opened Basics
  import opened Names
  import opened Settings
  import opened PodSpecs
  import opened Selectors
  import opened Cluster
  import opened Plans
  import opened Requests
  import opened CreateVM
  import opened DeleteVM
  import Recreate
  import Attachments
  import Agreement

  // ---- Creation only adds ----

  /** Whatever happened, Create changed and removed nothing; and what it added is the objects of a prefix
      of the plan, each as its first mention in that prefix says. */
  lemma CreateOnlyAdds(m: Store, plan: seq<Planned>, m': Store, ok: bool, calm: bool, waits: bool, ready: bool)
    requires WellKinded(plan) && CreateOutcome(m, plan, m', ok, calm, waits, ready)
    ensures forall r | r in m :: r in m' && m'[r] == m[r]
    ensures exists k: nat ::
              && k <= |plan|
              && (ok ==> k == |plan|)
              && (k == |plan| ==> ok || waits)
              && forall r | r !in m :: if r in m' then FirstFor(plan[..k], r) == Some(m'[r])
                   else FirstFor(plan[..k], r).None?
  {
    var k: nat :| k <= |plan| && Did(m, plan, m', k) && (ok ==> k == |plan|) && (k == |plan| ==> ok || waits);
    assert Did(m, plan, m', k);
    assert m' == Built(m, plan[..k]);
    forall r: Ref
      ensures r in m ==> r in m' && m'[r] == m[r]
      ensures r !in m ==> if r in m' then FirstFor(plan[..k], r) == Some(m'[r]) else FirstFor(plan[..k], r).None?
    {
      BuiltIsMerge(m, plan[..k], r);
    }
  }

  /** The first plain service of a name in the request, ingresses passed over. */
  function FirstService(defs: seq<ServiceDef>, name: string): Option<ServiceDef> {
    if defs == [] then None
    else if defs[0].kind != "Ingress" && defs[0].name == name then Some(defs[0])
    else FirstService(defs[1..], name)
  }

  lemma {:induction false} FirstServiceInPlan(ns: string, id: string, defs: seq<ServiceDef>, name: string)
    ensures FirstFor(ServicePlan(ns, id, defs), Ref(ServiceKind, ns, name)) ==
              var def := FirstService(defs, name);
              if def.None? then None else Some(ServiceObject(ServiceOf(def.value, id)))
  {
    if defs != [] {
      assert ServicePlan(ns, id, defs)[1..] == ServicePlan(ns, id, defs[1..]);
      FirstServiceInPlan(ns, id, defs[1..], name);
    }
  }

  /** The lookup of a reference in a whole creation plan is its lookup in the one part of its kind. */
  lemma PlanByKind(ns: string, config: AgentConfig, req: Request, ip: string, outside: Outside, r: Ref)
    ensures var plan := CreationPlan(ns, config, req, ip, outside);
            FirstFor(plan, r) ==
            match r.kind
            case NamespaceKind | ConfigMapKind => FirstFor([PlannedNamespace(ns), PlannedConfigMap(ns, config, req)], r)
            case ServiceKind | IngressKind => FirstFor(ServicePlan(ns, req.agentId, req.services), r)
            case SecretKind => FirstFor(SecretPlan(ns, req.agentId, req.secrets, outside.files), r)
            case _ => FirstFor(WorkloadPlan(ns, req, ip, outside), r)
  {
    var basics := [PlannedNamespace(ns), PlannedConfigMap(ns, config, req)];
    var services := ServicePlan(ns, req.agentId, req.services);
    var secrets := SecretPlan(ns, req.agentId, req.secrets, outside.files);
    var last := WorkloadPlan(ns, req, ip, outside);
    FirstForConcat(basics, services, r);
    FirstForConcat(basics + services, secrets, r);
    FirstForConcat(basics + services + secrets, last, r);
    OfOtherKinds(ns, config, req, ip, outside, r);
    hide ServicePlan, SecretPlan, WorkloadPlan, PlannedNamespace, PlannedConfigMap, FirstFor;
  }

  /** Each part of the plan holds objects of its own kinds only. */
  lemma OfOtherKinds(ns: string, config: AgentConfig, req: Request, ip: string, outside: Outside, r: Ref)
    ensures r.kind != NamespaceKind && r.kind != ConfigMapKind ==>
              FirstFor([PlannedNamespace(ns), PlannedConfigMap(ns, config, req)], r).None?
    ensures r.kind != ServiceKind && r.kind != IngressKind ==>
              FirstFor(ServicePlan(ns, req.agentId, req.services), r).None?
    ensures r.kind != SecretKind ==> FirstFor(SecretPlan(ns, req.agentId, req.secrets, outside.files), r).None?
    ensures r.kind != PodKind && r.kind != DeploymentKind ==> FirstFor(WorkloadPlan(ns, req, ip, outside), r).None?
  {
    FirstForNone([PlannedNamespace(ns), PlannedConfigMap(ns, config, req)], r);
    FirstForNone(ServicePlan(ns, req.agentId, req.services), r);
    FirstForNone(SecretPlan(ns, req.agentId, req.secrets, outside.files), r);
    FirstForNone(WorkloadPlan(ns, req, ip, outside), r);
  }

  /** Get-or-create is a left-biased merge: after a successful Create each plain service that existed is as
      it was, owner label and all; each listed name that was absent has the first listed definition; there
      are no others. */
  lemma ServicesMergeLeftBiased(m: Store, ns: string, config: AgentConfig, req: Request, ip: string, outside: Outside,
                                m': Store, name: string)
    requires Ran(m, CreationPlan(ns, config, req, ip, outside), m', true)
    ensures var r, def := Ref(ServiceKind, ns, name), FirstService(req.services, name);
            && (r in m' <==> r in m || def.Some?)
            && (r in m ==> m'[r] == m[r])
            && (r !in m && def.Some? ==> m'[r] == ServiceObject(ServiceOf(def.value, req.agentId)))
  {
    var plan, r := CreationPlan(ns, config, req, ip, outside), Ref(ServiceKind, ns, name);
    assert plan[..|plan|] == plan;
    BuiltIsMerge(m, plan, r);
    PlanByKind(ns, config, req, ip, outside, r);
    FirstServiceInPlan(ns, req.agentId, req.services, name);
  }

  /** Every step of a plan that was carried out could be built; and a strict one made a new object,
      under a name that was free and that no earlier step used. */
  lemma StrictStepIsNew(m: Store, plan: seq<Planned>, m': Store, i: nat)
    requires WellKinded(plan) && Ran(m, plan, m', true) && i < |plan|
    ensures plan[i].Planned?
    ensures plan[i].strict ==> plan[i].ref !in m && plan[i].ref in m' && m'[plan[i].ref] == plan[i].object_
    ensures plan[i].strict ==> forall j | 0 <= j < i :: plan[j].Planned? ==> plan[j].ref != plan[i].ref
  {
    hide Placed, Built, Feasible;
    assert plan[..|plan|] == plan;
    FeasiblePrefix(m, plan, i);
    if plan[i].strict {
      var r := plan[i].ref;
      BuiltIsMerge(m, plan[..i], r);
      BuiltIsMerge(m, plan, r);
      assert plan == plan[..i] + plan[i..];
      FirstForConcat(plan[..i], plan[i..], r);
      FirstForNone(plan[..i], r);
      assert forall j | 0 <= j < i :: plan[j] == plan[..i][j];
    }
  }

  // ---- Create, then delete ----

  predicate KeptKind(kind: Kind) {
    kind != PodKind && kind != ConfigMapKind && kind != ServiceKind
  }

  /** The steps of a plan whose objects no Delete removes. */
  function Kept(plan: seq<Planned>): seq<Planned>
    decreases |plan|
  {
    if plan == [] then []
    else
      var front, last := Kept(plan[..|plan| - 1]), plan[|plan| - 1];
      if last.Planned? && KeptKind(last.ref.kind) then front + [last] else front
  }

  /** Every object of a plan that Delete can remove is one it will remove. */
  ghost predicate Owned(plan: seq<Planned>, ns: string, id: string) {
    forall p | p in plan :: p.Planned? ==> KeptKind(p.ref.kind) || IsDoomed(p.ref, p.object_, ns, id)
  }

  /** Deleting after carrying out a plan is carrying out its kept steps after deleting: for every cluster
      and every plan, finished or not. */
  lemma {:induction false} PurgeOfBuilt(m: Store, plan: seq<Planned>, ns: string, id: string)
    requires WellKinded(plan) && Owned(plan, ns, id)
    ensures WellKinded(Kept(plan))
    ensures Purge(Built(m, plan), ns, id) == Built(Purge(m, ns, id), Kept(plan))
    decreases |plan|
  {
    if plan != [] {
      var front, last := plan[..|plan| - 1], plan[|plan| - 1];
      assert last in plan && forall p | p in front :: p in plan;
      PurgeOfBuilt(m, front, ns, id);
      PurgeOfPlaced(Built(m, front), last, ns, id);
    }
  }

  lemma PurgeOfPlaced(m: Store, p: Planned, ns: string, id: string)
    requires p.Planned? ==> KindOf(p.object_) == p.ref.kind
    requires p.Planned? ==> KeptKind(p.ref.kind) || IsDoomed(p.ref, p.object_, ns, id)
    ensures Purge(Placed(m, p), ns, id) ==
            if p.Planned? && KeptKind(p.ref.kind) then Placed(Purge(m, ns, id), p) else Purge(m, ns, id)
  {
  }

  lemma CreationPlanIsOwned(ns: string, config: AgentConfig, req: Request, ip: string, outside: Outside)
    requires IsLabelValue(req.agentId)
    ensures Owned(CreationPlan(ns, config, req, ip, outside), ns, req.agentId)
  {
    hide IsLabelValue, Selected, ServiceOf;
    var id := req.agentId;
    forall def ensures var p := PlannedService(ns, id, def);
                       KeptKind(p.ref.kind) || IsDoomed(p.ref, p.object_, ns, id)
    {
      ServiceIsDoomed(ns, id, def);
    }
    assert Owned(ServicePlan(ns, id, req.services), ns, id);
    assert Owned(SecretPlan(ns, id, req.secrets, outside.files), ns, id);
    assert Owned(WorkloadPlan(ns, req, ip, outside), ns, id);
  }

  ghost predicate ListsIngress(ns: string, defs: seq<ServiceDef>, r: Ref) {
    exists i :: 0 <= i < |defs| && defs[i].kind == "Ingress" && r == Ref(IngressKind, ns, defs[i].name)
  }

  ghost predicate ListsService(ns: string, defs: seq<ServiceDef>, r: Ref) {
    r.kind == ServiceKind && r.ns == ns && FirstService(defs, r.name).Some?
  }

  /** What a creation leaves behind once its VM is deleted: the namespace, the listed ingresses and secrets,
      with replicas the deployment, and the services if no selector can find them. */
  ghost predicate Residue(ns: string, req: Request, r: Ref) {
    || r == Ref(NamespaceKind, "", ns)
    || ListsIngress(ns, req.services, r)
    || (exists i :: 0 <= i < |req.secrets| && r == Ref(SecretKind, ns, req.secrets[i].name))
    || (req.replicas.Some? && r == Ref(DeploymentKind, ns, AgentName(req.agentId)))
    || (!IsLabelValue(req.agentId) && ListsService(ns, req.services, r))
  }

  /** A successful Create followed by a successful Delete, on any cluster: what remains is the original
      cluster without what Delete was after, unaltered, plus exactly the residue, each object of it as the
      plan first gives it. */
  lemma ResidueIsExact(m: Store, ns: string, config: AgentConfig, req: Request, ip: string, outside: Outside, m': Store)
    requires Ran(m, CreationPlan(ns, config, req, ip, outside), m', true)
    ensures var plan, id, after := CreationPlan(ns, config, req, ip, outside), req.agentId, Purge(m', ns, req.agentId);
            && (forall r :: r in after <==> if r in m then !IsDoomed(r, m[r], ns, id) else Residue(ns, req, r))
            && (forall r | r in after :: if r in m then after[r] == m[r] else Some(after[r]) == FirstFor(plan, r))
  {
    hide CreationPlan, FirstFor, Purge, IsDoomed, Ran, Residue;
    var plan, id, after := CreationPlan(ns, config, req, ip, outside), req.agentId, Purge(m', ns, req.agentId);
    WholePlanBuilt(m, plan, m');
    AllBuilt(m, ns, config, req, ip, outside, m');
    forall r
      ensures r in after <==> if r in m then !IsDoomed(r, m[r], ns, id) else Residue(ns, req, r)
      ensures r in after ==> if r in m then after[r] == m[r] else Some(after[r]) == FirstFor(plan, r)
    {
      FirstInPlanIsResidue(ns, config, req, ip, outside, r);
      PurgedAfterwards(m, plan, ns, id, r);
    }
  }

  lemma WholePlanBuilt(m: Store, plan: seq<Planned>, m': Store)
    requires WellKinded(plan) && Ran(m, plan, m', true)
    ensures m' == Built(m, plan)
  {
    assert plan[..|plan|] == plan;
  }

  /** What is there, of an object that was there and of one that was not, once a plan was carried out up to a step
      and Delete went through. */
  ghost predicate Afterwards(m: Store, plan: seq<Planned>, after: Store, ns: string, id: string, r: Ref) {
    var first := FirstFor(plan, r);
    && (r in after <==> if r in m then !IsDoomed(r, m[r], ns, id)
                        else first.Some? && !IsDoomed(r, first.value, ns, id))
    && (r in after ==> if r in m then after[r] == m[r] else Some(after[r]) == first)
  }

  lemma PurgedAfterwards(m: Store, plan: seq<Planned>, ns: string, id: string, r: Ref)
    requires WellKinded(plan)
    ensures Afterwards(m, plan, Purge(Built(m, plan), ns, id), ns, id, r)
  {
    hide IsDoomed;
    BuiltIsMerge(m, plan, r);
  }

  /** Create then Delete loses nothing of the original cluster exactly when the agent's selector found no service
      yet and, with replicas, no pod had its name. For a valid label value the selector finds what carries it. */
  lemma NothingLostExactly(m: Store, ns: string, config: AgentConfig, req: Request, ip: string, outside: Outside,
                           m': Store)
    requires Ran(m, CreationPlan(ns, config, req, ip, outside), m', true)
    ensures (forall r | r in m :: r in Purge(m', ns, req.agentId))
       <==> (&& Selecting(m, ServiceKind, ns, AGENT_LABEL, req.agentId) == {}
             && (req.replicas.Some? ==> Ref(PodKind, ns, AgentName(req.agentId)) !in m))
    ensures IsLabelValue(req.agentId) ==>
              Selecting(m, ServiceKind, ns, AGENT_LABEL, req.agentId)
              == Labelled(m, ServiceKind, ns, AGENT_LABEL, req.agentId)
  {
    hide CreationPlan, FirstFor, Purge, IsDoomed, Ran, Selecting, Labelled, IsLabelValue, Residue;
    ResidueIsExact(m, ns, config, req, ip, outside, m');
    OwnNamesWereFree(m, ns, config, req, ip, outside, m');
    OnlyServicesWereThere(m, ns, req.agentId);
    if IsLabelValue(req.agentId) {
      SelectingIsLabelled(m, ServiceKind, ns, AGENT_LABEL, req.agentId);
    }
  }

  /** What Delete is after, taken apart. */
  lemma OnlyServicesWereThere(m: Store, ns: string, id: string)
    ensures (forall r | r in m :: !IsDoomed(r, m[r], ns, id))
       <==> (&& Selecting(m, ServiceKind, ns, AGENT_LABEL, id) == {}
             && Ref(PodKind, ns, AgentName(id)) !in m && Ref(ConfigMapKind, ns, AgentName(id)) !in m)
  {
    hide Selected;
    if r :| r in m && IsDoomed(r, m[r], ns, id) {
      if r.kind == ServiceKind {
        assert r in Selecting(m, ServiceKind, ns, AGENT_LABEL, id);
      }
    }
    if r :| r in Selecting(m, ServiceKind, ns, AGENT_LABEL, id) {
      assert r in m && IsDoomed(r, m[r], ns, id);
    }
  }

  /** A Create that went through found no config map, and no pod where it makes one. */
  lemma OwnNamesWereFree(m: Store, ns: string, config: AgentConfig, req: Request, ip: string, outside: Outside,
                         m': Store)
    requires Ran(m, CreationPlan(ns, config, req, ip, outside), m', true)
    ensures Ref(ConfigMapKind, ns, AgentName(req.agentId)) !in m
    ensures req.replicas.None? ==> Ref(PodKind, ns, AgentName(req.agentId)) !in m
  {
    var plan := CreationPlan(ns, config, req, ip, outside);
    PartsOfPlan(ns, config, req, ip, outside);
    StrictStepIsNew(m, plan, m', 1);
    StrictStepIsNew(m, plan, m', |plan| - 1);
  }

  lemma IngressListed(ns: string, id: string, defs: seq<ServiceDef>, r: Ref)
    requires r.kind == IngressKind
    ensures FirstFor(ServicePlan(ns, id, defs), r).Some? <==> ListsIngress(ns, defs, r)
  {
    var plan := ServicePlan(ns, id, defs);
    FirstForNone(plan, r);
    assert forall i | 0 <= i < |defs| :: plan[i] == PlannedService(ns, id, defs[i]);
    if i :| 0 <= i < |defs| && defs[i].kind == "Ingress" && r == Ref(IngressKind, ns, defs[i].name) {
      assert plan[i].ref == r;
    }
  }

  lemma SecretListed(ns: string, id: string, defs: seq<SecretDef>, files: map<string, string>, r: Ref)
    requires forall i | 0 <= i < |defs| :: PlannedSecret(ns, id, defs[i], files).Planned?
    ensures FirstFor(SecretPlan(ns, id, defs, files), r).Some? <==>
              exists i :: 0 <= i < |defs| && r == Ref(SecretKind, ns, defs[i].name)
  {
    var plan := SecretPlan(ns, id, defs, files);
    FirstForNone(plan, r);
    assert forall i | 0 <= i < |defs| :: plan[i].Planned? && plan[i].ref == Ref(SecretKind, ns, defs[i].name);
  }

  lemma WorkloadListed(ns: string, req: Request, ip: string, outside: Outside, r: Ref)
    requires PlannedWorkload(ns, req, ip, outside).Planned?
    ensures FirstFor(WorkloadPlan(ns, req, ip, outside), r).Some? <==>
              r == Ref(if req.replicas.None? then PodKind else DeploymentKind, ns, AgentName(req.agentId))
  {
  }

  lemma BasicsListed(ns: string, config: AgentConfig, req: Request, r: Ref)
    ensures FirstFor([PlannedNamespace(ns), PlannedConfigMap(ns, config, req)], r).Some? <==>
              r == Ref(NamespaceKind, "", ns) || r == Ref(ConfigMapKind, ns, AgentName(req.agentId))
  {
    FirstForNone([PlannedNamespace(ns), PlannedConfigMap(ns, config, req)], r);
  }

  /** Delete finds a created service by its label exactly when the identifier is a valid label value. */
  lemma ServiceIsDoomed(ns: string, id: string, def: ServiceDef)
    ensures IsDoomed(Ref(ServiceKind, ns, def.name), ServiceObject(ServiceOf(def, id)), ns, id) <==> IsLabelValue(id)
  {
    hide IsLabelValue, Selected;
    var labels := LabelsOf(ServiceObject(ServiceOf(def, id)));
    if IsLabelValue(id) {
      SelectingIsLabelled(map[], ServiceKind, ns, AGENT_LABEL, id);
    } else if Selected(AGENT_LABEL, id, labels) {
      IdentifyingKeys();
      InvalidReachesOthers(AGENT_LABEL, id, labels);
    }
  }

  lemma ServiceListed(ns: string, id: string, defs: seq<ServiceDef>, r: Ref)
    requires r.kind == ServiceKind
    ensures FirstFor(ServicePlan(ns, id, defs), r).Some? <==> ListsService(ns, defs, r)
    ensures FirstFor(ServicePlan(ns, id, defs), r).Some? ==>
              (IsDoomed(r, FirstFor(ServicePlan(ns, id, defs), r).value, ns, id) <==> IsLabelValue(id))
  {
    hide IsLabelValue, IsDoomed, ServiceOf;
    if r.ns == ns {
      FirstServiceInPlan(ns, id, defs, r.name);
      if FirstService(defs, r.name).Some? {
        ServiceNamed(defs, r.name);
        ServiceIsDoomed(ns, id, FirstService(defs, r.name).value);
      }
    } else {
      FirstForNone(ServicePlan(ns, id, defs), r);
    }
  }

  lemma {:induction false} ServiceNamed(defs: seq<ServiceDef>, name: string)
    requires FirstService(defs, name).Some?
    ensures FirstService(defs, name).value.name == name
  {
    if !(defs[0].kind != "Ingress" && defs[0].name == name) {
      ServiceNamed(defs[1..], name);
    }
  }

  /** When every part could be built, the references of the plan that Delete is not after are the residue. */
  lemma FirstInPlanIsResidue(ns: string, config: AgentConfig, req: Request, ip: string, outside: Outside, r: Ref)
    requires PlannedWorkload(ns, req, ip, outside).Planned?
    requires forall i | 0 <= i < |req.secrets| :: PlannedSecret(ns, req.agentId, req.secrets[i], outside.files).Planned?
    ensures var first := FirstFor(CreationPlan(ns, config, req, ip, outside), r);
            Residue(ns, req, r) <==> first.Some? && !IsDoomed(r, first.value, ns, req.agentId)
  {
    hide IsLabelValue, Selected, FirstService, PlannedWorkload, PlannedSecret, FirstFor, ServicePlan;
    PlanByKind(ns, config, req, ip, outside, r);
    match r.kind {
      case ServiceKind => ServiceListed(ns, req.agentId, req.services, r);
      case IngressKind => IngressListed(ns, req.agentId, req.services, r);
      case SecretKind => SecretListed(ns, req.agentId, req.secrets, outside.files, r);
      case NamespaceKind | ConfigMapKind => BasicsListed(ns, config, req, r);
      case _ => WorkloadListed(ns, req, ip, outside, r);
    }
  }

  lemma AllBuilt(m: Store, ns: string, config: AgentConfig, req: Request, ip: string, outside: Outside, m': Store)
    requires Ran(m, CreationPlan(ns, config, req, ip, outside), m', true)
    ensures PlannedWorkload(ns, req, ip, outside).Planned?
    ensures forall i | 0 <= i < |req.secrets| :: PlannedSecret(ns, req.agentId, req.secrets[i], outside.files).Planned?
  {
    var plan := CreationPlan(ns, config, req, ip, outside);
    forall i | 0 <= i < |plan| ensures plan[i].Planned? { StrictStepIsNew(m, plan, m', i); }
    PartsOfPlan(ns, config, req, ip, outside);
  }

  /** Where the config map, the secrets and the workload stand in the plan. */
  lemma PartsOfPlan(ns: string, config: AgentConfig, req: Request, ip: string, outside: Outside)
    ensures var plan := CreationPlan(ns, config, req, ip, outside);
            && |plan| == 3 + |req.services| + |req.secrets|
            && plan[1] == PlannedConfigMap(ns, config, req)
            && plan[|plan| - 1] == PlannedWorkload(ns, req, ip, outside)
            && forall i | 0 <= i < |req.secrets| ::
                 plan[2 + |req.services| + i] == PlannedSecret(ns, req.agentId, req.secrets[i], outside.files)
  {
    var secrets := SecretPlan(ns, req.agentId, req.secrets, outside.files);
    var plan := CreationPlan(ns, config, req, ip, outside);
    assert plan[2 + |req.services|..][..|secrets|] == secrets;
    assert forall i | 0 <= i < |secrets| :: plan[2 + |req.services| + i] == secrets[i];
  }

  /** Deleting after a Create that failed part way: what remains is what a prefix of the plan added and Delete is not
      after, and what was there and Delete is not after. For a valid label value that is what the kept steps of the
      prefix make. */
  lemma CleanupAfterFailure(m: Store, ns: string, config: AgentConfig, req: Request, ip: string, outside: Outside,
                            m': Store)
    requires Ran(m, CreationPlan(ns, config, req, ip, outside), m', false)
    ensures var plan, id := CreationPlan(ns, config, req, ip, outside), req.agentId;
            exists k: nat ::
              && k < |plan|
              && (forall r :: Afterwards(m, plan[..k], Purge(m', ns, id), ns, id, r))
              && (IsLabelValue(id) ==>
                    WellKinded(Kept(plan[..k])) && Purge(m', ns, id) == Built(Purge(m, ns, id), Kept(plan[..k])))
  {
    hide CreationPlan, Purge, IsDoomed, IsLabelValue, FirstFor, Built, Afterwards;
    var plan, id := CreationPlan(ns, config, req, ip, outside), req.agentId;
    var k: nat :| k < |plan| && Did(m, plan, m', k);
    forall r ensures Afterwards(m, plan[..k], Purge(m', ns, id), ns, id, r) {
      PurgedAfterwards(m, plan[..k], ns, id, r);
    }
    if IsLabelValue(id) {
      CreationPlanIsOwned(ns, config, req, ip, outside);
      PurgeOfBuilt(m, plan[..k], ns, id);
    }
    assert k < |plan| && Did(m, plan, m', k);
  }

  // ---- From creation to the disks ----

  /** The account of a pod-backed VM starts with its creation. */
  function ProfileOf(ns: string, config: AgentConfig, req: Request, ip: string, outside: Outside): Attachments.Profile
    requires PlannedWorkload(ns, req, ip, outside).Planned? && req.replicas.None?
  {
    Attachments.Profile(PlannedWorkload(ns, req, ip, outside).object_.pod.spec, map[], ip,
                        RestOf(InstanceSettings(config, req)), Mine(req.agentId), map[])
  }

  lemma BaseSpecIsPlain(id: string, workload: Workload)
    ensures Plain(BaseSpec(id, workload)) && NoClaims(BaseSpec(id, workload))
  {
    var base := BaseSpec(id, workload);
    assert JobIndex(base.containers) == 0;
    forall d ensures DiskAbsent(base, d) {
      assert DiskName(d)[0] == 'd' && "bosh-config"[0] == 'b' && "bosh-ephemeral"[0] == 'b';
    }
  }

  lemma CreatedObjects(m: Store, ns: string, config: AgentConfig, req: Request, ip: string, outside: Outside, m': Store)
    requires Ran(m, CreationPlan(ns, config, req, ip, outside), m', true) && req.replicas.None?
    ensures PlannedWorkload(ns, req, ip, outside).Planned?
    ensures PodAt(m', ns, AgentName(req.agentId)) == Some(PlannedWorkload(ns, req, ip, outside).object_.pod)
    ensures ConfigMapAt(m', ns, AgentName(req.agentId)) == Some(AgentConfigMap(config, req))
  {
    hide Ran, CreationPlan, AgentConfigMap, ResourcesOf, BaseSpec;
    var plan := CreationPlan(ns, config, req, ip, outside);
    PartsOfPlan(ns, config, req, ip, outside);
    StrictStepIsNew(m, plan, m', |plan| - 1);
    StrictStepIsNew(m, plan, m', 1);
  }

  /** After a successful Create of a pod-backed VM its objects are those of an empty account. */
  lemma CreatedVMIsTracked(m: Store, ns: string, config: AgentConfig, req: Request, ip: string, outside: Outside,
                           m': Store)
    requires Ran(m, CreationPlan(ns, config, req, ip, outside), m', true) && req.replicas.None?
    ensures PlannedWorkload(ns, req, ip, outside).Planned?
    ensures var profile := ProfileOf(ns, config, req, ip, outside);
            && Plain(profile.base) && NoClaims(profile.base)
            && Attachments.Tracks(profile, [],
                 Recreate.ViewOf(Recreate.System(m', map[]), Recreate.Agent(ns, req.agentId)))
  {
    hide Attachments.LooksLike, Attachments.HoldsRecord, AgentConfigMap;
    CreatedObjects(m, ns, config, req, ip, outside, m');
    var profile, pod := ProfileOf(ns, config, req, ip, outside), PlannedWorkload(ns, req, ip, outside).object_.pod;
    BaseSpecIsPlain(req.agentId, pod.spec.containers[0].workload);
    CreatedPodLooksRight(ns, config, req, ip, outside);
    CreatedRecordIsEmpty(ns, config, req, ip, outside);
  }

  lemma CreatedPodLooksRight(ns: string, config: AgentConfig, req: Request, ip: string, outside: Outside)
    requires PlannedWorkload(ns, req, ip, outside).Planned? && req.replicas.None?
    requires Plain(ProfileOf(ns, config, req, ip, outside).base)
    ensures Attachments.LooksLike(ProfileOf(ns, config, req, ip, outside),
                                  PlannedWorkload(ns, req, ip, outside).object_.pod, [], ip)
  {
    EmptySpec(ProfileOf(ns, config, req, ip, outside).base);
    assert IpAnnotation(ip) - {IP_ANNOTATION} == map[];
  }

  lemma CreatedRecordIsEmpty(ns: string, config: AgentConfig, req: Request, ip: string, outside: Outside)
    requires PlannedWorkload(ns, req, ip, outside).Planned? && req.replicas.None?
    ensures Attachments.HoldsRecord(ProfileOf(ns, config, req, ip, outside), AgentConfigMap(config, req), map[])
  {
    hide Encode, Decode;
    RoundTrip(InstanceSettings(config, req));
    NormalIsStable(InstanceSettings(config, req));
    assert AgentConfigMap(config, req).data - {SETTINGS_KEY} == map[];
  }

  /** The volumes and mounts of a VM with these disks, entry by entry. */
  ghost predicate IsVMSpec(spec: PodSpec, id: string, disks: seq<string>) {
    && spec.volumes ==
         [Named("bosh-config", ConfigMapSource("agent-" + id, "instance_settings", "instance_settings.json")),
          Named("bosh-ephemeral", EmptyDirSource)]
         + seq(|disks|, i requires 0 <= i < |disks| => Named("disk-" + disks[i], ClaimSource("disk-" + disks[i])))
    && |spec.containers| == 1 && spec.containers[0].name == "bosh-job"
    && spec.containers[0].mounts ==
         [Named("bosh-config", MountPoint("/var/vcap/bosh/instance_settings.json", "instance_settings.json")),
          Named("bosh-ephemeral", MountPoint("/var/vcap/data", ""))]
         + seq(|disks|, i requires 0 <= i < |disks| => Named("disk-" + disks[i], MountPoint("/mnt/" + disks[i], "")))
  }

  lemma CreatedSpecWith(id: string, workload: Workload, disks: seq<string>)
    ensures Plain(BaseSpec(id, workload)) && IsVMSpec(SpecWith(BaseSpec(id, workload), disks), id, disks)
  {
    BaseSpecIsPlain(id, workload);
    hide Plain;
    var base := BaseSpec(id, workload);
    assert JobIndex(base.containers) == 0;
  }

  /** From creation on: create a pod-backed VM, let any agents run under any schedule, and suppose the
      requests for this VM were proper. Then its three disk sets agree, and its pod's volumes are
      `bosh-config`, `bosh-ephemeral`, then the disks in order of their latest attach. */
  lemma CreatedVMStaysInAgreement(m: Store, ns: string, config: AgentConfig, req: Request, ip: string, outside: Outside,
                                  m': Store, schedule: seq<Recreate.Action>, context: string)
    requires Ran(m, CreationPlan(ns, config, req, ip, outside), m', true) && req.replicas.None?
    requires var v := Recreate.ViewOf(Recreate.Exec(Recreate.System(m', map[]), schedule),
                                      Recreate.Agent(ns, req.agentId));
             v.desk.current.None? && Agreement.Proper(context, v.desk.past)
    ensures PlannedWorkload(ns, req, ip, outside).Planned?
    ensures var base := ProfileOf(ns, config, req, ip, outside).base;
            var v := Recreate.ViewOf(Recreate.Exec(Recreate.System(m', map[]), schedule),
                                     Recreate.Agent(ns, req.agentId));
            var disks := Agreement.Replay(v.desk.past);
            && Plain(base)
            && v.pod.Some? && v.configMap.Some?
            && SETTINGS_KEY in v.configMap.value.data
            && Decode(v.configMap.value.data[SETTINGS_KEY]).Some?
            && v.pod.value.spec == SpecWith(base, disks)
            && IsVMSpec(v.pod.value.spec, req.agentId, disks)
            && Agreement.InAgreement(context, base, v.pod.value, v.configMap.value)
  {
    hide IsVMSpec, SpecWith, CreationPlan;
    CreatedVMIsTracked(m, ns, config, req, ip, outside, m');
    Agreement.ThreeWayAgreement(ProfileOf(ns, config, req, ip, outside), Recreate.System(m', map[]), schedule,
                                Recreate.Agent(ns, req.agentId), context);
    var v := Recreate.ViewOf(Recreate.Exec(Recreate.System(m', map[]), schedule), Recreate.Agent(ns, req.agentId));
    CreatedSpecWith(req.agentId, PlannedWorkload(ns, req, ip, outside).object_.pod.spec.containers[0].workload,
                    Agreement.Replay(v.desk.past));
  }
}
