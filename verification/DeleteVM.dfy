/** Deleting a VM (actions/delete_vm.go): pod, labelled services, config map, in that order. */
module DeleteVM {
  import opened Basics
  import opened Names
  import opened Selectors
  import opened Cluster

  /** What Delete is after: the agent's pod and config map by name, its services by selector. */
  predicate IsDoomed(r: Ref, o: Object, ns: string, id: string) {
    || r == Ref(PodKind, ns, AgentName(id))
    || r == Ref(ConfigMapKind, ns, AgentName(id))
    || (r.kind == ServiceKind && r.ns == ns && Selected(AGENT_LABEL, id, LabelsOf(o)))
  }

  function Purge(m: Store, ns: string, id: string): Store {
    map r | r in m && !IsDoomed(r, m[r], ns, id) :: m[r]
  }

  /** Nothing was added or altered, and only doomed objects are gone. */
  ghost predicate Erased(m: Store, m': Store, ns: string, id: string) {
    && (forall r | r in m' :: r in m && m'[r] == m[r])
    && (forall r | r in m && r !in m' :: IsDoomed(r, m[r], ns, id))
  }

  ghost predicate DeleteOutcome(m: Store, m': Store, ns: string, id: string, ok: bool, calm: bool) {
    && Erased(m, m', ns, id)
    && (ok ==> m' == Purge(m, ns, id))
    && (calm ==> (ok <==> SelectorFor(AGENT_LABEL, id).Some?))
    && (m' != m ==> Ref(PodKind, ns, AgentName(id)) !in m')
    && (Ref(ConfigMapKind, ns, AgentName(id)) in m && Ref(ConfigMapKind, ns, AgentName(id)) !in m' ==>
          m' == Purge(m, ns, id))
  }

  /** The store after the pod and some of the services are gone, and after the config map too. */
  lemma OutcomeOfSteps(m: Store, ns: string, id: string, gone: set<Ref>)
    requires gone <= Selecting(m - {Ref(PodKind, ns, AgentName(id))}, ServiceKind, ns, AGENT_LABEL, id)
    ensures var m': Store := m - {Ref(PodKind, ns, AgentName(id))} - gone;
            && Erased(m, m', ns, id)
            && Ref(PodKind, ns, AgentName(id)) !in m'
            && (Ref(ConfigMapKind, ns, AgentName(id)) in m' <==> Ref(ConfigMapKind, ns, AgentName(id)) in m)
            && (gone == Selecting(m - {Ref(PodKind, ns, AgentName(id))}, ServiceKind, ns, AGENT_LABEL, id)
                ==> m' - {Ref(ConfigMapKind, ns, AgentName(id))} == Purge(m, ns, id))
    ensures Erased(m, Purge(m, ns, id), ns, id) && Ref(PodKind, ns, AgentName(id)) !in Purge(m, ns, id)
  {
    hide Selected, AgentName;
  }

  // ---- What Delete promises, in the names and labels that the program writes ----

  ghost predicate LabelledFor(o: Object, id: string) {
    && o.ServiceObject?
    && "bosh.cloudfoundry.org/agent-id" in o.service.labels
    && o.service.labels["bosh.cloudfoundry.org/agent-id"] == id
  }

  /** Nothing is added or altered. What goes is the agent's pod, the agent's config map and services of the namespace,
      for a valid label value those labelled for the agent; the pod goes first and the config map last. On success all
      of them are gone, and for a valid label value it does succeed when no call is refused. */
  ghost predicate Deletes(m: Store, m': Store, ns: string, id: string, ok: bool, calm: bool) {
    var pod, cm := Ref(PodKind, ns, "agent-" + id), Ref(ConfigMapKind, ns, "agent-" + id);
    && (forall r | r in m' :: r in m && m'[r] == m[r])
    && (forall r | r in m && r !in m' ::
          r == pod || r == cm || (r.kind == ServiceKind && r.ns == ns && (IsLabelValue(id) ==> LabelledFor(m[r], id))))
    && (m' != m ==> pod !in m')
    && (ok ==> pod !in m' && cm !in m')
    && (IsLabelValue(id) && (ok || (cm in m && cm !in m')) ==>
          forall r | r in m' && r.kind == ServiceKind && r.ns == ns :: !LabelledFor(m'[r], id))
    && (IsLabelValue(id) && calm ==> ok)
  }

  lemma SelectsServicesOf(id: string)
    requires IsLabelValue(id)
    ensures SelectorFor(AGENT_LABEL, id).Some?
    ensures forall o: Object | o.ServiceObject? :: Selected(AGENT_LABEL, id, LabelsOf(o)) <==> LabelledFor(o, id)
  {
    hide IsLabelValue, Selected, SelectorFor, PlainKey;
    IdentifyingKeys();
    SelectingIsLabelled(map[], ServiceKind, "", AGENT_LABEL, id);
    ValidParses(AGENT_LABEL, id);
  }

  lemma OutcomeDeletes(m: Store, m': Store, ns: string, id: string, ok: bool, calm: bool)
    requires DeleteOutcome(m, m', ns, id, ok, calm)
    ensures Deletes(m, m', ns, id, ok, calm)
  {
    hide IsLabelValue, Selected, SelectorFor, LabelledFor, LabelsOf;
    if IsLabelValue(id) {
      SelectsServicesOf(id);
    }
  }

  class Deleter {
    const provider: Provider

    constructor (provider: Provider)
      ensures this.provider == provider
    {
      this.provider := provider;
    }

    /** Delete. On success exactly the doomed objects are gone; on failure some of them, the pod before
        any other and the config map after all others. If no call is refused it succeeds exactly when the
        agent's selector parses. A named context that is not configured is rejected without a call. */
    method Delete(api: Api, vmCid: string) returns (res: Result<()>)
      modifies api
      ensures api.calls >= old(api.calls)
      ensures ParseCid(vmCid).None? ==> api.objects == old(api.objects) && res == Err(Panicked)
      ensures ParseCid(vmCid).Some? && provider.New(ParseCid(vmCid).value.0).None? ==>
                api.objects == old(api.objects) && res == Err(Rejected)
      ensures ParseCid(vmCid).Some? && provider.New(ParseCid(vmCid).value.0).Some? ==>
                var ns, id := provider.New(ParseCid(vmCid).value.0).value.ns, ParseCid(vmCid).value.1;
                DeleteOutcome(old(api.objects), api.objects, ns, id, res.Ok?, api.Calm(old(api.calls), api.calls))
      ensures forall context, id | Through(vmCid, context, id) && !provider.Knows(context) ::
                api.objects == old(api.objects) && api.calls == old(api.calls) && res == Err(Rejected)
      ensures forall context, id, resolved, ns |
                Through(vmCid, context, id) && provider.Resolves(context, resolved, ns) ::
                && api.calls > old(api.calls)
                && Deletes(old(api.objects), api.objects, ns, id, res.Ok?, api.Calm(old(api.calls), api.calls))
    {
      hide ParseCid, Through, Provider.New, Provider.Knows, Provider.Resolves, Deletes, DeleteOutcome;
      ThroughIsParse(vmCid);
      var vm := ParseCid(vmCid);
      if vm.None? {
        return Err(Panicked);
      }
      provider.NewResolves(vm.value.0);
      var client := provider.New(vm.value.0);
      if client.None? {
        return Err(Rejected);
      }
      res := DeleteFrom(api, client.value.ns, vm.value.1);
      OutcomeDeletes(old(api.objects), api.objects, client.value.ns, vm.value.1, res.Ok?,
                     api.Calm(old(api.calls), api.calls));
    }

    method DeleteFrom(api: Api, ns: string, id: string) returns (res: Result<()>)
      modifies api
      ensures api.calls > old(api.calls)
      ensures DeleteOutcome(old(api.objects), api.objects, ns, id, res.Ok?, api.Calm(old(api.calls), api.calls))
    {
      hide Selected, SelectorFor, AgentName, Purge, Selecting, IsDoomed;
      res := DeleteUnlessGone(api, Ref(PodKind, ns, AgentName(id)));
      if res.Err? {
        return;
      }
      ghost var before := api.objects;
      res := DeleteServices(api, ns, id);
      ghost var gone :| gone <= Selecting(before, ServiceKind, ns, AGENT_LABEL, id)
                        && api.objects == before - gone
                        && (res.Ok? ==> gone == Selecting(before, ServiceKind, ns, AGENT_LABEL, id));
      OutcomeOfSteps(old(api.objects), ns, id, gone);
      if res.Err? {
        return;
      }
      res := DeleteUnlessGone(api, Ref(ConfigMapKind, ns, AgentName(id)));
    }

    /** deletePod and deleteConfigMap: an object already gone is no error. */
    method DeleteUnlessGone(api: Api, r: Ref) returns (res: Result<()>)
      modifies api
      ensures api.calls > old(api.calls)
      ensures api.objects == if res.Ok? then old(api.objects) - {r} else old(api.objects)
      ensures api.Calm(old(api.calls), api.calls) ==> res.Ok?
    {
      res := api.Delete(r);
      if res.Err? && res.error == NotFound {
        assert api.objects - {r} == api.objects;
        return Ok(());
      }
    }

    /** deleteServices: each listed service in the order of the list; one already gone is an error. */
    method DeleteServices(api: Api, ns: string, id: string) returns (res: Result<()>)
      modifies api
      ensures api.calls >= old(api.calls)
      ensures exists gone: set<Ref> ::
                && gone <= Selecting(old(api.objects), ServiceKind, ns, AGENT_LABEL, id)
                && api.objects == old(api.objects) - gone
                && (res.Ok? ==> gone == Selecting(old(api.objects), ServiceKind, ns, AGENT_LABEL, id))
      ensures res.Ok? ==> SelectorFor(AGENT_LABEL, id).Some?
      ensures api.Calm(old(api.calls), api.calls) && SelectorFor(AGENT_LABEL, id).Some? ==> res.Ok?
    {
      hide SelectorFor, Selected, Matches;
      ghost var start, all := api.objects, Selecting(api.objects, ServiceKind, ns, AGENT_LABEL, id);
      var selector := SelectorFor(AGENT_LABEL, id);
      if selector.None? {
        assert api.objects == start - {};
        return Err(Rejected);
      }
      ListedIsSelecting(api.objects, ServiceKind, ns, AGENT_LABEL, id);
      var listed := api.List(ServiceKind, ns, selector.value);
      if listed.Err? {
        assert api.objects == start - {};
        return Err(listed.error);
      }
      ghost var gone: set<Ref> := {};
      for i := 0 to |listed.value|
        invariant api.calls > old(api.calls)
        invariant gone == set k | 0 <= k < i :: listed.value[k]
        invariant gone <= all && api.objects == start - gone
      {
        assert listed.value[i] in all && listed.value[i] !in gone;
        res := api.Delete(listed.value[i]);
        if res.Err? {
          return;
        }
        gone := gone + {listed.value[i]};
      }
      assert gone == all;
      return Ok(());
    }
  }

  // ---- Retry ----

  lemma PurgeKeepsPurged(m: Store, m': Store, ns: string, id: string)
    requires Erased(m, m', ns, id)
    ensures Purge(m', ns, id) == Purge(m, ns, id)
  {
  }

  /** Any number of runs, failing wherever they fail, and then one that succeeds: the cluster is what one
      successful run would have made of the first one. */
  lemma {:induction false} DeleteConverges(runs: seq<Store>, ns: string, id: string)
    requires |runs| >= 2
    requires forall i | 0 <= i < |runs| - 1 :: Erased(runs[i], runs[i + 1], ns, id)
    requires runs[|runs| - 1] == Purge(runs[|runs| - 2], ns, id)
    ensures runs[|runs| - 1] == Purge(runs[0], ns, id)
    decreases |runs|
  {
    if |runs| > 2 {
      PurgeKeepsPurged(runs[0], runs[1], ns, id);
      DeleteConverges(runs[1..], ns, id);
    }
  }

  /** After a successful run there is nothing left to delete: a further run, refused or not, changes nothing. */
  lemma DeleteIsIdempotent(m: Store, m': Store, ns: string, id: string)
    requires Erased(Purge(m, ns, id), m', ns, id)
    ensures m' == Purge(m, ns, id)
  {
    assert m'.Keys == Purge(m, ns, id).Keys;
  }

  /** For an identifier that is a valid label value, another agent's pod and config map, and every service
      labelled for it, survive every run. */
  lemma OthersAreSafe(m: Store, m': Store, ns: string, id: string, other: string, r: Ref)
    requires IsLabelValue(id) && Erased(m, m', ns, id) && r in m && other != id
    requires if r.kind == ServiceKind then HasLabel(m[r], AGENT_LABEL, other)
             else r.name == AgentName(other) && (r.kind == PodKind || r.kind == ConfigMapKind)
    ensures r in m' && m'[r] == m[r]
  {
    hide Selected, IsLabelValue;
    NamesInjective();
    SelectingIsLabelled(m, ServiceKind, ns, AGENT_LABEL, id);
  }

  /** For any identifier: a successful Delete spares the services that are labelled for other agents exactly when
      the identifier is a valid label value, or its selector lists no service. */
  lemma OthersAreSafeExactly(m: Store, ns: string, id: string)
    ensures (forall r, other | r in m && r.kind == ServiceKind && HasLabel(m[r], AGENT_LABEL, other) && other != id ::
               r in Purge(m, ns, id))
       <==> IsLabelValue(id) || Selecting(m, ServiceKind, ns, AGENT_LABEL, id) == {}
  {
    hide Selected, IsLabelValue;
    SelectingServices(m, ns, id);
    if IsLabelValue(id) {
      SelectingIsLabelled(m, ServiceKind, ns, AGENT_LABEL, id);
    } else if r :| r in Selecting(m, ServiceKind, ns, AGENT_LABEL, id) {
      IdentifyingKeys();
      InvalidReachesOthers(AGENT_LABEL, id, LabelsOf(m[r]));
      assert HasLabel(m[r], AGENT_LABEL, LabelsOf(m[r])[AGENT_LABEL]);
    }
  }

  lemma SelectingServices(m: Store, ns: string, id: string)
    ensures forall r | r in m && r.kind == ServiceKind ::
              r !in Purge(m, ns, id) <==> r in Selecting(m, ServiceKind, ns, AGENT_LABEL, id)
  {
    hide Selected;
  }
}
