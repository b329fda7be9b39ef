/** Creating, deleting and listing disks (actions/create_disk.go, delete_disk.go, get_disks.go). */
module Disks {
  import opened Basics
  import opened Names
  import opened PodSpecs
  import opened Cluster
  import opened WaitLoop

  function ClaimRef(ns: string, disk: string): Ref { Ref(ClaimKind, ns, DiskName(disk)) }

  const STORAGE_CLASS := "volume.beta.kubernetes.io/storage-class"
  const STORAGE_PROVISIONER := "volume.beta.kubernetes.io/storage-provisioner"

  datatype DiskRequest = DiskRequest(gigabytes: nat, context: string, storageClass: string, provisioner: string)

  function NewClaim(req: DiskRequest, disk: string): Claim {
    Claim(map[DISK_LABEL := disk], map[STORAGE_CLASS := req.storageClass, STORAGE_PROVISIONER := req.provisioner],
          req.gigabytes, "")
  }

  /** Creating a disk adds its claim, which must be new, or nothing; it succeeds only if the claim was bound,
      and does so when nothing is in the way. */
  ghost predicate DiskCreated(m: Store, m': Store, ns: string, disk: string, req: DiskRequest, ok: bool, calm: bool,
                              bound: bool)
  {
    var r := ClaimRef(ns, disk);
    && (m' == m || (r !in m && m' == m[r := ClaimObject(NewClaim(req, disk))]))
    && (ok ==> m' != m && bound)
    && (calm && r !in m && bound ==> ok)
  }

  /** Deleting a disk removes its claim and nothing else, or fails. */
  ghost predicate DiskDeleted(m: Store, m': Store, r: Ref, ok: bool, served: bool) {
    (ok <==> r in m && served) && m' == if ok then m - {r} else m
  }

  /** The disks a volume list leads to: for each volume backed by a claim that is still there and carries
      a disk label, the cloud ID of that label, in volume order. */
  function DisksFound(m: Store, ns: string, context: string, volumes: seq<Volume>): seq<string> {
    if volumes == [] then []
    else DiskFound(m, ns, context, volumes[0]) + DisksFound(m, ns, context, volumes[1..])
  }

  function DiskFound(m: Store, ns: string, context: string, v: Volume): seq<string> {
    if !v.body.ClaimSource? then [] else
    var claim := ClaimAt(m, ns, v.body.claim);
    if claim.Some? && DISK_LABEL in claim.value.labels then [NewCid(context, claim.value.labels[DISK_LABEL])] else []
  }

  lemma {:induction false} DisksFoundConcat(m: Store, ns: string, context: string, a: seq<Volume>, b: seq<Volume>)
    ensures DisksFound(m, ns, context, a + b) == DisksFound(m, ns, context, a) + DisksFound(m, ns, context, b)
  {
    if a == [] {
      assert a + b == b;
    } else {
      assert (a + b)[1..] == a[1..] + b;
      DisksFoundConcat(m, ns, context, a[1..], b);
    }
  }

  lemma OneMoreFound(m: Store, ns: string, context: string, front: seq<Volume>, v: Volume)
    ensures DisksFound(m, ns, context, front + [v])
         == DisksFound(m, ns, context, front) + DiskFound(m, ns, context, v)
  {
    DisksFoundConcat(m, ns, context, front, [v]);
    assert DisksFound(m, ns, context, [v][1..]) == [];
  }

  lemma OneMoreVolume(m: Store, ns: string, context: string, volumes: seq<Volume>, i: nat)
    requires i < |volumes|
    ensures DisksFound(m, ns, context, volumes[..i + 1])
         == DisksFound(m, ns, context, volumes[..i]) + DiskFound(m, ns, context, volumes[i])
  {
    assert volumes[..i + 1] == volumes[..i] + [volumes[i]];
    OneMoreFound(m, ns, context, volumes[..i], volumes[i]);
  }

  // ---- What the disk operations promise, in the names, labels and phases that the program writes ----

  /** The claim of a disk is added, which must be new, or nothing is. Success means that it was added and that the
      watch saw it bound; and a new claim that the watch sees bound is a success when no call is refused. */
  ghost predicate Provides(req: DiskRequest, ns: string, disk: string, trace: seq<Item<Claim>>, m: Store, m': Store,
                           ok: bool, calm: bool) {
    var r := Ref(ClaimKind, ns, "disk-" + disk);
    var claim := Claim(map["bosh.cloudfoundry.org/disk-id" := disk],
                       map["volume.beta.kubernetes.io/storage-class" := req.storageClass,
                           "volume.beta.kubernetes.io/storage-provisioner" := req.provisioner],
                       req.gigabytes, "");
    && (m' == m || (r !in m && m' == m[r := ClaimObject(claim)]))
    && (ok ==> r !in m && r in m' && BecomesBound(trace))
    && (r !in m && BecomesBound(trace) && calm ==> ok)
  }

  lemma CreatedProvides(req: DiskRequest, ns: string, disk: string, trace: seq<Item<Claim>>, m: Store, m': Store,
                        ok: bool, calm: bool)
    requires DiskCreated(m, m', ns, disk, req, ok, calm, Succeeds(trace, ClaimReadiness))
    ensures Provides(req, ns, disk, trace, m, m', ok, calm)
  {
    BoundIsSuccess(trace);
    hide Succeeds, BecomesBound;
  }

  /** The volume is backed by a claim that is there and has a disk label. */
  predicate LeadsToDisk(m: Store, ns: string, v: Volume) {
    && v.body.ClaimSource?
    && Ref(ClaimKind, ns, v.body.claim) in m
    && "bosh.cloudfoundry.org/disk-id" in m[Ref(ClaimKind, ns, v.body.claim)].claim.labels
  }

  /** The cloud ID of that disk. */
  function CidOf(m: Store, ns: string, context: string, v: Volume): string
    requires LeadsToDisk(m, ns, v)
  {
    context + ":" + m[Ref(ClaimKind, ns, v.body.claim)].claim.labels["bosh.cloudfoundry.org/disk-id"]
  }

  /** The cloud IDs are those of the volumes that lead to a disk, one for each, in volume order: the one at `k` is
      that of the volume at `at[k]`. */
  ghost predicate ListsDisks(m: Store, ns: string, context: string, volumes: seq<Volume>, cids: seq<string>,
                             at: seq<nat>) {
    && |at| == |cids|
    && (forall k, l | 0 <= k < l < |at| :: at[k] < at[l])
    && (forall k | 0 <= k < |at| ::
          && at[k] < |volumes| && LeadsToDisk(m, ns, volumes[at[k]])
          && cids[k] == CidOf(m, ns, context, volumes[at[k]]))
    && (forall i: nat | i < |volumes| && LeadsToDisk(m, ns, volumes[i]) :: i in at)
  }

  lemma FoundIfLeads(m: Store, ns: string, context: string, v: Volume)
    ensures DiskFound(m, ns, context, v) == if LeadsToDisk(m, ns, v) then [CidOf(m, ns, context, v)] else []
  {
  }

  lemma OneMoreListed(m: Store, ns: string, context: string, front: seq<Volume>, v: Volume, cids: seq<string>,
                      at: seq<nat>)
    requires ListsDisks(m, ns, context, front, cids, at)
    ensures if LeadsToDisk(m, ns, v)
            then ListsDisks(m, ns, context, front + [v], cids + [CidOf(m, ns, context, v)], at + [|front|])
            else ListsDisks(m, ns, context, front + [v], cids, at)
  {
    hide LeadsToDisk, CidOf;
    var volumes := front + [v];
    assert forall i | 0 <= i < |front| :: volumes[i] == front[i];
    assert |front| in at + [|front|] && forall i | i in at :: i in at + [|front|];
  }

  lemma NoneFound(m: Store, ns: string, context: string)
    ensures DisksFound(m, ns, context, []) == [] && ListsDisks(m, ns, context, [], [], [])
  {
  }

  lemma {:induction false} FoundListsDisks(m: Store, ns: string, context: string, volumes: seq<Volume>)
    returns (at: seq<nat>)
    ensures ListsDisks(m, ns, context, volumes, DisksFound(m, ns, context, volumes), at)
    decreases |volumes|
  {
    hide *;
    if volumes == [] {
      NoneFound(m, ns, context);
      at := [];
    } else {
      var front, v := volumes[..|volumes| - 1], volumes[|volumes| - 1];
      var cids := DisksFound(m, ns, context, front);
      at := FoundListsDisks(m, ns, context, front);
      assert volumes == front + [v];
      OneMoreFound(m, ns, context, front, v);
      FoundIfLeads(m, ns, context, v);
      OneMoreListed(m, ns, context, front, v, cids, at);
      if LeadsToDisk(m, ns, v) {
        at := at + [|front|];
      } else {
        assert cids + [] == cids;
      }
    }
  }

  /** GetDisks for a VM of a namespace: its disks as the volumes of its pod lead to them, none without a pod; and an
      answer when no call is refused. */
  ghost predicate Reports(m: Store, ns: string, context: string, id: string, res: Result<seq<string>>, calm: bool) {
    var r := Ref(PodKind, ns, "agent-" + id);
    && (res.Ok? ==>
          if r in m then exists at :: ListsDisks(m, ns, context, m[r].pod.spec.volumes, res.value, at)
          else res.value == [])
    && (calm ==> res.Ok?)
  }

  class DiskManager {
    const provider: Provider

    constructor (provider: Provider)
      ensures this.provider == provider
    {
      this.provider := provider;
    }

    /** CreateDisk, for a generated identifier. The claim is named and labelled by it; on success it was
        new and became bound. A claim whose wait fails stays behind. */
    method CreateDisk(api: Api, req: DiskRequest, diskId: string, trace: seq<Item<Claim>>) returns (res: Result<string>)
      requires Decided(trace, ClaimReadiness)
      modifies api
      ensures api.calls >= old(api.calls)
      ensures provider.New(req.context).None? ==> api.objects == old(api.objects) && res == Err(Rejected)
      ensures provider.New(req.context).Some? ==>
                var client := provider.New(req.context).value;
                && DiskCreated(old(api.objects), api.objects, client.ns, diskId, req, res.Ok?,
                               api.Calm(old(api.calls), api.calls), Succeeds(trace, ClaimReadiness))
                && (res.Ok? ==> res.value == NewCid(client.context, diskId))
      ensures !provider.Knows(req.context) ==>
                api.objects == old(api.objects) && api.calls == old(api.calls) && res == Err(Rejected)
      ensures forall resolved, ns | provider.Resolves(req.context, resolved, ns) ::
                && api.calls > old(api.calls)
                && Provides(req, ns, diskId, trace, old(api.objects), api.objects, res.Ok?,
                            api.Calm(old(api.calls), api.calls))
                && (res.Ok? ==> res.value == resolved + ":" + diskId)
    {
      hide DiskCreated, Succeeds, Provides, Provider.New, Provider.Knows, Provider.Resolves;
      provider.NewResolves(req.context);
      var found := provider.New(req.context);
      if found.None? {
        return Err(Rejected);
      }
      res := CreateClaim(api, found.value, req, diskId, trace);
      CreatedProvides(req, found.value.ns, diskId, trace, old(api.objects), api.objects, res.Ok?,
                      api.Calm(old(api.calls), api.calls));
    }

    method CreateClaim(api: Api, client: Client, req: DiskRequest, diskId: string, trace: seq<Item<Claim>>)
      returns (res: Result<string>)
      requires Decided(trace, ClaimReadiness)
      modifies api
      ensures api.calls > old(api.calls)
      ensures DiskCreated(old(api.objects), api.objects, client.ns, diskId, req, res.Ok?,
                          api.Calm(old(api.calls), api.calls), Succeeds(trace, ClaimReadiness))
      ensures res.Ok? ==> res.value == NewCid(client.context, diskId)
    {
      var created := api.Create(ClaimRef(client.ns, diskId), ClaimObject(NewClaim(req, diskId)));
      if created.Err? {
        return Err(created.error);
      }
      assert ClaimRef(client.ns, diskId) in api.objects;
      var open := api.Watch();
      if !open {
        return Err(Unavailable);
      }
      var out, _ := Wait(trace, ClaimReadiness);
      if out != Succeeded {
        return Err(if out == Timeout then TimedOut else Rejected);
      }
      return Ok(NewCid(client.context, diskId));
    }

    /** DeleteDisk, by name; a missing claim is an error. */
    method DeleteDisk(api: Api, diskCid: string) returns (res: Result<()>)
      modifies api
      ensures ParseCid(diskCid).None? ==> api.objects == old(api.objects) && res == Err(Panicked)
      ensures ParseCid(diskCid).Some? && provider.New(ParseCid(diskCid).value.0).None? ==>
                api.objects == old(api.objects) && res == Err(Rejected)
      ensures ParseCid(diskCid).Some? && provider.New(ParseCid(diskCid).value.0).Some? ==>
                var r := ClaimRef(provider.New(ParseCid(diskCid).value.0).value.ns, ParseCid(diskCid).value.1);
                DiskDeleted(old(api.objects), api.objects, r, res.Ok?, api.served(old(api.calls)))
      ensures forall context, disk | Through(diskCid, context, disk) && !provider.Knows(context) ::
                api.objects == old(api.objects) && api.calls == old(api.calls) && res == Err(Rejected)
      ensures forall context, disk, resolved, ns |
                Through(diskCid, context, disk) && provider.Resolves(context, resolved, ns) ::
                var r := Ref(ClaimKind, ns, "disk-" + disk);
                && (res.Ok? <==> r in old(api.objects) && api.served(old(api.calls)))
                && api.objects == if res.Ok? then old(api.objects) - {r} else old(api.objects)
    {
      hide ParseCid, Through, Provider.New, Provider.Knows, Provider.Resolves;
      ThroughIsParse(diskCid);
      var disk := ParseCid(diskCid);
      if disk.None? {
        return Err(Panicked);
      }
      provider.NewResolves(disk.value.0);
      var client := provider.New(disk.value.0);
      if client.None? {
        return Err(Rejected);
      }
      res := api.Delete(ClaimRef(client.value.ns, disk.value.1));
    }

    /** GetDisks. A missing pod has no disks; a missing claim is passed over; any other refusal is an error. */
    method GetDisks(api: Api, vmCid: string) returns (res: Result<seq<string>>)
      modifies api`calls
      ensures api.calls >= old(api.calls)
      ensures ParseCid(vmCid).None? ==> res == Err(Panicked)
      ensures ParseCid(vmCid).Some? && provider.New(ParseCid(vmCid).value.0).None? ==> res == Err(Rejected)
      ensures ParseCid(vmCid).Some? && provider.New(ParseCid(vmCid).value.0).Some? ==>
                var context, id := ParseCid(vmCid).value.0, ParseCid(vmCid).value.1;
                var ns := provider.New(context).value.ns;
                var pod := PodAt(api.objects, ns, AgentName(id));
                && (res.Ok?
                    ==> res.value == if pod.None? then []
                        else DisksFound(api.objects, ns, context, pod.value.spec.volumes))
                && (api.Calm(old(api.calls), api.calls) ==> res.Ok?)
      ensures forall context, id | Through(vmCid, context, id) && !provider.Knows(context) ::
                api.calls == old(api.calls) && res == Err(Rejected)
      ensures forall context, id, resolved, ns |
                Through(vmCid, context, id) && provider.Resolves(context, resolved, ns) ::
                Reports(api.objects, ns, context, id, res, api.Calm(old(api.calls), api.calls))
    {
      hide ParseCid, Through, Provider.New, Provider.Knows, Provider.Resolves, DisksFound, ListsDisks;
      ThroughIsParse(vmCid);
      var vm := ParseCid(vmCid);
      if vm.None? {
        return Err(Panicked);
      }
      var context, id := vm.value.0, vm.value.1;
      provider.NewResolves(context);
      var client := provider.New(context);
      if client.None? {
        return Err(Rejected);
      }
      var ns := client.value.ns;
      res := FindDisks(api, ns, context, id);
      ghost var pod := PodAt(api.objects, ns, AgentName(id));
      if pod.Some? {
        ghost var at := FoundListsDisks(api.objects, ns, context, pod.value.spec.volumes);
      }
    }

    method FindDisks(api: Api, ns: string, context: string, id: string) returns (res: Result<seq<string>>)
      modifies api`calls
      ensures api.calls > old(api.calls)
      ensures var pod := PodAt(api.objects, ns, AgentName(id));
              res.Ok? ==> res.value == if pod.None? then []
                                       else DisksFound(api.objects, ns, context, pod.value.spec.volumes)
      ensures api.Calm(old(api.calls), api.calls) ==> res.Ok?
    {
      assert forall m, ns, context :: DisksFound(m, ns, context, []) == [];
      hide DisksFound;
      var got := api.Get(Ref(PodKind, ns, AgentName(id)));
      if got.Err? {
        return if got.error == NotFound then Ok([]) else Err(got.error);
      }
      var volumes := got.value.pod.spec.volumes;
      var diskIds := [];
      for i := 0 to |volumes|
        invariant api.calls > old(api.calls)
        invariant diskIds == DisksFound(api.objects, ns, context, volumes[..i])
      {
        OneMoreVolume(api.objects, ns, context, volumes, i);
        if volumes[i].body.ClaimSource? {
          var claim := api.Get(Ref(ClaimKind, ns, volumes[i].body.claim));
          if claim.Err? && claim.error != NotFound {
            return Err(claim.error);
          }
          if claim.Ok? && DISK_LABEL in claim.value.claim.labels {
            diskIds := diskIds + [NewCid(context, claim.value.claim.labels[DISK_LABEL])];
          }
        }
      }
      assert volumes[..|volumes|] == volumes;
      return Ok(diskIds);
    }
  }
}
