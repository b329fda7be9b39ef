/** The metadata setters (actions/set_vm_metadata.go, set_disk_metadata.go): label merges over a map
    whose iteration order is the runtime's choice. */
module Metadata {
  import opened Basics
  import opened Names
  import opened Cluster
  import opened Disks

  /** The label validators and lower-casing, left open: every result holds whatever they are. */
  datatype Rules = Rules(qualifiedName: string -> bool, labelValue: string -> bool, lower: string -> string)

  // ---- Disks: all or nothing ----

  function Underscored(text: string): string {
    seq(|text|, i requires 0 <= i < |text| => if text[i] == ':' then '_' else text[i])
  }

  function DiskValue(key: string, value: string): string {
    if key == "attached_at" then Underscored(value) else value
  }

  predicate ValidForDisk(rules: Rules, key: string, value: string) {
    rules.qualifiedName(LabelKey(key)) && rules.labelValue(DiskValue(key, value))
  }

  predicate AllValidForDisk(rules: Rules, metadata: map<string, string>) {
    forall k | k in metadata :: ValidForDisk(rules, k, metadata[k])
  }

  /** The labels the entries stand for. Prefixing is injective, so each entry has its own label. */
  function DiskLabels(metadata: map<string, string>): map<string, string> {
    NamesInjective();
    map k | k in metadata :: LabelKey(k) := DiskValue(k, metadata[k])
  }

  lemma DiskLabelAt(metadata: map<string, string>, q: string)
    ensures q in DiskLabels(metadata) <==> exists k :: k in metadata && LabelKey(k) == q
    ensures forall k | k in metadata && LabelKey(k) == q :: DiskLabels(metadata)[q] == DiskValue(k, metadata[k])
  {
    NamesInjective();
  }

  /** The claim's labels once the entries are set: new values over old ones. */
  function DiskMerged(before: map<string, string>, metadata: map<string, string>): map<string, string> {
    before + DiskLabels(metadata)
  }

  /** The disk label survives the merge exactly when no entry gives it another value. */
  lemma DiskIdentity(before: map<string, string>, metadata: map<string, string>, disk: string)
    requires DISK_LABEL in before && before[DISK_LABEL] == disk
    ensures var merged := DiskMerged(before, metadata);
            && DISK_LABEL in merged
            && (merged[DISK_LABEL] == disk <==> ("disk-id" in metadata ==> metadata["disk-id"] == disk))
  {
    DiskIdEntry();
    hide DiskValue, LabelKey;
    NamesInjective();
  }

  lemma DiskIdEntry()
    ensures LabelKey("disk-id") == DISK_LABEL
    ensures forall v :: DiskValue("disk-id", v) == v
  {
    assert |"disk-id"| != |"attached_at"|;
  }

  // ---- VMs: valid entries only, keys lower-cased ----

  function VmKey(rules: Rules, key: string): string { LabelKey(rules.lower(key)) }

  predicate ValidForVm(rules: Rules, key: string, value: string) {
    rules.qualifiedName(VmKey(rules, key)) && rules.labelValue(value)
  }

  function SetEntry(rules: Rules, labels: map<string, string>, key: string, value: string): map<string, string> {
    if ValidForVm(rules, key, value) then labels[VmKey(rules, key) := value] else labels
  }

  /** The labels after the loop has gone through the keys in this order. */
  function MergeInOrder(rules: Rules, labels: map<string, string>, metadata: map<string, string>,
                        order: seq<string>): map<string, string>
    requires forall k | k in order :: k in metadata
    decreases |order|
  {
    if order == [] then labels
    else
      var last := order[|order| - 1];
      SetEntry(rules, MergeInOrder(rules, labels, metadata, order[..|order| - 1]), last, metadata[last])
  }

  /** The sequence goes through the set, each element once. */
  ghost predicate Enumerates(order: seq<string>, keys: set<string>) {
    && (forall k :: k in order <==> k in keys)
    && forall i, j | 0 <= i < j < |order| :: order[i] != order[j]
  }

  /** An iteration order of a map. */
  ghost predicate IsOrder(order: seq<string>, metadata: map<string, string>) {
    Enumerates(order, metadata.Keys)
  }

  lemma AppendKey(order: seq<string>, keys: set<string>, k: string)
    requires Enumerates(order, keys) && k !in keys
    ensures Enumerates(order + [k], keys + {k})
  {
  }

  /** Valid entries that fall on one label agree on its value. */
  ghost predicate Consistent(rules: Rules, metadata: map<string, string>) {
    forall a, b | a in metadata && b in metadata
                  && ValidForVm(rules, a, metadata[a]) && ValidForVm(rules, b, metadata[b])
                  && VmKey(rules, a) == VmKey(rules, b) :: metadata[a] == metadata[b]
  }

  ghost predicate Sets(rules: Rules, metadata: map<string, string>, order: seq<string>, key: string, tag: string)
    requires forall k | k in order :: k in metadata
  {
    key in order && ValidForVm(rules, key, metadata[key]) && VmKey(rules, key) == tag
  }

  /** Whatever the order: a label no valid entry sets is as before, and a label some entry sets has the
      value of one of them. */
  lemma {:induction false} MergedLabel(rules: Rules, labels: map<string, string>, metadata: map<string, string>,
                                       order: seq<string>, tag: string)
    requires forall k | k in order :: k in metadata
    ensures var merged := MergeInOrder(rules, labels, metadata, order);
            if exists k :: Sets(rules, metadata, order, k, tag)
            then tag in merged && exists k :: Sets(rules, metadata, order, k, tag) && merged[tag] == metadata[k]
            else (tag in merged <==> tag in labels) && (tag in labels ==> merged[tag] == labels[tag])
    decreases |order|
  {
    if order != [] {
      var front, last := order[..|order| - 1], order[|order| - 1];
      assert last in order && forall k | k in front :: k in order;
      assert forall k | k in order :: k in front || k == last;
      MergedLabel(rules, labels, metadata, front, tag);
      if Sets(rules, metadata, order, last, tag) {
        assert MergeInOrder(rules, labels, metadata, order)[tag] == metadata[last];
      } else {
        assert forall k :: Sets(rules, metadata, order, k, tag) <==> Sets(rules, metadata, front, k, tag);
      }
    }
  }

  lemma ConsistentMerge(rules: Rules, labels: map<string, string>, metadata: map<string, string>, o1: seq<string>,
                        o2: seq<string>)
    requires IsOrder(o1, metadata) && IsOrder(o2, metadata) && Consistent(rules, metadata)
    ensures MergeInOrder(rules, labels, metadata, o1) == MergeInOrder(rules, labels, metadata, o2)
  {
    var m1, m2 := MergeInOrder(rules, labels, metadata, o1), MergeInOrder(rules, labels, metadata, o2);
    forall tag
      ensures tag in m1 <==> tag in m2
      ensures tag in m1 ==> m1[tag] == m2[tag]
    {
      MergedLabel(rules, labels, metadata, o1, tag);
      MergedLabel(rules, labels, metadata, o2, tag);
      assert forall k :: Sets(rules, metadata, o1, k, tag) <==> Sets(rules, metadata, o2, k, tag);
    }
  }

  lemma {:induction false} CanEnumerate(keys: set<string>)
    ensures exists order: seq<string> :: Enumerates(order, keys)
    decreases keys
  {
    if keys == {} {
      var none: seq<string> := [];
      assert Enumerates(none, keys);
    } else {
      var k :| k in keys;
      CanEnumerate(keys - {k});
      var rest: seq<string> :| Enumerates(rest, keys - {k});
      AppendKey(rest, keys - {k}, k);
      assert keys - {k} + {k} == keys;
    }
  }

  /** The result depends on the iteration order exactly when two valid entries that lower-case to one key
      disagree: this holds for all labels, entries, validators and case maps. */
  lemma OrderMattersExactly(rules: Rules, labels: map<string, string>, metadata: map<string, string>)
    ensures Consistent(rules, metadata) <==>
            forall o1, o2 | IsOrder(o1, metadata) && IsOrder(o2, metadata) ::
              MergeInOrder(rules, labels, metadata, o1) == MergeInOrder(rules, labels, metadata, o2)
  {
    if Consistent(rules, metadata) {
      forall o1, o2 | IsOrder(o1, metadata) && IsOrder(o2, metadata)
        ensures MergeInOrder(rules, labels, metadata, o1) == MergeInOrder(rules, labels, metadata, o2)
      {
        ConsistentMerge(rules, labels, metadata, o1, o2);
      }
    } else {
      var a, b :| a in metadata && b in metadata
                  && ValidForVm(rules, a, metadata[a]) && ValidForVm(rules, b, metadata[b])
                  && VmKey(rules, a) == VmKey(rules, b) && metadata[a] != metadata[b];
      TwoOrders(rules, labels, metadata, a, b);
    }
  }

  lemma TwoOrders(rules: Rules, labels: map<string, string>, metadata: map<string, string>, a: string, b: string)
    requires a in metadata && b in metadata && metadata[a] != metadata[b]
    requires ValidForVm(rules, a, metadata[a]) && ValidForVm(rules, b, metadata[b])
             && VmKey(rules, a) == VmKey(rules, b)
    ensures exists o1, o2 ::
              && IsOrder(o1, metadata) && IsOrder(o2, metadata)
              && MergeInOrder(rules, labels, metadata, o1) != MergeInOrder(rules, labels, metadata, o2)
  {
    CanComeLast(metadata, a);
    CanComeLast(metadata, b);
    var r1: seq<string> :| IsOrder(r1 + [a], metadata);
    var r2: seq<string> :| IsOrder(r2 + [b], metadata);
    LastWins(rules, labels, metadata, r1, a);
    LastWins(rules, labels, metadata, r2, b);
    assert MergeInOrder(rules, labels, metadata, r1 + [a]) != MergeInOrder(rules, labels, metadata, r2 + [b]);
  }

  lemma CanComeLast(metadata: map<string, string>, k: string)
    requires k in metadata
    ensures exists order: seq<string> :: IsOrder(order + [k], metadata)
  {
    CanEnumerate(metadata.Keys - {k});
    var rest: seq<string> :| Enumerates(rest, metadata.Keys - {k});
    AppendKey(rest, metadata.Keys - {k}, k);
    assert metadata.Keys - {k} + {k} == metadata.Keys;
  }

  lemma LastWins(rules: Rules, labels: map<string, string>, metadata: map<string, string>, order: seq<string>,
                 last: string)
    requires forall k | k in order + [last] :: k in metadata
    requires ValidForVm(rules, last, metadata[last])
    ensures var merged := MergeInOrder(rules, labels, metadata, order + [last]);
            VmKey(rules, last) in merged && merged[VmKey(rules, last)] == metadata[last]
  {
    assert (order + [last])[..|order + [last]| - 1] == order;
  }

  lemma {:induction false} MergeOnlyAdds(rules: Rules, labels: map<string, string>,
                                         metadata: map<string, string>, order: seq<string>)
    requires forall k | k in order :: k in metadata
    ensures labels.Keys <= MergeInOrder(rules, labels, metadata, order).Keys
    decreases |order|
  {
    if order != [] {
      MergeOnlyAdds(rules, labels, metadata, order[..|order| - 1]);
    }
  }

  /** The entries of the new labels that differ from the old ones: what a merge patch carries. */
  function Changed(before: map<string, string>, after: map<string, string>): map<string, string> {
    map k | k in after && (k !in before || before[k] != after[k]) :: after[k]
  }

  ghost predicate DiskLabelled(rules: Rules, m: Store, m': Store, r: Ref, metadata: map<string, string>, ok: bool,
                               calm: bool)
    requires r.kind == ClaimKind
  {
    && (ok ==> r in m && AllValidForDisk(rules, metadata))
    && m' == (if ok then DiskSet(rules, m, r, metadata) else m)
    && (calm && r in m && AllValidForDisk(rules, metadata) ==> ok)
  }

  /** The store after the metadata of a claim was set with every call served: one invalid entry stops it all. */
  function DiskSet(rules: Rules, m: Store, r: Ref, metadata: map<string, string>): Store
    requires r in m && r.kind == ClaimKind
  {
    if AllValidForDisk(rules, metadata) then Relabelled(m, r, DiskMerged(m[r].claim.labels, metadata)) else m
  }

  function Relabelled(m: Store, r: Ref, labels: map<string, string>): Store
    requires r in m && r.kind == ClaimKind
  {
    m[r := ClaimObject(m[r].claim.(labels := labels))]
  }

  /** There is a map to write to, or nothing to write. */
  ghost predicate Writable(rules: Rules, labels: map<string, string>, metadata: map<string, string>) {
    labels != map[] || forall k | k in metadata :: !ValidForVm(rules, k, metadata[k])
  }

  ghost predicate VMLabelled(rules: Rules, m: Store, m': Store, r: Ref, metadata: map<string, string>, ok: bool,
                             calm: bool)
    requires r.kind == PodKind
  {
    && (ok ==> r in m && exists order: seq<string> ::
          IsOrder(order, metadata) && m' == Merged(rules, m, r, metadata, order))
    && (!ok ==> m' == m)
    && (ok ==> r in m && Writable(rules, m[r].pod.labels, metadata))
    && (calm && r in m && Writable(rules, m[r].pod.labels, metadata) ==> ok)
  }

  /** The store with the metadata merged into a pod's labels in the given order. */
  function Merged(rules: Rules, m: Store, r: Ref, metadata: map<string, string>, order: seq<string>): Store
    requires r in m && r.kind == PodKind
    requires forall k | k in order :: k in metadata
  {
    m[r := PodObject(m[r].pod.(labels := MergeInOrder(rules, m[r].pod.labels, metadata, order)))]
  }

  // ---- What the setters promise, in the prefix, keys and values that the program writes ----

  /** The label value that an entry of disk metadata stands for: that of `attached_at` has its colons replaced. */
  ghost predicate StandsFor(key: string, was: string, now: string) {
    if key == "attached_at"
    then |now| == |was| && forall i | 0 <= i < |was| :: now[i] == if was[i] == ':' then '_' else was[i]
    else now == was
  }

  /** The entry is a valid label, its key as it is and its value as it is set. */
  ghost predicate PassesForDisk(rules: Rules, key: string, value: string) {
    forall v | StandsFor(key, value, v) ::
      rules.qualifiedName("bosh.cloudfoundry.org/" + key) && rules.labelValue(v)
  }

  ghost predicate AllPass(rules: Rules, metadata: map<string, string>) {
    forall k | k in metadata :: PassesForDisk(rules, k, metadata[k])
  }

  /** Each entry has its label, and every label that is no entry's is as it was. */
  ghost predicate HasEntries(metadata: map<string, string>, was: map<string, string>, now: map<string, string>) {
    && (forall k | k in metadata ::
          && "bosh.cloudfoundry.org/" + k in now
          && StandsFor(k, metadata[k], now["bosh.cloudfoundry.org/" + k]))
    && forall q | !exists k :: k in metadata && q == "bosh.cloudfoundry.org/" + k ::
         (q in now <==> q in was) && (q in was ==> now[q] == was[q])
  }

  /** All entries are set, in the labels of one claim and nowhere else, or nothing changes. It is all of them exactly
      when the claim is there and every entry is valid, as long as no call is refused. */
  ghost predicate SetsAll(rules: Rules, metadata: map<string, string>, r: Ref, m: Store, m': Store, ok: bool,
                          calm: bool)
    requires r.kind == ClaimKind
  {
    && (!ok ==> m' == m)
    && (ok ==>
          && r in m && AllPass(rules, metadata)
          && exists labels ::
               && HasEntries(metadata, m[r].claim.labels, labels)
               && m' == m[r := ClaimObject(m[r].claim.(labels := labels))])
    && (calm && r in m && AllPass(rules, metadata) ==> ok)
  }

  /** The entry is a valid label, with its key lower-cased. */
  predicate Passes(rules: Rules, key: string, value: string) {
    rules.qualifiedName("bosh.cloudfoundry.org/" + rules.lower(key)) && rules.labelValue(value)
  }

  /** The label `q` may have the value `v` because of an entry: its value, under its key lower-cased. */
  ghost predicate ComesFrom(rules: Rules, metadata: map<string, string>, q: string, v: string) {
    exists k :: k in metadata && q == "bosh.cloudfoundry.org/" + rules.lower(k) && v == metadata[k]
  }

  /** Every label is as before or a valid one from an entry, and every valid entry's label is set to the value of a
      valid entry with that label. */
  ghost predicate Relabels(rules: Rules, metadata: map<string, string>, was: map<string, string>,
                           now: map<string, string>) {
    && (forall q | q in was :: q in now)
    && (forall q | q in now ::
          || (q in was && now[q] == was[q])
          || (rules.qualifiedName(q) && rules.labelValue(now[q]) && ComesFrom(rules, metadata, q, now[q])))
    && forall k | k in metadata && Passes(rules, k, metadata[k]) ::
         var q := "bosh.cloudfoundry.org/" + rules.lower(k);
         q in now && rules.labelValue(now[q]) && ComesFrom(rules, metadata, q, now[q])
  }

  /** The labels of one pod become such labels and nothing else changes, or nothing changes at all. With no call
      refused it fails exactly when the pod is missing, or has no labels while some entry is valid. */
  ghost predicate SetsValid(rules: Rules, metadata: map<string, string>, r: Ref, m: Store, m': Store, ok: bool,
                            calm: bool)
    requires r.kind == PodKind
  {
    && (!ok ==> m' == m)
    && (ok ==> r in m && exists labels ::
          Relabels(rules, metadata, m[r].pod.labels, labels) && m' == m[r := PodObject(m[r].pod.(labels := labels))])
    && (ok ==> r in m && (m[r].pod.labels != map[] || NonePasses(rules, metadata)))
    && (calm && r in m && (m[r].pod.labels != map[] || NonePasses(rules, metadata)) ==> ok)
  }

  ghost predicate NonePasses(rules: Rules, metadata: map<string, string>) {
    forall k | k in metadata :: !Passes(rules, k, metadata[k])
  }

  lemma ValueStandsFor(key: string, was: string)
    ensures StandsFor(key, was, DiskValue(key, was))
    ensures forall now :: StandsFor(key, was, now) ==> now == DiskValue(key, was)
  {
  }

  lemma ValidPasses(rules: Rules, key: string, value: string)
    ensures ValidForDisk(rules, key, value) <==> PassesForDisk(rules, key, value)
  {
    hide StandsFor, DiskValue;
    ValueStandsFor(key, value);
  }

  lemma ValidAllPass(rules: Rules, metadata: map<string, string>)
    ensures AllValidForDisk(rules, metadata) <==> AllPass(rules, metadata)
  {
    hide PassesForDisk, ValidForDisk;
    forall k | k in metadata ensures ValidForDisk(rules, k, metadata[k]) <==> PassesForDisk(rules, k, metadata[k]) {
      ValidPasses(rules, k, metadata[k]);
    }
  }

  lemma MergedHasEntries(metadata: map<string, string>, was: map<string, string>)
    ensures HasEntries(metadata, was, DiskMerged(was, metadata))
  {
    hide StandsFor, DiskValue, DiskLabels;
    forall q ensures LabelKey(q) == "bosh.cloudfoundry.org/" + q {}
    hide LabelKey;
    var labels := DiskLabels(metadata);
    forall k | k in metadata
      ensures LabelKey(k) in labels && StandsFor(k, metadata[k], labels[LabelKey(k)])
    {
      DiskLabelAt(metadata, LabelKey(k));
      ValueStandsFor(k, metadata[k]);
    }
    forall q | !exists k :: k in metadata && q == "bosh.cloudfoundry.org/" + k ensures q !in labels {
      DiskLabelAt(metadata, q);
    }
  }

  lemma LabelledSetsAll(rules: Rules, metadata: map<string, string>, r: Ref, m: Store, m': Store, ok: bool, calm: bool)
    requires r.kind == ClaimKind && DiskLabelled(rules, m, m', r, metadata, ok, calm)
    ensures SetsAll(rules, metadata, r, m, m', ok, calm)
  {
    hide AllValidForDisk, AllPass, HasEntries, DiskMerged;
    ValidAllPass(rules, metadata);
    if ok {
      MergedHasEntries(metadata, m[r].claim.labels);
    }
  }

  lemma MergeRelabels(rules: Rules, metadata: map<string, string>, was: map<string, string>, order: seq<string>)
    requires IsOrder(order, metadata)
    ensures Relabels(rules, metadata, was, MergeInOrder(rules, was, metadata, order))
  {
    var now := MergeInOrder(rules, was, metadata, order);
    forall q
      ensures q in was ==> q in now
      ensures q in now ==>
                || (q in was && now[q] == was[q])
                || (rules.qualifiedName(q) && rules.labelValue(now[q]) && ComesFrom(rules, metadata, q, now[q]))
      ensures (exists k :: Sets(rules, metadata, order, k, q)) ==>
                q in now && rules.labelValue(now[q]) && ComesFrom(rules, metadata, q, now[q])
    {
      MergedLabel(rules, was, metadata, order, q);
    }
    forall k | k in metadata && Passes(rules, k, metadata[k])
      ensures Sets(rules, metadata, order, k, "bosh.cloudfoundry.org/" + rules.lower(k))
    {
    }
  }

  lemma LabelledSetsValid(rules: Rules, metadata: map<string, string>, r: Ref, m: Store, m': Store, ok: bool,
                          calm: bool)
    requires r.kind == PodKind && VMLabelled(rules, m, m', r, metadata, ok, calm)
    ensures SetsValid(rules, metadata, r, m, m', ok, calm)
  {
    hide Relabels, MergeInOrder;
    assert forall k, v :: ValidForVm(rules, k, v) <==> Passes(rules, k, v);
    if ok {
      var order: seq<string> :| IsOrder(order, metadata) && m' == Merged(rules, m, r, metadata, order);
      MergeRelabels(rules, metadata, m[r].pod.labels, order);
    }
  }

  class Setter {
    const provider: Provider
    const rules: Rules

    constructor (provider: Provider, rules: Rules)
      ensures this.provider == provider && this.rules == rules
    {
      this.provider, this.rules := provider, rules;
    }

    /** SetDiskMetadata: if every entry is valid the claim gets all of the labels, whatever order they are
        gone through; if one is not, the claim stays as it was. */
    method SetDiskMetadata(api: Api, diskCid: string, metadata: map<string, string>) returns (res: Result<()>)
      modifies api
      ensures api.calls >= old(api.calls)
      ensures ParseCid(diskCid).None? ==> api.objects == old(api.objects) && res == Err(Panicked)
      ensures ParseCid(diskCid).Some? && provider.New(ParseCid(diskCid).value.0).None? ==>
                api.objects == old(api.objects) && res == Err(Rejected)
      ensures ParseCid(diskCid).Some? && provider.New(ParseCid(diskCid).value.0).Some? ==>
                var r := ClaimRef(provider.New(ParseCid(diskCid).value.0).value.ns, ParseCid(diskCid).value.1);
                DiskLabelled(rules, old(api.objects), api.objects, r, metadata, res.Ok?,
                             api.Calm(old(api.calls), api.calls))
      ensures forall context, disk | Through(diskCid, context, disk) && !provider.Knows(context) ::
                api.objects == old(api.objects) && api.calls == old(api.calls) && res == Err(Rejected)
      ensures forall context, disk, resolved, ns |
                Through(diskCid, context, disk) && provider.Resolves(context, resolved, ns) ::
                SetsAll(rules, metadata, Ref(ClaimKind, ns, "disk-" + disk), old(api.objects), api.objects, res.Ok?,
                        api.Calm(old(api.calls), api.calls))
    {
      hide ParseCid, Through, Provider.New, Provider.Knows, Provider.Resolves, DiskLabelled, SetsAll;
      ThroughIsParse(diskCid);
      var disk := ParseCid(diskCid);
      if disk.None? {
        return Err(Panicked);
      }
      provider.NewResolves(disk.value.0);
      var client := provider.New(disk.value.0);
      if client.None? {
        return Err(Rejected);
      }
      var r := ClaimRef(client.value.ns, disk.value.1);
      res := UpdateClaim(api, r, metadata);
      LabelledSetsAll(rules, metadata, r, old(api.objects), api.objects, res.Ok?, api.Calm(old(api.calls), api.calls));
    }

    method UpdateClaim(api: Api, r: Ref, metadata: map<string, string>) returns (res: Result<()>)
      requires r.kind == ClaimKind
      modifies api
      ensures api.calls > old(api.calls)
      ensures DiskLabelled(rules, old(api.objects), api.objects, r, metadata, res.Ok?,
                           api.Calm(old(api.calls), api.calls))
    {
      hide AllPass, HasEntries, AllValidForDisk, DiskMerged;
      var got := api.Get(r);
      if got.Err? {
        return Err(got.error);
      }
      var claim := got.value.claim;
      var ok, labels := LabelDisk(claim.labels, metadata);
      if !ok {
        return Err(Rejected);
      }
      res := api.Update(r, ClaimObject(claim.(labels := labels)));
    }

    /** The loop, over the keys in any order. */
    method LabelDisk(before: map<string, string>, metadata: map<string, string>)
      returns (ok: bool, labels: map<string, string>)
      ensures ok <==> AllValidForDisk(rules, metadata)
      ensures ok ==> labels == DiskMerged(before, metadata)
      ensures ok <==> AllPass(rules, metadata)
      ensures ok ==> HasEntries(metadata, before, labels)
    {
      hide AllPass, HasEntries;
      ValidAllPass(rules, metadata);
      MergedHasEntries(metadata, before);
      labels := before;
      var todo := metadata.Keys;
      assert DiskProgress(before, metadata, todo, labels) by { NoneDone(before, metadata); }
      while todo != {}
        invariant DiskProgress(before, metadata, todo, labels)
        decreases todo
      {
        var k :| k in todo;
        var valid, v := CheckEntry(k, metadata[k]);
        if !valid {
          return false, labels;
        }
        OneMoreDone(before, metadata, todo, labels, k);
        todo, labels := todo - {k}, labels[LabelKey(k) := v];
      }
      AllDone(before, metadata, labels);
      return true, labels;
    }

    method CheckEntry(key: string, value: string) returns (valid: bool, v: string)
      ensures valid <==> ValidForDisk(rules, key, value)
      ensures v == DiskValue(key, value)
    {
      v := value;
      if key == "attached_at" {
        v := Underscored(v);
      }
      valid := rules.qualifiedName(LabelKey(key)) && rules.labelValue(v);
    }

    /** The entries gone through are valid, and the labels are the merge of exactly those. */
    ghost predicate DiskProgress(before: map<string, string>, metadata: map<string, string>, todo: set<string>,
                                 labels: map<string, string>) {
      && todo <= metadata.Keys
      && (forall k | k in metadata && k !in todo :: ValidForDisk(rules, k, metadata[k]))
      && labels == DiskMerged(before, metadata - todo)
    }

    lemma NoneDone(before: map<string, string>, metadata: map<string, string>)
      ensures DiskProgress(before, metadata, metadata.Keys, before)
    {
      assert metadata - metadata.Keys == map[];
    }

    lemma OneMoreDone(before: map<string, string>, metadata: map<string, string>, todo: set<string>,
                      labels: map<string, string>, k: string)
      requires DiskProgress(before, metadata, todo, labels) && k in todo && ValidForDisk(rules, k, metadata[k])
      ensures DiskProgress(before, metadata, todo - {k}, labels[LabelKey(k) := DiskValue(k, metadata[k])])
    {
      hide DiskMerged, DiskValue, ValidForDisk, LabelKey;
      assert metadata - (todo - {k}) == (metadata - todo)[k := metadata[k]];
      OneMoreLabel(before, metadata - todo, k, metadata[k]);
    }

    lemma AllDone(before: map<string, string>, metadata: map<string, string>, labels: map<string, string>)
      requires DiskProgress(before, metadata, {}, labels)
      ensures labels == DiskMerged(before, metadata)
      ensures forall k | k in metadata :: ValidForDisk(rules, k, metadata[k])
    {
      assert metadata - {} == metadata;
    }

    lemma OneMoreLabel(before: map<string, string>, done: map<string, string>, k: string, v: string)
      ensures DiskMerged(before, done[k := v]) == DiskMerged(before, done)[LabelKey(k) := DiskValue(k, v)]
    {
      hide DiskLabels, DiskValue, LabelKey;
      NamesInjective();
      var more, one := DiskMerged(before, done[k := v]), DiskMerged(before, done)[LabelKey(k) := DiskValue(k, v)];
      forall q
        ensures q in more <==> q in one
        ensures q in more ==> more[q] == one[q]
      {
        DiskLabelAt(done, q);
        DiskLabelAt(done[k := v], q);
      }
    }

    /** SetVMMetadata: the pod's labels become the merge of the entries in some order, by a patch that
        leaves everything else of the pod to the server. A pod without labels has no map to write to. */
    method SetVMMetadata(api: Api, vmCid: string, metadata: map<string, string>) returns (res: Result<()>)
      modifies api
      ensures api.calls >= old(api.calls)
      ensures res.Err? ==> api.objects == old(api.objects)
      ensures ParseCid(vmCid).None? ==> res == Err(Panicked)
      ensures ParseCid(vmCid).Some? && provider.New(ParseCid(vmCid).value.0).None? ==> res == Err(Rejected)
      ensures ParseCid(vmCid).Some? && provider.New(ParseCid(vmCid).value.0).Some? ==>
                var r := Ref(PodKind, provider.New(ParseCid(vmCid).value.0).value.ns,
                             AgentName(ParseCid(vmCid).value.1));
                VMLabelled(rules, old(api.objects), api.objects, r, metadata, res.Ok?,
                           api.Calm(old(api.calls), api.calls))
      ensures forall context, id | Through(vmCid, context, id) && !provider.Knows(context) ::
                api.calls == old(api.calls) && res == Err(Rejected)
      ensures forall context, id, resolved, ns |
                Through(vmCid, context, id) && provider.Resolves(context, resolved, ns) ::
                SetsValid(rules, metadata, Ref(PodKind, ns, "agent-" + id), old(api.objects), api.objects, res.Ok?,
                          api.Calm(old(api.calls), api.calls))
    {
      hide ParseCid, Through, Provider.New, Provider.Knows, Provider.Resolves, VMLabelled, SetsValid;
      ThroughIsParse(vmCid);
      var vm := ParseCid(vmCid);
      if vm.None? {
        return Err(Panicked);
      }
      provider.NewResolves(vm.value.0);
      var client := provider.New(vm.value.0);
      if client.None? {
        return Err(Rejected);
      }
      var r := Ref(PodKind, client.value.ns, AgentName(vm.value.1));
      res := PatchPod(api, r, metadata);
      LabelledSetsValid(rules, metadata, r, old(api.objects), api.objects, res.Ok?,
                        api.Calm(old(api.calls), api.calls));
    }

    method PatchPod(api: Api, r: Ref, metadata: map<string, string>) returns (res: Result<()>)
      requires r.kind == PodKind
      modifies api
      ensures api.calls > old(api.calls)
      ensures res.Err? ==> api.objects == old(api.objects)
      ensures VMLabelled(rules, old(api.objects), api.objects, r, metadata, res.Ok?,
                         api.Calm(old(api.calls), api.calls))
    {
      hide Relabels, NonePasses, ValidForVm;
      var got := api.Get(r);
      if got.Err? {
        return Err(got.error);
      }
      var pod := got.value.pod;
      var ok, labels, order := LabelPod(pod.labels, metadata);
      if !ok {
        return Err(Panicked);
      }
      MergeOnlyAdds(rules, pod.labels, metadata, order);
      assert pod.labels + Changed(pod.labels, labels) == labels;
      res := api.Patch(r, Changed(pod.labels, labels));
    }

    /** The loop, over the keys in any order; writing to a nil label map panics. */
    method LabelPod(before: map<string, string>, metadata: map<string, string>)
      returns (ok: bool, labels: map<string, string>, ghost order: seq<string>)
      ensures ok ==> IsOrder(order, metadata) && labels == MergeInOrder(rules, before, metadata, order)
      ensures before != map[] ==> ok
      ensures before == map[] ==> (ok <==> forall k | k in metadata :: !ValidForVm(rules, k, metadata[k]))
      ensures ok ==> Relabels(rules, metadata, before, labels)
      ensures before == map[] ==> (ok <==> NonePasses(rules, metadata))
    {
      labels, order := before, [];
      var todo := metadata.Keys;
      while todo != {}
        invariant todo <= metadata.Keys
        invariant Enumerates(order, metadata.Keys - todo)
        invariant labels == MergeInOrder(rules, before, metadata, order)
        invariant before == map[] ==> forall k | k in order :: !ValidForVm(rules, k, metadata[k])
        decreases todo
      {
        var k :| k in todo;
        ghost var more := order + [k];
        AppendKey(order, metadata.Keys - todo, k);
        assert metadata.Keys - todo + {k} == metadata.Keys - (todo - {k});
        todo := todo - {k};
        assert more[..|more| - 1] == order;
        var q := "bosh.cloudfoundry.org/" + rules.lower(k);
        if rules.qualifiedName(q) && rules.labelValue(metadata[k]) {
          if before == map[] {
            return false, labels, order;
          }
          labels := labels[q := metadata[k]];
        }
        order := more;
      }
      MergeRelabels(rules, metadata, before, order);
      return true, labels, order;
    }
  }
}
