/** Lists of objects to create, in order, and what carrying out a list does to the cluster. */
module Plans {
  import opened Basics
  import opened Cluster

  /** An object to be created. A strict one must not exist yet; otherwise an existing one is kept.
      `Unbuildable` is a definition the program rejects before it makes the call. */
  datatype Planned = Planned(ref: Ref, object_: Object, strict: bool) | Unbuildable

  ghost predicate WellKinded(plan: seq<Planned>) {
    forall p | p in plan :: p.Planned? ==> KindOf(p.object_) == p.ref.kind
  }

  function Placed(m: Store, p: Planned): Store
    requires p.Planned? ==> KindOf(p.object_) == p.ref.kind
  {
    if p.Unbuildable? || p.ref in m then m else m[p.ref := p.object_]
  }

  predicate Possible(m: Store, p: Planned) {
    p.Planned? && (p.strict ==> p.ref !in m)
  }

  /** The store once the whole list is there. */
  function Built(m: Store, plan: seq<Planned>): Store
    requires WellKinded(plan)
    decreases |plan|
  {
    if plan == [] then m else Placed(Built(m, plan[..|plan| - 1]), plan[|plan| - 1])
  }

  /** Every step of the list can be done when its turn comes. */
  ghost predicate Feasible(m: Store, plan: seq<Planned>)
    requires WellKinded(plan)
    decreases |plan|
  {
    plan == [] ||
    (Feasible(m, plan[..|plan| - 1]) && Possible(Built(m, plan[..|plan| - 1]), plan[|plan| - 1]))
  }

  /** Exactly the first `k` steps of the list were carried out. */
  ghost predicate Did(m: Store, plan: seq<Planned>, m': Store, k: nat)
    requires WellKinded(plan)
  {
    k <= |plan| && Feasible(m, plan[..k]) && m' == Built(m, plan[..k])
  }

  /** The list was carried out up to some step: all of it, or with `ok` false only a proper prefix. */
  ghost predicate Ran(m: Store, plan: seq<Planned>, m': Store, ok: bool)
    requires WellKinded(plan)
  {
    if ok then Did(m, plan, m', |plan|) else exists k: nat :: k < |plan| && Did(m, plan, m', k)
  }

  lemma DidNothing(m: Store, plan: seq<Planned>)
    requires WellKinded(plan)
    ensures Did(m, plan, m, 0)
  {
  }

  lemma DidOneMore(m: Store, plan: seq<Planned>, before: Store, k: nat)
    requires WellKinded(plan) && k < |plan| && Did(m, plan, before, k) && Possible(before, plan[k])
    ensures Did(m, plan, Placed(before, plan[k]), k + 1)
  {
    assert plan[..k + 1][..k] == plan[..k];
  }

  lemma {:induction false} BuiltConcat(m: Store, a: seq<Planned>, b: seq<Planned>)
    requires WellKinded(a) && WellKinded(b)
    ensures WellKinded(a + b)
    ensures Built(m, a + b) == Built(Built(m, a), b)
    ensures Feasible(m, a + b) <==> Feasible(m, a) && Feasible(Built(m, a), b)
    decreases |b|
  {
    if b == [] {
      assert a + b == a;
    } else {
      assert (a + b)[..|a + b| - 1] == a + b[..|b| - 1];
      BuiltConcat(m, a, b[..|b| - 1]);
    }
  }

  /** Carrying out two lists one after the other is carrying out their concatenation. */
  lemma RanThen(m: Store, a: seq<Planned>, middle: Store, b: seq<Planned>, m': Store, ok: bool)
    requires WellKinded(a) && WellKinded(b)
    requires Ran(m, a, middle, true) && Ran(middle, b, m', ok)
    ensures WellKinded(a + b) && Ran(m, a + b, m', ok)
  {
    assert a[..|a|] == a;
    BuiltConcat(m, a, b);
    if ok {
      assert b[..|b|] == b && (a + b)[..|a + b|] == a + b;
    } else {
      var k: nat :| k < |b| && Did(middle, b, m', k);
      assert (a + b)[..|a| + k] == a + b[..k];
      BuiltConcat(m, a, b[..k]);
      assert Did(m, a + b, m', |a| + k);
    }
  }

  lemma RanStopped(m: Store, a: seq<Planned>, m': Store, b: seq<Planned>)
    requires WellKinded(a) && WellKinded(b) && Ran(m, a, m', false)
    ensures WellKinded(a + b) && Ran(m, a + b, m', false)
  {
    var k: nat :| k < |a| && Did(m, a, m', k);
    assert (a + b)[..k] == a[..k];
    assert Did(m, a + b, m', k);
  }

  /** The outcome of one part of the work: its list was carried out, or a proper prefix of it;
      all of it if every call was served (`calm`) and every step possible. */
  ghost predicate PartDone(m: Store, plan: seq<Planned>, m': Store, ok: bool, calm: bool)
    requires WellKinded(plan)
  {
    Ran(m, plan, m', ok) && (calm && Feasible(m, plan) ==> ok)
  }

  lemma PartThen(m: Store, a: seq<Planned>, middle: Store, b: seq<Planned>, m': Store, ok: bool, calmA: bool,
                 calmB: bool)
    requires WellKinded(a) && WellKinded(b)
    requires PartDone(m, a, middle, true, calmA) && PartDone(middle, b, m', ok, calmB)
    ensures WellKinded(a + b) && PartDone(m, a + b, m', ok, calmA && calmB)
  {
    RanThen(m, a, middle, b, m', ok);
    BuiltConcat(m, a, b);
    assert a[..|a|] == a;
  }

  lemma PartStopped(m: Store, a: seq<Planned>, m': Store, b: seq<Planned>, calm: bool)
    requires WellKinded(a) && WellKinded(b) && PartDone(m, a, m', false, calm)
    ensures WellKinded(a + b) && PartDone(m, a + b, m', false, calm)
  {
    RanStopped(m, a, m', b);
    BuiltConcat(m, a, b);
  }

  lemma FeasibleStep(m: Store, plan: seq<Planned>, m': Store, k: nat)
    requires WellKinded(plan) && Did(m, plan, m', k) && k < |plan|
    ensures Feasible(m, plan) ==> Possible(m', plan[k])
  {
    if Feasible(m, plan) {
      FeasiblePrefix(m, plan, k);
    }
  }

  lemma FeasiblePrefix(m: Store, plan: seq<Planned>, k: nat)
    requires WellKinded(plan) && k <= |plan| && Feasible(m, plan)
    ensures Feasible(m, plan[..k])
    ensures k < |plan| ==> Possible(Built(m, plan[..k]), plan[k])
  {
    hide Placed, Possible, Built;
    assert plan == plan[..k] + plan[k..];
    BuiltConcat(m, plan[..k], plan[k..]);
    if k < |plan| {
      assert plan[..k + 1] + plan[k + 1..] == plan;
      BuiltConcat(m, plan[..k + 1], plan[k + 1..]);
      assert plan[..k + 1][..k] == plan[..k];
    }
  }

  /** The first object the list gives for a reference. */
  function FirstFor(plan: seq<Planned>, r: Ref): Option<Object> {
    if plan == [] then None
    else if plan[0].Planned? && plan[0].ref == r then Some(plan[0].object_)
    else FirstFor(plan[1..], r)
  }

  lemma {:induction false} FirstForConcat(a: seq<Planned>, b: seq<Planned>, r: Ref)
    ensures FirstFor(a + b, r) == if FirstFor(a, r).Some? then FirstFor(a, r) else FirstFor(b, r)
  {
    if a == [] {
      assert a + b == b;
    } else {
      assert (a + b)[1..] == a[1..] + b;
      FirstForConcat(a[1..], b, r);
    }
  }

  lemma {:induction false} FirstForNone(plan: seq<Planned>, r: Ref)
    ensures FirstFor(plan, r).None? <==> forall i | 0 <= i < |plan| :: plan[i].Planned? ==> plan[i].ref != r
  {
    if plan != [] {
      FirstForNone(plan[1..], r);
      assert forall i | 1 <= i < |plan| :: plan[i] == plan[1..][i - 1];
      assert forall i | 0 <= i < |plan[1..]| :: plan[1..][i] == plan[i + 1];
    }
  }

  /** Carrying out a list is a left-biased merge: what was there stays as it was, and everything else
      there is comes from the first step of the list that names it. */
  lemma {:induction false} BuiltIsMerge(m: Store, plan: seq<Planned>, r: Ref)
    requires WellKinded(plan)
    ensures r in Built(m, plan) <==> r in m || FirstFor(plan, r).Some?
    ensures r in m ==> Built(m, plan)[r] == m[r]
    ensures r !in m && r in Built(m, plan) ==> Some(Built(m, plan)[r]) == FirstFor(plan, r)
    decreases |plan|
  {
    if plan != [] {
      var front, last := plan[..|plan| - 1], plan[|plan| - 1];
      BuiltIsMerge(m, front, r);
      assert plan == front + [last];
      FirstForConcat(front, [last], r);
    }
  }

  /** The step that first names the reference, by its place in the list. */
  ghost predicate FirstStepFor(plan: seq<Planned>, r: Ref, i: nat) {
    i < |plan| && plan[i].Planned? && plan[i].ref == r && forall j | 0 <= j < i :: plan[j].Planned? ==> plan[j].ref != r
  }

  lemma {:induction false} FirstForAt(plan: seq<Planned>, r: Ref) returns (i: nat)
    requires FirstFor(plan, r).Some?
    ensures FirstStepFor(plan, r, i) && plan[i].object_ == FirstFor(plan, r).value
  {
    if plan[0].Planned? && plan[0].ref == r {
      i := 0;
    } else {
      var k := FirstForAt(plan[1..], r);
      i := k + 1;
      assert forall j | 1 <= j < i :: plan[j] == plan[1..][j - 1];
    }
  }

  /** The step can be built, and if it is strict it names what was not there and no earlier step names. */
  ghost predicate Fits(m: Store, plan: seq<Planned>, i: nat)
    requires i < |plan|
  {
    && plan[i].Planned?
    && (plan[i].strict ==>
          plan[i].ref !in m && forall j | 0 <= j < i && plan[j].Planned? :: plan[j].ref != plan[i].ref)
  }

  /** A list can be carried out exactly when each of its steps fits. */
  lemma {:induction false} FeasibleMeans(m: Store, plan: seq<Planned>)
    requires WellKinded(plan)
    ensures Feasible(m, plan) <==> forall i | 0 <= i < |plan| :: Fits(m, plan, i)
    decreases |plan|
  {
    if plan != [] {
      var n := |plan| - 1;
      var front := plan[..n];
      FeasibleMeans(m, front);
      LastFits(m, plan);
      assert forall i | 0 <= i < n :: Fits(m, plan, i) <==> Fits(m, front, i);
    }
  }

  lemma LastFits(m: Store, plan: seq<Planned>)
    requires WellKinded(plan) && plan != []
    ensures Possible(Built(m, plan[..|plan| - 1]), plan[|plan| - 1]) <==> Fits(m, plan, |plan| - 1)
  {
    var front, last := plan[..|plan| - 1], plan[|plan| - 1];
    if last.Planned? {
      BuiltIsMerge(m, front, last.ref);
      FirstForNone(front, last.ref);
    }
  }

  /** What is there once some steps of a list were carried out: what was there, as it was, and what the steps name,
      each as the first of them says. */
  lemma DidMeans(m: Store, plan: seq<Planned>, m': Store, k: nat)
    requires WellKinded(plan) && Did(m, plan, m', k)
    ensures forall j | 0 <= j < k :: plan[j].Planned?
    ensures forall r :: r in m' <==> r in m || exists j :: 0 <= j < k && plan[j].Planned? && plan[j].ref == r
    ensures forall r | r in m :: m'[r] == m[r]
    ensures forall r | r in m' && r !in m ::
              exists i: nat :: i < k && FirstStepFor(plan, r, i) && m'[r] == plan[i].object_
  {
    hide Feasible, Built, FirstFor;
    var done := plan[..k];
    FeasibleMeans(m, done);
    forall j | 0 <= j < k ensures plan[j].Planned? { assert Fits(m, done, j); }
    forall r: Ref
      ensures r in m' <==> r in m || exists j :: 0 <= j < k && plan[j].Planned? && plan[j].ref == r
      ensures r in m ==> m'[r] == m[r]
      ensures r in m' && r !in m ==> exists i: nat :: i < k && FirstStepFor(plan, r, i) && m'[r] == plan[i].object_
    {
      BuiltIsMerge(m, done, r);
      FirstForNone(done, r);
      assert forall j | 0 <= j < k :: done[j] == plan[j];
      if r in m' && r !in m {
        var i := FirstForAt(done, r);
        assert FirstStepFor(plan, r, i);
      }
    }
  }
}
