/**
 Probing a chain of shared nodes.  Each node has a segment, and equal segments share one
 budget.  A probe charges the nodes in order and stops at the first one that is closed or
 whose budget is spent, closing it; the probe is a hit if it was served the first node.

 How many hits a fresh budget yields: never more than the budget, and exactly the budget if
 and only if the first segment does not recur where the first probe can reach it.
 */
module SegmentWalk {
  import opened Ledger
  import opened Numbers

  type Charges = map<Fingerprint, nat>

  datatype WalkState = WalkState(stop: nat, open: seq<bool>, charges: Charges)

  /** One probe, from node `i` on; `stop` is the first node not served. */
  function Walk(fps: seq<Fingerprint>, open: seq<bool>, charges: Charges, budget: nat, i: nat): (w: WalkState)
    requires |open| == |fps| && i <= |fps|
    ensures |w.open| == |fps| && i <= w.stop <= |fps|
    decreases |fps| - i
  {
    if i == |fps| || !open[i] then WalkState(i, open, charges)
    else
      var used := Charge(charges, fps[i]);
      if used >= budget then WalkState(i, open[i := false], charges)
      else Walk(fps, open[i := used + 1 < budget], charges[fps[i] := used + 1], budget, i + 1)
  }

  datatype ProbeState = ProbeState(hits: nat, open: seq<bool>, charges: Charges)

  /** `n` probes in a row. */
  function Probes(fps: seq<Fingerprint>, open: seq<bool>, charges: Charges, budget: nat, n: nat): (p: ProbeState)
    requires |open| == |fps|
    ensures |p.open| == |fps|
  {
    if n == 0 then ProbeState(0, open, charges)
    else
      var p := Probes(fps, open, charges, budget, n - 1);
      var w := Walk(fps, p.open, p.charges, budget, 0);
      ProbeState(p.hits + (if w.stop > 0 then 1 else 0), w.open, w.charges)
  }

  /** Which nodes promotion opens. */
  function Opens(fps: seq<Fingerprint>, charges: Charges, budget: nat): (open: seq<bool>)
    ensures |open| == |fps|
  {
    seq(|fps|, i requires 0 <= i < |fps| => Charge(charges, fps[i]) < budget)
  }

  /** The hits that a fresh budget yields when it is probed two times more often than it allows. */
  function Yield(fps: seq<Fingerprint>, budget: nat): nat {
    Probes(fps, Opens(fps, map[], budget), map[], budget, budget + 2).hits
  }

  /** How often `f` occurs at the positions from `i` to `j`. */
  function Occurs(fps: seq<Fingerprint>, f: Fingerprint, i: nat, j: nat): nat
    requires i <= j <= |fps|
    decreases j - i
  {
    if i == j then 0 else (if fps[i] == f then 1 else 0) + Occurs(fps, f, i + 1, j)
  }

  /** The first segment occurs again at `r`, and no segment up to there occurs more often than the budget allows. */
  predicate RecursAt(fps: seq<Fingerprint>, budget: nat, r: nat) {
    0 < r < |fps| && fps[r] == fps[0] && forall j | 0 <= j <= r :: Occurs(fps, fps[j], 0, j + 1) <= budget
  }

  predicate Recurs(fps: seq<Fingerprint>, budget: nat) {
    exists r | 0 < r < |fps| :: RecursAt(fps, budget, r)
  }

  // ----- one probe -----

  lemma {:induction false} OccursSplit(fps: seq<Fingerprint>, f: Fingerprint, i: nat, m: nat, j: nat)
    requires i <= m <= j <= |fps|
    ensures Occurs(fps, f, i, j) == Occurs(fps, f, i, m) + Occurs(fps, f, m, j)
    decreases m - i
  {
    if i == m {
    } else {
      OccursSplit(fps, f, i + 1, m, j);
    }
  }

  /** A walk charges each segment once per node served, and never beyond the budget. */
  lemma {:induction false} WalkCharges(
    fps: seq<Fingerprint>, open: seq<bool>, charges: Charges, budget: nat, i: nat, f: Fingerprint)
    requires |open| == |fps| && i <= |fps|
    ensures var w := Walk(fps, open, charges, budget, i);
            && Charge(w.charges, f) == Charge(charges, f) + Occurs(fps, f, i, w.stop)
            && Charge(w.charges, f) <= Max(budget, Charge(charges, f))
    decreases |fps| - i
  {
    if i == |fps| || !open[i] || Charge(charges, fps[i]) >= budget {
    } else {
      var used := Charge(charges, fps[i]);
      WalkCharges(fps, open[i := used + 1 < budget], charges[fps[i] := used + 1], budget, i + 1, f);
    }
  }

  /** A walk opens nothing, leaves the nodes before it alone, and closes the node it stops at. */
  lemma {:induction false} WalkCloses(
    fps: seq<Fingerprint>, open: seq<bool>, charges: Charges, budget: nat, i: nat, j: nat)
    requires |open| == |fps| && i <= |fps| && j < |fps|
    ensures var w := Walk(fps, open, charges, budget, i);
            && (w.open[j] ==> open[j]) && (j < i ==> w.open[j] == open[j])
            && (j == w.stop ==> !w.open[j]) && (i <= j && !open[j] ==> w.stop <= j)
    decreases |fps| - i
  {
    if i == |fps| || !open[i] || Charge(charges, fps[i]) >= budget {
    } else {
      var used := Charge(charges, fps[i]);
      WalkCloses(fps, open[i := used + 1 < budget], charges[fps[i] := used + 1], budget, i + 1, j);
    }
  }

  /** What one probe does to the first segment. */
  lemma FirstNode(fps: seq<Fingerprint>, open: seq<bool>, charges: Charges, budget: nat)
    requires |open| == |fps| > 0 && (!open[0] ==> Charge(charges, fps[0]) >= budget)
    ensures var w := Walk(fps, open, charges, budget, 0);
            && (w.stop > 0 <==> Charge(charges, fps[0]) < budget)
            && (w.stop == 0 ==> w.charges == charges)
            && Charge(w.charges, fps[0]) >= Charge(charges, fps[0]) + (if w.stop > 0 then 1 else 0)
            && Charge(w.charges, fps[0]) <= Max(budget, Charge(charges, fps[0]))
            && (!w.open[0] ==> Charge(w.charges, fps[0]) >= budget)
  {
    var w := Walk(fps, open, charges, budget, 0);
    WalkCharges(fps, open, charges, budget, 0, fps[0]);
    var used := Charge(charges, fps[0]);
    if open[0] && used < budget {
      WalkCloses(fps, open[0 := used + 1 < budget], charges[fps[0] := used + 1], budget, 1, 0);
    }
  }

  // ----- many probes -----

  /** The hits are paid for by the first segment, and enough probes spend its budget. */
  lemma {:induction false} ProbesBounds(fps: seq<Fingerprint>, open: seq<bool>, charges: Charges, budget: nat, n: nat)
    requires |open| == |fps| > 0 && (!open[0] ==> Charge(charges, fps[0]) >= budget)
    ensures var p := Probes(fps, open, charges, budget, n);
            var before, after := Charge(charges, fps[0]), Charge(p.charges, fps[0]);
            && before + p.hits <= after <= Max(budget, before) && Min(budget, before + n) <= after
            && (!p.open[0] ==> after >= budget)
            && (before >= budget ==> p.hits == 0 && p.charges == charges)
  {
    if n == 0 {
    } else {
      ProbesBounds(fps, open, charges, budget, n - 1);
      var p := Probes(fps, open, charges, budget, n - 1);
      FirstNode(fps, p.open, p.charges, budget);
    }
  }

  lemma {:induction false} ProbesCompose(
    fps: seq<Fingerprint>, open: seq<bool>, charges: Charges, budget: nat, m: nat, n: nat)
    requires |open| == |fps|
    ensures var p := Probes(fps, open, charges, budget, m);
            var q := Probes(fps, p.open, p.charges, budget, n);
            Probes(fps, open, charges, budget, m + n) == ProbeState(p.hits + q.hits, q.open, q.charges)
    decreases n
  {
    if n == 0 {
    } else {
      ProbesCompose(fps, open, charges, budget, m, n - 1);
      assert m + n - 1 == m + (n - 1);
    }
  }

  /** The first segment does not occur between the first node and node `d`, and no probe gets past `d`. */
  predicate Barrier(fps: seq<Fingerprint>, open: seq<bool>, d: nat)
    requires |open| == |fps|
  {
    d <= |fps| && (d < |fps| ==> !open[d]) && forall j | 0 < j < d :: fps[j] != fps[0]
  }

  lemma {:induction false} OccursNot(fps: seq<Fingerprint>, f: Fingerprint, i: nat, j: nat)
    requires i <= j <= |fps| && forall k | i <= k < j :: fps[k] != f
    ensures Occurs(fps, f, i, j) == 0
    decreases j - i
  {
    if i == j {
    } else {
      OccursNot(fps, f, i + 1, j);
    }
  }

  /** Behind a barrier every hit costs one unit. */
  lemma BarrierProbe(fps: seq<Fingerprint>, open: seq<bool>, charges: Charges, budget: nat, d: nat)
    requires |open| == |fps| > 0 && Barrier(fps, open, d)
    ensures var w := Walk(fps, open, charges, budget, 0);
            && Barrier(fps, w.open, d)
            && Charge(w.charges, fps[0]) == Charge(charges, fps[0]) + if w.stop > 0 then 1 else 0
  {
    var w := Walk(fps, open, charges, budget, 0);
    WalkCharges(fps, open, charges, budget, 0, fps[0]);
    if d < |fps| {
      WalkCloses(fps, open, charges, budget, 0, d);
    }
    if w.stop > 0 {
      OccursNot(fps, fps[0], 1, w.stop);
    }
  }

  lemma {:induction false} BarrierProbes(
    fps: seq<Fingerprint>, open: seq<bool>, charges: Charges, budget: nat, d: nat, n: nat)
    requires |open| == |fps| > 0 && Barrier(fps, open, d)
    ensures var p := Probes(fps, open, charges, budget, n);
            Barrier(fps, p.open, d) && Charge(p.charges, fps[0]) == Charge(charges, fps[0]) + p.hits
    decreases n
  {
    if n == 0 {
    } else {
      BarrierProbes(fps, open, charges, budget, d, n - 1);
      var p := Probes(fps, open, charges, budget, n - 1);
      BarrierProbe(fps, p.open, p.charges, budget, d);
    }
  }

  // ----- the first probe of a fresh budget -----

  /** It is served up to `r` if no segment occurs too often up to there. */
  lemma {:induction false} FreshWalkReaches(
    fps: seq<Fingerprint>, open: seq<bool>, charges: Charges, budget: nat, i: nat, r: nat)
    requires |open| == |fps| && i <= r < |fps|
    requires forall j | i <= j < |fps| :: open[j]
    requires forall f :: Charge(charges, f) == Occurs(fps, f, 0, i)
    requires forall j | i <= j <= r :: Occurs(fps, fps[j], 0, j + 1) <= budget
    ensures Walk(fps, open, charges, budget, i).stop > r
    decreases |fps| - i
  {
    var f, used := fps[i], Charge(charges, fps[i]);
    OccursSplit(fps, f, 0, i, i + 1);
    assert used < budget;
    var charges' := charges[f := used + 1];
    forall g
      ensures Charge(charges', g) == Occurs(fps, g, 0, i + 1)
    {
      OccursSplit(fps, g, 0, i, i + 1);
    }
    if i == r {
    } else {
      FreshWalkReaches(fps, open[i := used + 1 < budget], charges', budget, i + 1, r);
    }
  }

  /** Up to where it is served, no segment occurs more often than the budget allows. */
  lemma FreshWalkStays(fps: seq<Fingerprint>, open: seq<bool>, budget: nat, r: nat)
    requires |open| == |fps| && r < Walk(fps, open, map[], budget, 0).stop
    ensures forall j | 0 <= j <= r :: Occurs(fps, fps[j], 0, j + 1) <= budget
  {
    var w := Walk(fps, open, map[], budget, 0);
    forall j | 0 <= j <= r
      ensures Occurs(fps, fps[j], 0, j + 1) <= budget
    {
      WalkCharges(fps, open, map[], budget, 0, fps[j]);
      OccursSplit(fps, fps[j], 0, j + 1, w.stop);
    }
  }

  lemma FirstOfMany(fps: seq<Fingerprint>, open: seq<bool>, charges: Charges, budget: nat, n: nat)
    requires |open| == |fps| && n > 0
    ensures var w := Walk(fps, open, charges, budget, 0);
            var q := Probes(fps, w.open, w.charges, budget, n - 1);
            Probes(fps, open, charges, budget, n) ==
              ProbeState((if w.stop > 0 then 1 else 0) + q.hits, q.open, q.charges)
  {
    ProbesCompose(fps, open, charges, budget, 1, n - 1);
    assert Probes(fps, open, charges, budget, 0) == ProbeState(0, open, charges);
  }

  // ----- main results -----

  /** A fresh budget yields at least one hit and at most as many as it allows, and is spent afterwards. */
  lemma YieldIsWithinBudget(fps: seq<Fingerprint>, budget: nat)
    requires fps != [] && budget > 0
    ensures 1 <= Yield(fps, budget) <= budget
    ensures Charge(Probes(fps, Opens(fps, map[], budget), map[], budget, budget + 2).charges, fps[0]) == budget
  {
    var open := Opens(fps, map[], budget);
    ProbesBounds(fps, open, map[], budget, budget + 2);
    FirstOfMany(fps, open, map[], budget, budget + 2);
    FirstNode(fps, open, map[], budget);
  }

  /**
   The yield is exactly the budget if and only if the first segment does not recur at a
   place that the first probe reaches.  With a budget of one it never does.
   */
  lemma YieldIsBudgetIff(fps: seq<Fingerprint>, budget: nat)
    requires fps != [] && budget > 0
    ensures Yield(fps, budget) == budget <==> !Recurs(fps, budget)
  {
    if Recurs(fps, budget) {
      var r :| 0 < r < |fps| && RecursAt(fps, budget, r);
      RecurrenceWastes(fps, budget, r);
    } else {
      NoRecurrenceIsExact(fps, budget);
    }
  }

  /** The first probe pays for the first segment twice. */
  lemma RecurrenceWastes(fps: seq<Fingerprint>, budget: nat, r: nat)
    requires budget > 0 && RecursAt(fps, budget, r)
    ensures Yield(fps, budget) < budget
  {
    var open := Opens(fps, map[], budget);
    var w := Walk(fps, open, map[], budget, 0);
    FirstOfMany(fps, open, map[], budget, budget + 2);
    FirstNode(fps, open, map[], budget);
    PaidTwice(fps, budget, r);
    ProbesBounds(fps, w.open, w.charges, budget, budget + 1);
  }

  lemma PaidTwice(fps: seq<Fingerprint>, budget: nat, r: nat)
    requires budget > 0 && RecursAt(fps, budget, r)
    ensures Charge(Walk(fps, Opens(fps, map[], budget), map[], budget, 0).charges, fps[0]) >= 2
  {
    var open := Opens(fps, map[], budget);
    var w := Walk(fps, open, map[], budget, 0);
    FreshWalkReaches(fps, open, map[], budget, 0, r);
    WalkCharges(fps, open, map[], budget, 0, fps[0]);
    OccursSplit(fps, fps[0], 1, r, w.stop);
  }

  lemma NoRecurrenceIsExact(fps: seq<Fingerprint>, budget: nat)
    requires fps != [] && budget > 0 && !Recurs(fps, budget)
    ensures Yield(fps, budget) == budget
  {
    var open := Opens(fps, map[], budget);
    var w := Walk(fps, open, map[], budget, 0);
    FirstOfMany(fps, open, map[], budget, budget + 2);
    FirstNode(fps, open, map[], budget);
    YieldIsWithinBudget(fps, budget);
    BarrierAfterFirst(fps, budget);
    WalkCharges(fps, open, map[], budget, 0, fps[0]);
    OccursNot(fps, fps[0], 1, w.stop);
    BarrierProbes(fps, w.open, w.charges, budget, w.stop, budget + 1);
  }

  lemma BarrierAfterFirst(fps: seq<Fingerprint>, budget: nat)
    requires !Recurs(fps, budget)
    ensures var w := Walk(fps, Opens(fps, map[], budget), map[], budget, 0);
            Barrier(fps, w.open, w.stop)
  {
    var open := Opens(fps, map[], budget);
    var w := Walk(fps, open, map[], budget, 0);
    forall j | 0 < j < w.stop
      ensures fps[j] != fps[0]
    {
      FreshWalkStays(fps, open, budget, j);
      assert !RecursAt(fps, budget, j);
    }
    if w.stop < |fps| {
      WalkCloses(fps, open, map[], budget, 0, w.stop);
    }
  }

  /** Two equal segments: every probe but possibly the last pays twice. */
  lemma EqualSegmentsHalve(s: Fingerprint, budget: nat)
    requires budget > 0
    ensures Yield([s, s], budget) == (budget + 1) / 2
  {
    var half := budget / 2;
    assert Opens([s, s], map[], budget) == [true, true];
    PayTwice(s, budget, half);
    var p := Probes([s, s], [true, true], map[], budget, half);
    ProbesCompose([s, s], [true, true], map[], budget, half, budget + 2 - half);
    LastHit(s, p.open, p.charges, budget, budget + 2 - half);
  }

  /** One unit left, or none. */
  lemma LastHit(s: Fingerprint, open: seq<bool>, charges: Charges, budget: nat, n: nat)
    requires |open| == 2 && budget > 0 && n > 0
    requires Charge(charges, s) == budget - budget % 2 && (budget % 2 == 1 ==> open[0])
    ensures Probes([s, s], open, charges, budget, n).hits == budget % 2
  {
    if budget % 2 == 0 {
      ProbesBounds([s, s], open, charges, budget, n);
    } else {
      FirstOfMany([s, s], open, charges, budget, n);
      FirstNode([s, s], open, charges, budget);
      var w := Walk([s, s], open, charges, budget, 0);
      ProbesBounds([s, s], w.open, w.charges, budget, n - 1);
    }
  }

  lemma {:induction false} PayTwice(s: Fingerprint, budget: nat, k: nat)
    requires 2 * k <= budget && budget > 0
    ensures var p := Probes([s, s], [true, true], map[], budget, k);
            p.hits == k && Charge(p.charges, s) == 2 * k && (2 * k < budget ==> p.open == [true, true])
  {
    if k == 0 {
    } else {
      PayTwice(s, budget, k - 1);
      var p := Probes([s, s], [true, true], map[], budget, k - 1);
      var once := p.charges[s := 2 * k - 1];
      assert [true, true][0 := 2 * k - 1 < budget] == [true, true];
      assert [true, true][1 := 2 * k < budget] == [true, 2 * k < budget];
      assert Walk([s, s], p.open, p.charges, budget, 0) == Walk([s, s], [true, true], once, budget, 1);
      assert Walk([s, s], [true, true], once, budget, 1)
        == Walk([s, s], [true, 2 * k < budget], once[s := 2 * k], budget, 2);
    }
  }
}
