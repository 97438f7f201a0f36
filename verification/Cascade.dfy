/**
 The two-tier detector evaluation: the second tier runs in batches over the samples that
 the first did not flag, and both are scored against the labels.
 */
module Cascade {
  import opened Numbers
  import opened Options

  // ----- the batched second tier -----

  /** The samples to run: all of them, or those the first tier did not flag. */
  function ToRun(n: nat, tier1: Option<seq<bool>>): (r: seq<nat>)
    requires tier1.Some? ==> |tier1.value| <= n
    ensures forall a | 0 <= a < |r| :: r[a] < n
  {
    match tier1
    case None => seq(n, i => i)
    case Some(flags) => Unflagged(flags)
  }

  function Unflagged(flags: seq<bool>): (r: seq<nat>)
    ensures forall a | 0 <= a < |r| :: r[a] < |flags| && !flags[r[a]]
    ensures forall a, b | 0 <= a < b < |r| :: r[a] < r[b]
    ensures forall i | 0 <= i < |flags| && !flags[i] :: i in r
  {
    if flags == [] then []
    else
      var n := |flags| - 1;
      Unflagged(flags[..n]) + if flags[n] then [] else [n]
  }

  /** Flagged by the first tier, or by the second on its own. */
  function Cascaded(texts: seq<string>, tier1: Option<seq<bool>>, detect: string -> bool): (r: seq<bool>)
    requires tier1.Some? ==> |tier1.value| <= |texts|
    ensures |r| == |texts|
  {
    seq(|texts|, i requires 0 <= i < |texts| =>
      match tier1
      case None => detect(texts[i])
      case Some(flags) => i < |flags| && (flags[i] || detect(texts[i])))
  }

  /** A detector that answers each text of a batch by itself. */
  method DetectBatch(chunk: seq<string>, detect: string -> bool) returns (results: seq<bool>)
    ensures |results| == |chunk|
    ensures forall j | 0 <= j < |chunk| :: results[j] == detect(chunk[j])
  {
    results := seq(|chunk|, j requires 0 <= j < |chunk| => detect(chunk[j]));
  }

  /** The decision for sample `i` after the first `done` entries of `run` were processed. */
  predicate Decided(
    texts: seq<string>, tier1: Option<seq<bool>>, detect: string -> bool, run: seq<nat>, done: nat, i: nat)
    requires i < |texts| && done <= |run|
  {
    (tier1.Some? && i < |tier1.value| && tier1.value[i]) || (i in run[..done] && detect(texts[i]))
  }

  ghost predicate OnTrack(
    out: seq<bool>, texts: seq<string>, tier1: Option<seq<bool>>, detect: string -> bool, run: seq<nat>,
    done: nat) {
    && |out| == |texts| && done <= |run| && (tier1.Some? ==> |tier1.value| <= |texts|) && run == ToRun(|texts|, tier1)
    && forall i | 0 <= i < |texts| :: out[i] == Decided(texts, tier1, detect, run, done, i)
  }

  /** Writes the results of one batch. */
  method RunBatch(
    out: array<bool>, texts: seq<string>, tier1: Option<seq<bool>>, detect: string -> bool, run: seq<nat>,
    start: nat, end: nat)
    requires OnTrack(out[..], texts, tier1, detect, run, start) && start <= end <= |run|
    modifies out
    ensures OnTrack(out[..], texts, tier1, detect, run, end)
  {
    var batch := run[start..end];
    var chunk := seq(|batch|, j requires 0 <= j < |batch| => texts[batch[j]]);
    var results := DetectBatch(chunk, detect);
    for j := 0 to |results|
      invariant OnTrack(out[..], texts, tier1, detect, run, start + j)
    {
      StepDecided(out[..], texts, tier1, detect, run, start + j);
      out[batch[j]] := results[j];
    }
  }

  lemma StepDecided(
    out: seq<bool>, texts: seq<string>, tier1: Option<seq<bool>>, detect: string -> bool, run: seq<nat>, done: nat)
    requires OnTrack(out, texts, tier1, detect, run, done) && done < |run|
    ensures run[done] < |out| && OnTrack(out[run[done] := detect(texts[run[done]])], texts, tier1, detect, run,
      done + 1)
  {
    assert run[..done + 1] == run[..done] + [run[done]];
    assert tier1.Some? ==> run[done] < |tier1.value| && !tier1.value[run[done]];
  }

  /**
   The batched, skipping evaluation decides every sample as the two tiers would one by one,
   for any batch size of at least one.  Samples beyond a short first-tier list stay unflagged.
   */
  method RunTier2(
    texts: seq<string>, batchSize: nat, tier1: Option<seq<bool>>, detect: string -> bool) returns (preds: seq<bool>)
    requires batchSize > 0
    requires tier1.Some? ==> |tier1.value| <= |texts|
    ensures preds == Cascaded(texts, tier1, detect)
    ensures |preds| == |texts|
    ensures tier1.None? ==> forall i | 0 <= i < |texts| :: preds[i] == detect(texts[i])
    ensures tier1.Some? ==> forall i | 0 <= i < |texts| ::
      preds[i] == (i < |tier1.value| && (tier1.value[i] || detect(texts[i])))
  {
    var n := |texts|;
    var out := new bool[n](_ => false);
    var run := ToRun(n, tier1);
    if tier1.Some? {
      for i := 0 to |tier1.value|
        invariant forall k | 0 <= k < n :: out[k] == (k < i && tier1.value[k])
      {
        if tier1.value[i] {
          out[i] := true;
        }
      }
    }
    var start: nat := 0;
    while start < |run|
      invariant start <= |run| && OnTrack(out[..], texts, tier1, detect, run, start)
      decreases |run| - start
    {
      var end := if start + batchSize <= |run| then start + batchSize else |run|;
      RunBatch(out, texts, tier1, detect, run, start, end);
      start := end;
    }
    preds := out[..];
    AllDecided(preds, texts, tier1, detect, run);
  }

  lemma AllDecided(out: seq<bool>, texts: seq<string>, tier1: Option<seq<bool>>, detect: string -> bool, run: seq<nat>)
    requires OnTrack(out, texts, tier1, detect, run, |run|)
    ensures out == Cascaded(texts, tier1, detect)
  {
    forall i | 0 <= i < |texts|
      ensures out[i] == Cascaded(texts, tier1, detect)[i]
    {
      assert run[..|run|] == run;
      if tier1.None? {
        assert run[i] == i;
      }
    }
  }

  // ----- the scores -----

  datatype Counts = Counts(tp: nat, fp: nat, tn: nat, fn: nat)

  function Tally(preds: seq<bool>, labels: seq<bool>, p: bool, y: bool): nat
    requires |preds| == |labels|
  {
    if preds == [] then 0
    else
      var n := |preds| - 1;
      Tally(preds[..n], labels[..n], p, y) + if preds[n] == p && labels[n] == y then 1 else 0
  }

  /** The first `k` samples with this prediction and this label. */
  ghost function Samples(preds: seq<bool>, labels: seq<bool>, k: nat, p: bool, y: bool): set<nat> {
    set i: nat | i < k && i < |preds| && i < |labels| && preds[i] == p && labels[i] == y
  }

  lemma SamplesGrow(preds: seq<bool>, labels: seq<bool>, k: nat, p: bool, y: bool)
    requires k < |preds| && k < |labels|
    ensures |Samples(preds, labels, k + 1, p, y)| ==
      |Samples(preds, labels, k, p, y)| + if preds[k] == p && labels[k] == y then 1 else 0
  {
    var last: set<nat> := if preds[k] == p && labels[k] == y then {k} else {};
    assert Samples(preds, labels, k + 1, p, y) == Samples(preds, labels, k, p, y) + last;
    assert |Samples(preds, labels, k + 1, p, y)| == |Samples(preds, labels, k, p, y)| + |last|;
  }

  lemma {:induction false} TallyCounted(preds: seq<bool>, labels: seq<bool>, k: nat, p: bool, y: bool)
    requires k <= |preds| && k <= |labels|
    ensures Tally(preds[..k], labels[..k], p, y) == |Samples(preds, labels, k, p, y)|
  {
    if k == 0 {
      assert Samples(preds, labels, 0, p, y) == {};
    } else {
      TallyCounted(preds, labels, k - 1, p, y);
      SamplesGrow(preds, labels, k - 1, p, y);
      assert preds[..k][..k - 1] == preds[..k - 1] && labels[..k][..k - 1] == labels[..k - 1];
    }
  }

  /** Each counter is the number of samples with its prediction and label. */
  lemma CountsAreSamples(preds: seq<bool>, labels: seq<bool>)
    ensures var n := Min(|preds|, |labels|);
            var c := CountsOf(preds[..n], labels[..n]);
            && c.tp == |set i: nat | i < |preds| && i < |labels| && preds[i] && labels[i]|
            && c.fp == |set i: nat | i < |preds| && i < |labels| && preds[i] && !labels[i]|
            && c.tn == |set i: nat | i < |preds| && i < |labels| && !preds[i] && !labels[i]|
            && c.fn == |set i: nat | i < |preds| && i < |labels| && !preds[i] && labels[i]|
  {
    var n := Min(|preds|, |labels|);
    forall p, y
      ensures Tally(preds[..n], labels[..n], p, y) == |Samples(preds, labels, n, p, y)|
    {
      TallyCounted(preds, labels, n, p, y);
    }
    assert Samples(preds, labels, n, true, true) == set i: nat | i < |preds| && i < |labels| && preds[i] && labels[i];
    assert Samples(preds, labels, n, true, false) == set i: nat | i < |preds| && i < |labels| && preds[i] && !labels[i];
    assert Samples(preds, labels, n, false, false) ==
      set i: nat | i < |preds| && i < |labels| && !preds[i] && !labels[i];
    assert Samples(preds, labels, n, false, true) == set i: nat | i < |preds| && i < |labels| && !preds[i] && labels[i];
  }

  /** Counts over the pairs, the longer list cut off, and the three rates, 0 where there is nothing to divide by. */
  method Confusion(preds: seq<bool>, labels: seq<bool>)
    returns (c: Counts, recall: real, precision: real, fpr: real)
    ensures var n := Min(|preds|, |labels|);
            c == CountsOf(preds[..n], labels[..n])
    ensures c.tp == |set i: nat | i < |preds| && i < |labels| && preds[i] && labels[i]|
    ensures c.fp == |set i: nat | i < |preds| && i < |labels| && preds[i] && !labels[i]|
    ensures c.tn == |set i: nat | i < |preds| && i < |labels| && !preds[i] && !labels[i]|
    ensures c.fn == |set i: nat | i < |preds| && i < |labels| && !preds[i] && labels[i]|
    ensures recall == Recall(c) && precision == Precision(c) && fpr == Fpr(c)
    ensures recall == if c.tp + c.fn == 0 then 0.0 else c.tp as real / (c.tp + c.fn) as real
    ensures precision == if c.tp + c.fp == 0 then 0.0 else c.tp as real / (c.tp + c.fp) as real
    ensures fpr == if c.fp + c.tn == 0 then 0.0 else c.fp as real / (c.fp + c.tn) as real
  {
    var tp: nat, fp: nat, tn: nat, fn: nat := 0, 0, 0, 0;
    var n := Min(|preds|, |labels|);
    for i := 0 to n
      invariant Counts(tp, fp, tn, fn) == CountsOf(preds[..i], labels[..i])
    {
      assert preds[..i + 1][..i] == preds[..i] && labels[..i + 1][..i] == labels[..i];
      if labels[i] && preds[i] {
        tp := tp + 1;
      } else if labels[i] && !preds[i] {
        fn := fn + 1;
      } else if !labels[i] && preds[i] {
        fp := fp + 1;
      } else {
        tn := tn + 1;
      }
    }
    c := Counts(tp, fp, tn, fn);
    CountsAreSamples(preds, labels);
    recall, precision, fpr := Rate(tp, tp + fn), Rate(tp, tp + fp), Rate(fp, fp + tn);
  }

  function CountsOf(preds: seq<bool>, labels: seq<bool>): Counts
    requires |preds| == |labels|
  {
    Counts(Tally(preds, labels, true, true), Tally(preds, labels, true, false),
           Tally(preds, labels, false, false), Tally(preds, labels, false, true))
  }

  /** A share, 0 of an empty whole. */
  function Rate(part: nat, whole: nat): real {
    if whole == 0 then 0.0 else part as real / whole as real
  }

  function Recall(c: Counts): real { Rate(c.tp, c.tp + c.fn) }

  function Fpr(c: Counts): real { Rate(c.fp, c.fp + c.tn) }

  function Precision(c: Counts): real { Rate(c.tp, c.tp + c.fp) }

  predicate AtLeast(a: seq<bool>, b: seq<bool>) {
    |a| == |b| && forall i | 0 <= i < |a| :: b[i] ==> a[i]
  }

  /** Flagging more moves counts from the negatives to the positives of the same label. */
  lemma {:induction false} TallyGrows(more: seq<bool>, preds: seq<bool>, labels: seq<bool>, y: bool)
    requires AtLeast(more, preds) && |preds| == |labels|
    ensures Tally(more, labels, true, y) >= Tally(preds, labels, true, y)
    ensures Tally(more, labels, true, y) + Tally(more, labels, false, y) ==
      Tally(preds, labels, true, y) + Tally(preds, labels, false, y)
  {
    if preds == [] {
    } else {
      var n := |preds| - 1;
      TallyGrows(more[..n], preds[..n], labels[..n], y);
    }
  }

  lemma RateGrows(a: nat, b: nat, whole: nat)
    requires a <= b
    ensures Rate(a, whole) <= Rate(b, whole)
  {
    if whole > 0 {
      var w, x, y := whole as real, a as real, b as real;
      assert y / w - x / w == (y - x) / w;
      assert (y - x) / w >= 0.0;
    }
  }

  /** The cascade never scores below the first tier in recall, nor in false-positive rate. */
  lemma CascadeDominates(texts: seq<string>, tier1: seq<bool>, detect: string -> bool, labels: seq<bool>)
    requires |tier1| == |texts| == |labels|
    ensures var cascade := CountsOf(Cascaded(texts, Some(tier1), detect), labels);
            var first := CountsOf(tier1, labels);
            Recall(cascade) >= Recall(first) && Fpr(cascade) >= Fpr(first)
  {
    var more := Cascaded(texts, Some(tier1), detect);
    var cascade, first := CountsOf(more, labels), CountsOf(tier1, labels);
    TallyGrows(more, tier1, labels, true);
    TallyGrows(more, tier1, labels, false);
    RateGrows(first.tp, cascade.tp, cascade.tp + cascade.fn);
    RateGrows(first.fp, cascade.fp, cascade.fp + cascade.tn);
  }

  /** How many samples labelled `y` the second tier adds: flagged by it and not by the first. */
  function Added(texts: seq<string>, tier1: seq<bool>, detect: string -> bool, labels: seq<bool>, y: bool): nat
    requires |tier1| == |texts| == |labels|
  {
    if texts == [] then 0
    else
      var n := |texts| - 1;
      Added(texts[..n], tier1[..n], detect, labels[..n], y)
        + if !tier1[n] && detect(texts[n]) && labels[n] == y then 1 else 0
  }

  /** The cascade flags what the first tier flags and what the second adds. */
  lemma {:induction false} CascadeAdds(
    texts: seq<string>, tier1: seq<bool>, detect: string -> bool, labels: seq<bool>, y: bool)
    requires |tier1| == |texts| == |labels|
    ensures Tally(Cascaded(texts, Some(tier1), detect), labels, true, y) ==
      Tally(tier1, labels, true, y) + Added(texts, tier1, detect, labels, y)
    decreases |texts|
  {
    if texts == [] {
    } else {
      var n := |texts| - 1;
      CascadeAdds(texts[..n], tier1[..n], detect, labels[..n], y);
      assert Cascaded(texts, Some(tier1), detect)[..n] == Cascaded(texts[..n], Some(tier1[..n]), detect);
    }
  }

  /**
   Precision is different: the cascade's is no lower than the first tier's exactly when the
   true positives among the added samples stand to the false ones at least as the first
   tier's do.  Both sides can be counted from the samples.
   */
  lemma PrecisionHoldsIff(texts: seq<string>, tier1: seq<bool>, detect: string -> bool, labels: seq<bool>)
    requires |tier1| == |texts| == |labels|
    ensures var first := CountsOf(tier1, labels);
            Precision(CountsOf(Cascaded(texts, Some(tier1), detect), labels)) >= Precision(first) <==>
              InProportion(Added(texts, tier1, detect, labels, true), Added(texts, tier1, detect, labels, false), first)
  {
    CascadeAdds(texts, tier1, detect, labels, true);
    CascadeAdds(texts, tier1, detect, labels, false);
    var first, more := CountsOf(tier1, labels), CountsOf(Cascaded(texts, Some(tier1), detect), labels);
    PrecisionOf(first, more, Added(texts, tier1, detect, labels, true), Added(texts, tier1, detect, labels, false));
  }

  /** `da` true and `df` false positives stand to each other at least as those counted in `c`. */
  predicate InProportion(da: nat, df: nat, c: Counts) {
    da * c.fp >= df * c.tp
  }

  /** Precision after `da` more true and `df` more false positives. */
  lemma PrecisionOf(first: Counts, more: Counts, da: nat, df: nat)
    requires more.tp == first.tp + da && more.fp == first.fp + df
    ensures Precision(more) >= Precision(first) <==> InProportion(da, df, first)
  {
    var a, f := first.tp, first.fp;
    if a + f > 0 {
      RateCompare(a, a + f, more.tp, more.tp + more.fp);
      assert (a + da) * (a + f) - a * (a + da + (f + df)) == da * f - a * df;
    } else {
      RateGrows(0, more.tp, more.tp + more.fp);
    }
  }

  /** One wrong addition to a perfect first tier lowers precision from 1 to 1/2. */
  lemma PrecisionCanDrop()
    ensures var all: string -> bool := _ => true;
            && Precision(CountsOf([true, false], [true, false])) == 1.0
            && Precision(CountsOf(Cascaded(["a", "b"], Some([true, false]), all), [true, false])) == 0.5
  {
    var all: string -> bool := _ => true;
    var first, both, labels := [true, false], [true, true], [true, false];
    assert Cascaded(["a", "b"], Some(first), all) == both;
    assert first[..1] == both[..1] == labels[..1] == [true];
    forall p, y
      ensures Tally([true], [true], p, y) == if p && y then 1 else 0
    {
      assert Tally([true][..0], [true][..0], p, y) == 0;
    }
    assert CountsOf(first, labels) == Counts(1, 0, 1, 0);
    assert CountsOf(both, labels) == Counts(1, 1, 0, 0);
  }

  lemma RateCompare(a: nat, u: nat, b: nat, v: nat)
    requires u > 0 && v > 0
    ensures Rate(b, v) >= Rate(a, u) <==> b * u >= a * v
  {
    var x, p, y, q := a as real, u as real, b as real, v as real;
    assert y / q * (p * q) == y * p;
    assert x / p * (p * q) == x * q;
    Scale(y / q, x / p, p * q);
    assert (b * u) as real == y * p && (a * v) as real == x * q;
  }

  lemma Scale(x: real, y: real, k: real)
    requires k > 0.0
    ensures x >= y <==> x * k >= y * k
  {
  }
}
