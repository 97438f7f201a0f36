/**
 The rank statistics of the attack experiments, over exact reals: four pairwise AUC
 computations and the advantage formulas.
 */
module RankStats {
  import opened Numbers
  import opened Reals

  datatype Row = Row(y: int, v: real)

  /** What a computation of the AUC gives. */
  datatype Auc = Value(auc: real) | Nan | DivisionByZero | ValueError

  // ----- rows -----

  function Zipped(labels: seq<int>, values: seq<real>): seq<Row> {
    if labels == [] || values == [] then [] else [Row(labels[0], values[0])] + Zipped(labels[1..], values[1..])
  }

  /** The values of the rows labelled `y`. */
  function Of(rows: seq<Row>, y: int): seq<real> {
    if rows == [] then [] else (if rows[0].y == y then [rows[0].v] else []) + Of(rows[1..], y)
  }

  function Sum(s: seq<real>, f: real -> real): real {
    if s == [] then 0.0 else f(s[0]) + Sum(s[1..], f)
  }

  /** What a positive sample scores against a negative one when lower is positive. */
  function Win(p: real, q: real): real {
    if p < q then 1.0 else if p == q then 0.5 else 0.0
  }

  function Against(p: real): real -> real {
    q => Win(p, q)
  }

  function AgainstAll(neg: seq<real>): real -> real {
    p => Sum(neg, Against(p))
  }

  /** The pairwise score of one class over the other. */
  function Wins(pos: seq<real>, neg: seq<real>): real {
    Sum(pos, AgainstAll(neg))
  }

  /** The probability that a positive is below a negative, ties counting half. */
  function LowerAuc(rows: seq<Row>): real
    requires Both(rows)
  {
    Wins(Of(rows, 1), Of(rows, 0)) / (|Of(rows, 1)| * |Of(rows, 0)|) as real
  }

  predicate Both(rows: seq<Row>) {
    Of(rows, 1) != [] && Of(rows, 0) != []
  }

  // ----- the four implementations -----

  lemma {:induction false} SumSnoc(s: seq<real>, x: real, f: real -> real)
    ensures Sum(s + [x], f) == Sum(s, f) + f(x)
  {
    if s == [] {
      assert [] + [x] == [x];
    } else {
      assert (s + [x])[1..] == s[1..] + [x];
      SumSnoc(s[1..], x, f);
    }
  }

  /** The nested loops. */
  method CountWins(positive: seq<real>, negative: seq<real>) returns (wins: real)
    ensures wins == Wins(positive, negative)
  {
    wins := 0.0;
    for i := 0 to |positive|
      invariant wins == Sum(positive[..i], AgainstAll(negative))
    {
      var p := positive[i];
      for j := 0 to |negative|
        invariant wins == Sum(positive[..i], AgainstAll(negative)) + Sum(negative[..j], Against(p))
      {
        assert negative[..j + 1] == negative[..j] + [negative[j]];
        SumSnoc(negative[..j], negative[j], Against(p));
        if p < negative[j] {
          wins := wins + 1.0;
        } else if p == negative[j] {
          wins := wins + 0.5;
        }
      }
      assert negative[..|negative|] == negative && positive[..i + 1] == positive[..i] + [p];
      SumSnoc(positive[..i], p, AgainstAll(negative));
    }
    assert positive[..|positive|] == positive;
  }

  method RocAuc(labels: seq<int>, values: seq<real>) returns (r: Auc)
    ensures var rows := Zipped(labels, values);
            r == if Both(rows) then Value(LowerAuc(rows)) else DivisionByZero
    ensures r == DivisionByZero <==> !Labelled(labels, values, 1) || !Labelled(labels, values, 0)
    ensures r != DivisionByZero ==>
      && |ClassPairs(labels, values)| > 0
      && r == Value((|LowerPairs(labels, values)| as real + 0.5 * |TiedPairs(labels, values)| as real)
                      / |ClassPairs(labels, values)| as real)
  {
    AucCountsPairs(labels, values);
    var rows := Zipped(labels, values);
    var positive, negative := Of(rows, 1), Of(rows, 0);
    var wins := CountWins(positive, negative);
    if |positive| * |negative| == 0 {
      return DivisionByZero;
    }
    r := Value(wins / (|positive| * |negative|) as real);
  }

  method AucLowerIsPositive(labels: seq<int>, values: seq<real>) returns (r: Auc)
    ensures var rows := Zipped(labels, values);
            r == if Both(rows) then Value(LowerAuc(rows)) else ValueError
    ensures r == ValueError <==> !Labelled(labels, values, 1) || !Labelled(labels, values, 0)
    ensures r != ValueError ==>
      && |ClassPairs(labels, values)| > 0
      && r == Value((|LowerPairs(labels, values)| as real + 0.5 * |TiedPairs(labels, values)| as real)
                      / |ClassPairs(labels, values)| as real)
  {
    AucCountsPairs(labels, values);
    var rows := Zipped(labels, values);
    var positive, negative := Of(rows, 1), Of(rows, 0);
    if positive == [] || negative == [] {
      return ValueError;
    }
    var wins := CountWins(positive, negative);
    r := Value(wins / (|positive| * |negative|) as real);
  }

  /** How many of `neg` are in a relation to `p`. */
  function CountIn(p: real, neg: seq<real>, rel: (real, real) -> bool): nat {
    if neg == [] then 0 else (if rel(p, neg[0]) then 1 else 0) + CountIn(p, neg[1..], rel)
  }

  /** How many pairs are in a relation. */
  function CountPairs(pos: seq<real>, neg: seq<real>, rel: (real, real) -> bool): nat {
    if pos == [] then 0 else CountIn(pos[0], neg, rel) + CountPairs(pos[1..], neg, rel)
  }

  function Below(p: real, q: real): bool { p < q }

  function Equal(p: real, q: real): bool { p == q }

  function Above(p: real, q: real): bool { p > q }

  function RocAucManual(labels: seq<int>, values: seq<real>): Auc {
    var rows := Zipped(labels, values);
    var pos, neg := Of(rows, 1), Of(rows, 0);
    if pos == [] || neg == [] then Nan
    else Value((CountPairs(pos, neg, Below) as real +
      0.5 * CountPairs(pos, neg, Equal) as real) / (|pos| * |neg|) as real)
  }

  function MannWhitneyAuc(labels: seq<int>, values: seq<real>): real {
    var rows := Zipped(labels, values);
    var pos, neg := Of(rows, 1), Of(rows, 0);
    if pos == [] || neg == [] then 0.5
    else (CountPairs(pos, neg, Above) as real + 0.5 * CountPairs(pos, neg, Equal) as real) / (|pos| * |neg|) as real
  }

  lemma {:induction false} CountsInOne(p: real, neg: seq<real>)
    ensures Sum(neg, Against(p)) == CountIn(p, neg, Below) as real + 0.5 * CountIn(p, neg, Equal) as real
    ensures CountIn(p, neg, Below) + CountIn(p, neg, Equal) + CountIn(p, neg, Above) == |neg|
  {
    if neg == [] {
    } else {
      CountsInOne(p, neg[1..]);
    }
  }

  lemma {:induction false} WinsCounted(pos: seq<real>, neg: seq<real>)
    ensures Wins(pos, neg) == CountPairs(pos, neg, Below) as real + 0.5 * CountPairs(pos, neg, Equal) as real
  {
    if pos == [] {
    } else {
      CountsInOne(pos[0], neg);
      WinsCounted(pos[1..], neg);
    }
  }

  /** A pair is below, equal or above. */
  lemma {:induction false} PairsPartition(pos: seq<real>, neg: seq<real>)
    ensures CountPairs(pos, neg, Below) + CountPairs(pos, neg, Equal) + CountPairs(pos, neg, Above) == |pos| * |neg|
  {
    if pos == [] {
    } else {
      CountsInOne(pos[0], neg);
      PairsPartition(pos[1..], neg);
      Distribute(|pos[1..]|, |neg|);
    }
  }

  lemma Distribute(a: nat, b: nat)
    ensures (a + 1) * b == a * b + b
  {
  }

  /**
   With both classes present the lower-is-positive computations agree and lie between 0
   and 1, and the higher-is-positive one is their complement.
   */
  lemma FourAucsAgree(labels: seq<int>, values: seq<real>)
    requires Both(Zipped(labels, values))
    ensures RocAucManual(labels, values) == Value(LowerAuc(Zipped(labels, values)))
    ensures MannWhitneyAuc(labels, values) == 1.0 - LowerAuc(Zipped(labels, values))
    ensures 0.0 <= LowerAuc(Zipped(labels, values)) <= 1.0
  {
    var rows := Zipped(labels, values);
    var pos, neg := Of(rows, 1), Of(rows, 0);
    WinsCounted(pos, neg);
    PairsPartition(pos, neg);
    var below, equal, above := CountPairs(pos, neg, Below), CountPairs(pos, neg, Equal), CountPairs(pos, neg, Above);
    Complement(below as real + 0.5 * equal as real, above as real + 0.5 * equal as real, (|pos| * |neg|) as real);
  }

  lemma Complement(a: real, b: real, n: real)
    requires a >= 0.0 && b >= 0.0 && n > 0.0 && a + b == n
    ensures a / n + b / n == 1.0 && 0.0 <= a / n <= 1.0
  {
    assert a / n + b / n == (a + b) / n;
  }

  // ----- in terms of indices -----

  /** Row `i` carries label `i` and value `i`; the longer list is cut. */
  lemma {:induction false} ZippedAt(labels: seq<int>, values: seq<real>)
    ensures |Zipped(labels, values)| == Min(|labels|, |values|)
    ensures forall i | 0 <= i < |Zipped(labels, values)| :: Zipped(labels, values)[i] == Row(labels[i], values[i])
  {
    if labels != [] && values != [] {
      ZippedAt(labels[1..], values[1..]);
    }
  }

  /** The value of one row, if it has the label. */
  function Own(row: Row, y: int): seq<real> {
    if row.y == y then [row.v] else []
  }

  lemma {:induction false} OfSnoc(rows: seq<Row>, row: Row, y: int)
    ensures Of(rows + [row], y) == Of(rows, y) + Own(row, y)
  {
    if rows == [] {
      assert [] + [row] == [row] && Own(row, y) + [] == Own(row, y);
    } else {
      assert (rows + [row])[1..] == rows[1..] + [row] && (rows + [row])[0] == rows[0];
      OfSnoc(rows[1..], row, y);
      Regroup(Own(rows[0], y), Of(rows[1..], y), Own(row, y));
    }
  }

  lemma Regroup(a: seq<real>, b: seq<real>, c: seq<real>)
    ensures (a + b) + c == a + (b + c)
  {
  }

  /** The values of all rows but the last, and the last one's. */
  lemma OfLast(rows: seq<Row>, k: nat, y: int)
    requires 0 < k <= |rows|
    ensures Of(rows[..k], y) ==
      if rows[k - 1].y == y then Of(rows[..k - 1], y) + [rows[k - 1].v] else Of(rows[..k - 1], y)
  {
    assert rows[..k] == rows[..k - 1] + [rows[k - 1]];
    OfSnoc(rows[..k - 1], rows[k - 1], y);
  }

  lemma {:induction false} CountInSnoc(p: real, neg: seq<real>, q: real, rel: (real, real) -> bool)
    ensures CountIn(p, neg + [q], rel) == CountIn(p, neg, rel) + if rel(p, q) then 1 else 0
  {
    if neg == [] {
      assert [] + [q] == [q];
    } else {
      assert (neg + [q])[1..] == neg[1..] + [q];
      CountInSnoc(p, neg[1..], q, rel);
    }
  }

  lemma {:induction false} CountPairsSnoc(pos: seq<real>, p: real, neg: seq<real>, rel: (real, real) -> bool)
    ensures CountPairs(pos + [p], neg, rel) == CountPairs(pos, neg, rel) + CountIn(p, neg, rel)
  {
    if pos == [] {
      assert [] + [p] == [p];
    } else {
      assert (pos + [p])[1..] == pos[1..] + [p];
      CountPairsSnoc(pos[1..], p, neg, rel);
    }
  }

  /** The first `k` rows of class `y`. */
  ghost function Class(rows: seq<Row>, k: nat, y: int): set<nat> {
    set j: nat | j < k && j < |rows| && rows[j].y == y
  }

  lemma ClassMore(rows: seq<Row>, k: nat, y: int)
    requires k < |rows|
    ensures |Class(rows, k + 1, y)| == |Class(rows, k, y)| + if rows[k].y == y then 1 else 0
  {
    var last: set<nat> := if rows[k].y == y then {k} else {};
    assert Class(rows, k + 1, y) == Class(rows, k, y) + last;
    assert |Class(rows, k + 1, y)| == |Class(rows, k, y)| + |last|;
  }

  lemma {:induction false} OfCounted(rows: seq<Row>, k: nat, y: int)
    requires k <= |rows|
    ensures |Of(rows[..k], y)| == |Class(rows, k, y)|
  {
    if k == 0 {
      assert Class(rows, 0, y) == {};
    } else {
      OfCounted(rows, k - 1, y);
      OfLast(rows, k, y);
      ClassMore(rows, k - 1, y);
    }
  }

  /** The pairs of row `i` with the first `k` rows of class 0 that are in the relation. */
  ghost function PairsOf(rows: seq<Row>, i: nat, k: nat, rel: (real, real) -> bool): set<(nat, nat)>
    requires i < |rows|
  {
    set j: nat | j < k && j < |rows| && rows[j].y == 0 && rel(rows[i].v, rows[j].v) :: (i, j)
  }

  lemma PairsOfMore(rows: seq<Row>, i: nat, k: nat, rel: (real, real) -> bool)
    requires i < |rows| && k < |rows|
    ensures |PairsOf(rows, i, k + 1, rel)| ==
      |PairsOf(rows, i, k, rel)| + if rows[k].y == 0 && rel(rows[i].v, rows[k].v) then 1 else 0
  {
    var last: set<(nat, nat)> := if rows[k].y == 0 && rel(rows[i].v, rows[k].v) then {(i, k)} else {};
    assert PairsOf(rows, i, k + 1, rel) == PairsOf(rows, i, k, rel) + last;
    assert PairsOf(rows, i, k, rel) * last == {};
  }

  lemma {:induction false} PairsOfCounted(rows: seq<Row>, i: nat, k: nat, rel: (real, real) -> bool)
    requires i < |rows| && k <= |rows|
    ensures |PairsOf(rows, i, k, rel)| == CountIn(rows[i].v, Of(rows[..k], 0), rel)
  {
    if k == 0 {
      assert PairsOf(rows, i, 0, rel) == {};
    } else {
      PairsOfCounted(rows, i, k - 1, rel);
      PairsOfMore(rows, i, k - 1, rel);
      OfLast(rows, k, 0);
      CountInSnoc(rows[i].v, Of(rows[..k - 1], 0), rows[k - 1].v, rel);
    }
  }

  /** The pairs of the first `m` rows of class 1 with rows of class 0 that are in the relation. */
  ghost function PairsUpTo(rows: seq<Row>, m: nat, rel: (real, real) -> bool): set<(nat, nat)> {
    set i: nat, j: nat |
      i < m && i < |rows| && j < |rows| && rows[i].y == 1 && rows[j].y == 0 && rel(rows[i].v, rows[j].v) :: (i, j)
  }

  lemma PairsGrow(rows: seq<Row>, n: nat, rel: (real, real) -> bool)
    requires n < |rows|
    ensures |PairsUpTo(rows, n + 1, rel)| ==
      |PairsUpTo(rows, n, rel)| + if rows[n].y == 1 then |PairsOf(rows, n, |rows|, rel)| else 0
  {
    var more := if rows[n].y == 1 then PairsOf(rows, n, |rows|, rel) else {};
    assert PairsUpTo(rows, n + 1, rel) == PairsUpTo(rows, n, rel) + more;
    assert PairsUpTo(rows, n, rel) * more == {};
  }

  lemma {:induction false} PairsCounted(rows: seq<Row>, m: nat, rel: (real, real) -> bool)
    requires m <= |rows|
    ensures |PairsUpTo(rows, m, rel)| == CountPairs(Of(rows[..m], 1), Of(rows, 0), rel)
  {
    if m == 0 {
      assert PairsUpTo(rows, 0, rel) == {};
    } else {
      var n := m - 1;
      PairsCounted(rows, n, rel);
      PairsGrow(rows, n, rel);
      assert rows[..|rows|] == rows;
      PairsOfCounted(rows, n, |rows|, rel);
      OfLast(rows, m, 1);
      CountPairsSnoc(Of(rows[..n], 1), rows[n].v, Of(rows, 0), rel);
    }
  }

  /** The pairs of a sample labelled 1 and one labelled 0. */
  ghost function ClassPairs(labels: seq<int>, values: seq<real>): set<(nat, nat)> {
    set i: nat, j: nat |
      i < |labels| && i < |values| && j < |labels| && j < |values| && labels[i] == 1 && labels[j] == 0 :: (i, j)
  }

  /** Those in which the first value is the lower one. */
  ghost function LowerPairs(labels: seq<int>, values: seq<real>): set<(nat, nat)> {
    set i: nat, j: nat |
      i < |labels| && i < |values| && j < |labels| && j < |values| && labels[i] == 1 && labels[j] == 0
      && values[i] < values[j] :: (i, j)
  }

  /** Those with equal values. */
  ghost function TiedPairs(labels: seq<int>, values: seq<real>): set<(nat, nat)> {
    set i: nat, j: nat |
      i < |labels| && i < |values| && j < |labels| && j < |values| && labels[i] == 1 && labels[j] == 0
      && values[i] == values[j] :: (i, j)
  }

  /** Some sample has this label. */
  predicate Labelled(labels: seq<int>, values: seq<real>, y: int) {
    exists i | 0 <= i < |labels| && i < |values| :: labels[i] == y
  }

  lemma BothIffLabelled(labels: seq<int>, values: seq<real>, y: int)
    ensures Of(Zipped(labels, values), y) != [] <==> Labelled(labels, values, y)
  {
    var rows := Zipped(labels, values);
    ZippedAt(labels, values);
    OfCounted(rows, |rows|, y);
    assert rows[..|rows|] == rows;
    if Labelled(labels, values, y) {
      var i: nat :| i < |labels| && i < |values| && labels[i] == y;
      assert rows[i].y == y && i in Class(rows, |rows|, y);
    } else {
      assert Class(rows, |rows|, y) == {};
    }
  }

  function Always(p: real, q: real): bool { true }

  lemma {:induction false} AllCounted(pos: seq<real>, neg: seq<real>)
    ensures CountPairs(pos, neg, Always) == |pos| * |neg|
  {
    if pos == [] {
    } else {
      AllCountedInOne(pos[0], neg);
      AllCounted(pos[1..], neg);
      Distribute(|pos[1..]|, |neg|);
    }
  }

  lemma {:induction false} AllCountedInOne(p: real, neg: seq<real>)
    ensures CountIn(p, neg, Always) == |neg|
  {
    if neg == [] {
    } else {
      AllCountedInOne(p, neg[1..]);
    }
  }

  lemma ClassPairsCounted(labels: seq<int>, values: seq<real>)
    ensures |ClassPairs(labels, values)| == |Of(Zipped(labels, values), 1)| * |Of(Zipped(labels, values), 0)|
  {
    var rows := Zipped(labels, values);
    ZippedAt(labels, values);
    PairsCounted(rows, |rows|, Always);
    assert rows[..|rows|] == rows && ClassPairs(labels, values) == PairsUpTo(rows, |rows|, Always);
    AllCounted(Of(rows, 1), Of(rows, 0));
  }

  lemma LowerPairsCounted(labels: seq<int>, values: seq<real>)
    ensures var rows := Zipped(labels, values);
            |LowerPairs(labels, values)| == CountPairs(Of(rows, 1), Of(rows, 0), Below)
  {
    var rows := Zipped(labels, values);
    ZippedAt(labels, values);
    PairsCounted(rows, |rows|, Below);
    assert rows[..|rows|] == rows && LowerPairs(labels, values) == PairsUpTo(rows, |rows|, Below);
  }

  lemma TiedPairsCounted(labels: seq<int>, values: seq<real>)
    ensures var rows := Zipped(labels, values);
            |TiedPairs(labels, values)| == CountPairs(Of(rows, 1), Of(rows, 0), Equal)
  {
    var rows := Zipped(labels, values);
    ZippedAt(labels, values);
    PairsCounted(rows, |rows|, Equal);
    assert rows[..|rows|] == rows && TiedPairs(labels, values) == PairsUpTo(rows, |rows|, Equal);
  }

  lemma SomePairs(a: nat, b: nat)
    requires a > 0 && b > 0
    ensures a * b > 0
  {
  }

  /**
   The statistic in terms of the samples: of all pairs of a sample labelled 1 and a sample
   labelled 0, the share in which the first has the lower value, ties counting half.
   */
  lemma AucCountsPairs(labels: seq<int>, values: seq<real>)
    ensures Both(Zipped(labels, values)) <==> Labelled(labels, values, 1) && Labelled(labels, values, 0)
    ensures Both(Zipped(labels, values)) ==>
      && |ClassPairs(labels, values)| > 0
      && LowerAuc(Zipped(labels, values)) ==
           (|LowerPairs(labels, values)| as real + 0.5 * |TiedPairs(labels, values)| as real)
             / |ClassPairs(labels, values)| as real
  {
    var pos, neg := Of(Zipped(labels, values), 1), Of(Zipped(labels, values), 0);
    BothIffLabelled(labels, values, 1);
    BothIffLabelled(labels, values, 0);
    if pos != [] && neg != [] {
      ClassPairsCounted(labels, values);
      SomePairs(|pos|, |neg|);
      LowerPairsCounted(labels, values);
      TiedPairsCounted(labels, values);
      WinsCounted(pos, neg);
    }
  }

  /** What the other two answer: the share of pairs, from above in one, and a fixed answer for an absent class. */
  lemma OtherAucsCountPairs(labels: seq<int>, values: seq<real>)
    ensures !Labelled(labels, values, 1) || !Labelled(labels, values, 0) ==>
      RocAucManual(labels, values) == Nan && MannWhitneyAuc(labels, values) == 0.5
    ensures Labelled(labels, values, 1) && Labelled(labels, values, 0) ==>
      var lower, tied, all := |LowerPairs(labels, values)| as real, |TiedPairs(labels, values)| as real,
        |ClassPairs(labels, values)| as real;
      && all > 0.0
      && RocAucManual(labels, values) == Value((lower + 0.5 * tied) / all)
      && MannWhitneyAuc(labels, values) == 1.0 - (lower + 0.5 * tied) / all
  {
    AucCountsPairs(labels, values);
    if Both(Zipped(labels, values)) {
      FourAucsAgree(labels, values);
    }
  }

  // ----- only the order matters -----

  function Mapped(s: seq<real>, f: real -> real): (r: seq<real>)
    ensures |r| == |s|
  {
    if s == [] then [] else [f(s[0])] + Mapped(s[1..], f)
  }

  ghost predicate Increasing(f: real -> real) {
    forall a, b :: a < b ==> f(a) < f(b)
  }

  lemma {:induction false} OfMapped(labels: seq<int>, values: seq<real>, f: real -> real, y: int)
    ensures Of(Zipped(labels, Mapped(values, f)), y) == Mapped(Of(Zipped(labels, values), y), f)
  {
    if labels != [] && values != [] {
      OfMapped(labels[1..], values[1..], f, y);
      var rest := Of(Zipped(labels[1..], values[1..]), y);
      assert ([values[0]] + rest)[1..] == rest;
      assert [] + rest == rest;
      assert [] + Mapped(rest, f) == Mapped(rest, f);
    }
  }

  lemma {:induction false} AgainstMapped(p: real, neg: seq<real>, f: real -> real)
    requires Increasing(f)
    ensures Sum(Mapped(neg, f), Against(f(p))) == Sum(neg, Against(p))
  {
    if neg == [] {
    } else {
      AgainstMapped(p, neg[1..], f);
      assert Win(f(p), f(neg[0])) == Win(p, neg[0]);
    }
  }

  lemma {:induction false} WinsMapped(pos: seq<real>, neg: seq<real>, f: real -> real)
    requires Increasing(f)
    ensures Wins(Mapped(pos, f), Mapped(neg, f)) == Wins(pos, neg)
  {
    if pos == [] {
    } else {
      WinsMapped(pos[1..], neg, f);
      AgainstMapped(pos[0], neg, f);
    }
  }

  /** A strictly increasing transform of the values changes no AUC. */
  lemma AucIgnoresScale(labels: seq<int>, values: seq<real>, f: real -> real)
    requires Increasing(f)
    ensures Both(Zipped(labels, Mapped(values, f))) <==> Both(Zipped(labels, values))
    ensures Both(Zipped(labels, values)) ==>
      LowerAuc(Zipped(labels, Mapped(values, f))) == LowerAuc(Zipped(labels, values))
  {
    OfMapped(labels, values, f, 1);
    OfMapped(labels, values, f, 0);
    WinsMapped(Of(Zipped(labels, values), 1), Of(Zipped(labels, values), 0), f);
  }

  lemma {:induction false} SumRemove(s: seq<real>, i: nat, f: real -> real)
    requires i < |s|
    ensures Sum(s, f) == f(s[i]) + Sum(s[..i] + s[i + 1..], f)
  {
    if i == 0 {
      assert s[..0] + s[1..] == s[1..];
    } else {
      SumRemove(s[1..], i - 1, f);
      assert (s[..i] + s[i + 1..])[1..] == s[1..][..i - 1] + s[1..][i..];
    }
  }

  /** A sum does not depend on the order. */
  lemma {:induction false} SumReordered(s: seq<real>, t: seq<real>, f: real -> real)
    requires multiset(s) == multiset(t)
    ensures Sum(s, f) == Sum(t, f)
  {
    if s == [] {
      assert |multiset(t)| == 0;
    } else {
      assert s[0] in multiset(t);
      var i :| 0 <= i < |t| && t[i] == s[0];
      SumRemove(t, i, f);
      assert s == [s[0]] + s[1..];
      assert t == t[..i] + [t[i]] + t[i + 1..];
      assert multiset(s[1..]) == multiset(s) - multiset{s[0]};
      assert multiset(t[..i] + t[i + 1..]) == multiset(t) - multiset{s[0]};
      SumReordered(s[1..], t[..i] + t[i + 1..], f);
    }
  }

  lemma {:induction false} SumSame(s: seq<real>, f: real -> real, g: real -> real)
    requires forall i | 0 <= i < |s| :: f(s[i]) == g(s[i])
    ensures Sum(s, f) == Sum(s, g)
  {
    if s == [] {
    } else {
      SumSame(s[1..], f, g);
    }
  }

  lemma {:induction false} OfCounts(rows: seq<Row>, y: int, v: real)
    ensures multiset(Of(rows, y))[v] == multiset(rows)[Row(y, v)]
  {
    if rows == [] {
    } else {
      OfCounts(rows[1..], y, v);
      assert rows == [rows[0]] + rows[1..];
    }
  }

  lemma OfReordered(rows: seq<Row>, other: seq<Row>, y: int)
    requires multiset(rows) == multiset(other)
    ensures multiset(Of(rows, y)) == multiset(Of(other, y))
    ensures |Of(rows, y)| == |Of(other, y)|
  {
    forall v
      ensures multiset(Of(rows, y))[v] == multiset(Of(other, y))[v]
    {
      OfCounts(rows, y, v);
      OfCounts(other, y, v);
    }
    assert multiset(Of(rows, y)) == multiset(Of(other, y));
    assert |multiset(Of(rows, y))| == |Of(rows, y)|;
  }

  /** Reordering the rows changes no AUC. */
  lemma AucIgnoresOrder(rows: seq<Row>, other: seq<Row>)
    requires multiset(rows) == multiset(other)
    ensures Both(rows) <==> Both(other)
    ensures Both(rows) ==> LowerAuc(rows) == LowerAuc(other)
  {
    OfReordered(rows, other, 1);
    OfReordered(rows, other, 0);
    var pos, neg, neg' := Of(rows, 1), Of(rows, 0), Of(other, 0);
    SumReordered(pos, Of(other, 1), AgainstAll(neg'));
    forall i | 0 <= i < |pos|
      ensures AgainstAll(neg)(pos[i]) == AgainstAll(neg')(pos[i])
    {
      SumReordered(neg, neg', Against(pos[i]));
    }
    SumSame(pos, AgainstAll(neg), AgainstAll(neg'));
  }

  // ----- predictions of 0 or 1 -----

  function Id(v: real): real { v }

  predicate Binary(s: seq<real>) {
    forall i | 0 <= i < |s| :: s[i] == 0.0 || s[i] == 1.0
  }

  lemma {:induction false} BinaryInOne(p: real, neg: seq<real>)
    requires Binary(neg) && (p == 0.0 || p == 1.0)
    ensures 2.0 * Sum(neg, Against(p)) == |neg| as real * (1.0 - p) + Sum(neg, Id)
    ensures 0.0 <= Sum(neg, Id) <= |neg| as real
  {
    if neg == [] {
    } else {
      BinaryInOne(p, neg[1..]);
    }
  }

  /** Twice the pairwise score of `n` against `m` predictions, `a` and `b` of them 1. */
  function Closed(n: real, m: real, a: real, b: real): real {
    n * m - a * m + b * n
  }

  lemma {:induction false} BinaryInAll(pos: seq<real>, neg: seq<real>)
    requires Binary(pos) && Binary(neg)
    ensures 2.0 * Wins(pos, neg) == Closed(|pos| as real, |neg| as real, Sum(pos, Id), Sum(neg, Id))
  {
    if pos == [] {
    } else {
      var p, rest := pos[0], pos[1..];
      BinaryInOne(p, neg);
      BinaryInAll(rest, neg);
      var n, m, a, b := |rest| as real, |neg| as real, Sum(rest, Id), Sum(neg, Id);
      BinaryStep(Sum(neg, Against(p)), Wins(rest, neg), n, m, a, b, p);
      assert |pos| as real == n + 1.0 && Sum(pos, Id) == p + a;
    }
  }

  lemma BinaryStep(one: real, rest: real, n: real, m: real, a: real, b: real, p: real)
    requires 2.0 * one == m * (1.0 - p) + b && 2.0 * rest == Closed(n, m, a, b)
    ensures 2.0 * (one + rest) == Closed(n + 1.0, m, p + a, b)
  {
  }

  function Mean(s: seq<real>): real
    requires s != []
  {
    Sum(s, Id) / |s| as real
  }

  function Abs(x: real): (r: real)
    ensures r >= 0.0 && (r == x || r == -x)
  {
    if x < 0.0 then -x else x
  }

  /** The advantage: true-positive minus false-positive rate of 0/1 predictions. */
  function AdvMi(labels: seq<int>, predictions: seq<real>): Auc {
    var rows := Zipped(labels, predictions);
    if !Both(rows) then DivisionByZero
    else Value(Abs(Mean(Of(rows, 1)) - Mean(Of(rows, 0))))
  }

  /** For 0/1 predictions the AUC is (1 + TPR - FPR) / 2, so the advantage is its distance from chance, doubled. */
  lemma BinaryAuc(labels: seq<int>, predictions: seq<real>)
    requires Both(Zipped(labels, predictions))
    requires Binary(Of(Zipped(labels, predictions), 1)) && Binary(Of(Zipped(labels, predictions), 0))
    ensures var rows := Zipped(labels, predictions);
            MannWhitneyAuc(labels, predictions) == (1.0 + Mean(Of(rows, 1)) - Mean(Of(rows, 0))) / 2.0
    ensures AdvMi(labels, predictions) == Value(Abs(2.0 * MannWhitneyAuc(labels, predictions) - 1.0))
  {
    var rows := Zipped(labels, predictions);
    var pos, neg := Of(rows, 1), Of(rows, 0);
    FourAucsAgree(labels, predictions);
    BinaryLower(pos, neg);
  }

  lemma BinaryLower(pos: seq<real>, neg: seq<real>)
    requires pos != [] && neg != [] && Binary(pos) && Binary(neg)
    ensures 1.0 - Wins(pos, neg) / (|pos| * |neg|) as real == (1.0 + Mean(pos) - Mean(neg)) / 2.0
  {
    BinaryInAll(pos, neg);
    RealProduct(|pos|, |neg|);
    HalfRates(Wins(pos, neg), |pos| as real, |neg| as real, Sum(pos, Id), Sum(neg, Id), (|pos| * |neg|) as real);
  }

  lemma HalfRates(w: real, n: real, m: real, a: real, b: real, k: real)
    requires n > 0.0 && m > 0.0 && k == n * m && 2.0 * w == Closed(n, m, a, b)
    ensures k > 0.0 && 1.0 - w / k == (1.0 + a / n - b / m) / 2.0
  {
    MulPositive(n, m);
    MulDiv(a, n);
    MulDiv(b, m);
    MulDiv(w, k);
    FromProducts(a / n, b / m, w / k, n, m, k, w, a, b);
  }

  lemma FromProducts(u: real, v: real, x: real, n: real, m: real, k: real, w: real, a: real, b: real)
    requires u * n == a && v * m == b && x * k == w && k == n * m && k > 0.0
    requires 2.0 * w == n * m - a * m + b * n
    ensures 1.0 - x == (1.0 + u - v) / 2.0
  {
    assert u * k == u * n * m == a * m;
    assert v * k == v * m * n == b * n;
    assert (2.0 - 2.0 * x) * k == 2.0 * k - 2.0 * (x * k);
    assert (1.0 + u - v) * k == k + u * k - v * k;
    CancelEq(2.0 - 2.0 * x, 1.0 + u - v, k);
  }

  /** The samples of class `y`. */
  ghost function OfClass(labels: seq<int>, values: seq<real>, y: int): set<nat> {
    set i: nat | i < |labels| && i < |values| && labels[i] == y
  }

  /** Those of them that are predicted 1. */
  ghost function OfClassFlagged(labels: seq<int>, predictions: seq<real>, y: int): set<nat> {
    set i: nat | i < |labels| && i < |predictions| && labels[i] == y && predictions[i] == 1.0
  }

  ghost function ClassFlagged(rows: seq<Row>, k: nat, y: int): set<nat> {
    set j: nat | j < k && j < |rows| && rows[j].y == y && rows[j].v == 1.0
  }

  lemma {:induction false} FlaggedCounted(rows: seq<Row>, k: nat, y: int)
    requires k <= |rows| && Binary(Of(rows[..k], y))
    ensures Sum(Of(rows[..k], y), Id) == |ClassFlagged(rows, k, y)| as real
  {
    if k == 0 {
      assert ClassFlagged(rows, 0, y) == {};
    } else {
      var front, last := Of(rows[..k - 1], y), rows[k - 1];
      OfLast(rows, k, y);
      assert forall i | 0 <= i < |front| :: front[i] == Of(rows[..k], y)[i];
      FlaggedCounted(rows, k - 1, y);
      FlaggedMore(rows, k - 1, y);
      if last.y == y {
        assert Of(rows[..k], y)[|front|] == last.v;
        SumSnoc(front, last.v, Id);
      }
    }
  }

  lemma FlaggedMore(rows: seq<Row>, k: nat, y: int)
    requires k < |rows|
    ensures |ClassFlagged(rows, k + 1, y)| ==
      |ClassFlagged(rows, k, y)| + if rows[k].y == y && rows[k].v == 1.0 then 1 else 0
  {
    var last: set<nat> := if rows[k].y == y && rows[k].v == 1.0 then {k} else {};
    assert ClassFlagged(rows, k + 1, y) == ClassFlagged(rows, k, y) + last;
    assert |ClassFlagged(rows, k + 1, y)| == |ClassFlagged(rows, k, y)| + |last|;
  }

  lemma RateCounted(labels: seq<int>, predictions: seq<real>, y: int)
    requires Labelled(labels, predictions, y) && Binary(Of(Zipped(labels, predictions), y))
    ensures |OfClass(labels, predictions, y)| > 0 && Of(Zipped(labels, predictions), y) != []
    ensures Mean(Of(Zipped(labels, predictions), y)) ==
      |OfClassFlagged(labels, predictions, y)| as real / |OfClass(labels, predictions, y)| as real
  {
    var rows := Zipped(labels, predictions);
    ZippedAt(labels, predictions);
    BothIffLabelled(labels, predictions, y);
    OfCounted(rows, |rows|, y);
    assert rows[..|rows|] == rows;
    FlaggedCounted(rows, |rows|, y);
    assert OfClass(labels, predictions, y) == Class(rows, |rows|, y);
    assert OfClassFlagged(labels, predictions, y) == ClassFlagged(rows, |rows|, y);
  }

  /** In terms of the samples: the distance between the shares predicted 1 in the two classes. */
  lemma AdvantageCountsSamples(labels: seq<int>, predictions: seq<real>)
    requires Binary(Of(Zipped(labels, predictions), 1)) && Binary(Of(Zipped(labels, predictions), 0))
    ensures AdvMi(labels, predictions) == DivisionByZero <==>
      !Labelled(labels, predictions, 1) || !Labelled(labels, predictions, 0)
    ensures Labelled(labels, predictions, 1) && Labelled(labels, predictions, 0) ==>
      && |OfClass(labels, predictions, 1)| > 0 && |OfClass(labels, predictions, 0)| > 0
      && AdvMi(labels, predictions) ==
           Value(Abs(|OfClassFlagged(labels, predictions, 1)| as real / |OfClass(labels, predictions, 1)| as real
                     - |OfClassFlagged(labels, predictions, 0)| as real / |OfClass(labels, predictions, 0)| as real))
  {
    BothIffLabelled(labels, predictions, 1);
    BothIffLabelled(labels, predictions, 0);
    if Labelled(labels, predictions, 1) && Labelled(labels, predictions, 0) {
      RateCounted(labels, predictions, 1);
      RateCounted(labels, predictions, 0);
    }
  }

  // ----- accuracy -----

  function Agreeing(rows: seq<Row>): nat {
    if rows == [] then 0 else (if rows[0].y as real == rows[0].v then 1 else 0) + Agreeing(rows[1..])
  }

  predicate BinaryRows(rows: seq<Row>) {
    forall i | 0 <= i < |rows| :: rows[i].y in {0, 1} && rows[i].v in {0.0, 1.0}
  }

  lemma {:induction false} AgreeingSplit(rows: seq<Row>)
    requires BinaryRows(rows)
    ensures Agreeing(rows) as real == Sum(Of(rows, 1), Id) + |Of(rows, 0)| as real - Sum(Of(rows, 0), Id)
    ensures |rows| == |Of(rows, 1)| + |Of(rows, 0)|
  {
    if rows == [] {
    } else {
      AgreeingSplit(rows[1..]);
      var v, ones, zeros := rows[0].v, Of(rows[1..], 1), Of(rows[1..], 0);
      assert ([v] + ones)[1..] == ones && ([v] + zeros)[1..] == zeros && [] + ones == ones && [] + zeros == zeros;
    }
  }

  ghost function Hits(rows: seq<Row>, k: nat): set<nat> {
    set j: nat | j < k && j < |rows| && rows[j].y as real == rows[j].v
  }

  lemma {:induction false} AgreeingSnoc(rows: seq<Row>, row: Row)
    ensures Agreeing(rows + [row]) == Agreeing(rows) + if row.y as real == row.v then 1 else 0
  {
    if rows == [] {
      assert [] + [row] == [row];
    } else {
      assert (rows + [row])[1..] == rows[1..] + [row];
      AgreeingSnoc(rows[1..], row);
    }
  }

  lemma HitsMore(rows: seq<Row>, k: nat)
    requires k < |rows|
    ensures |Hits(rows, k + 1)| == |Hits(rows, k)| + if rows[k].y as real == rows[k].v then 1 else 0
  {
    var last: set<nat> := if rows[k].y as real == rows[k].v then {k} else {};
    assert Hits(rows, k + 1) == Hits(rows, k) + last;
    assert |Hits(rows, k + 1)| == |Hits(rows, k)| + |last|;
  }

  lemma {:induction false} HitsCounted(rows: seq<Row>, k: nat)
    requires k <= |rows|
    ensures Agreeing(rows[..k]) == |Hits(rows, k)|
  {
    if k == 0 {
      assert Hits(rows, 0) == {};
    } else {
      HitsCounted(rows, k - 1);
      HitsMore(rows, k - 1);
      assert rows[..k] == rows[..k - 1] + [rows[k - 1]];
      AgreeingSnoc(rows[..k - 1], rows[k - 1]);
    }
  }

  /** The number of right predictions is the number of samples whose prediction is their label. */
  lemma AgreeingCountsSamples(labels: seq<int>, predictions: seq<real>)
    ensures Agreeing(Zipped(labels, predictions)) ==
      |set i: nat | i < |labels| && i < |predictions| && labels[i] as real == predictions[i]|
  {
    var rows := Zipped(labels, predictions);
    ZippedAt(labels, predictions);
    HitsCounted(rows, |rows|);
    assert rows[..|rows|] == rows;
    assert Hits(rows, |rows|) == set i: nat | i < |labels| && i < |predictions| && labels[i] as real == predictions[i];
  }

  /** With as many members as non-members, doubling the accuracy's distance from a half gives the advantage. */
  lemma BalancedAdvantage(labels: seq<int>, predictions: seq<real>)
    requires BinaryRows(Zipped(labels, predictions)) && Both(Zipped(labels, predictions))
    requires |Of(Zipped(labels, predictions), 1)| == |Of(Zipped(labels, predictions), 0)|
    ensures var rows := Zipped(labels, predictions);
            |rows| > 0 && AdvMi(labels, predictions) == Value(2.0 * Abs(Agreeing(rows) as real / |rows| as real - 0.5))
  {
    var rows := Zipped(labels, predictions);
    AgreeingSplit(rows);
    var n, a, b := |Of(rows, 1)| as real, Sum(Of(rows, 1), Id), Sum(Of(rows, 0), Id);
    assert Agreeing(rows) as real == a + n - b && |rows| as real == 2.0 * n;
    BalancedRates(a, b, n);
  }

  lemma BalancedRates(a: real, b: real, n: real)
    requires n > 0.0
    ensures 2.0 * ((a + n - b) / (2.0 * n) - 0.5) == a / n - b / n
  {
    var x, u, v := (a + n - b) / (2.0 * n), a / n, b / n;
    MulDiv(a + n - b, 2.0 * n);
    MulDiv(a, n);
    MulDiv(b, n);
    assert (2.0 * x - 1.0) * n == x * (2.0 * n) - n;
    assert (u - v) * n == u * n - v * n;
    CancelEq(2.0 * x - 1.0, u - v, n);
  }

  // ----- the summary of an experiment -----

  function LabelSum(rows: seq<Row>): int {
    if rows == [] then 0 else rows[0].y + LabelSum(rows[1..])
  }

  /** Rows labelled `y` that were predicted 1. */
  function Flagged(rows: seq<Row>, y: int): nat {
    if rows == [] then 0 else (if rows[0].y == y && rows[0].v == 1.0 then 1 else 0) + Flagged(rows[1..], y)
  }

  function ShareOf(part: nat, whole: int): real {
    if whole == 0 then 0.0 else part as real / whole as real
  }

  /** The advantage from the four counts; an absent class has rate 0. */
  function SummaryAdvantage(rows: seq<Row>): real {
    var positives := LabelSum(rows);
    var negatives := |rows| - positives;
    Abs(ShareOf(Flagged(rows, 1), positives) - ShareOf(Flagged(rows, 0), negatives))
  }

  lemma {:induction false} SummaryCounts(rows: seq<Row>)
    requires BinaryRows(rows)
    ensures LabelSum(rows) == |Of(rows, 1)| && |rows| - LabelSum(rows) == |Of(rows, 0)|
    ensures Flagged(rows, 1) as real == Sum(Of(rows, 1), Id) && Flagged(rows, 0) as real == Sum(Of(rows, 0), Id)
  {
    if rows == [] {
    } else {
      SummaryCounts(rows[1..]);
      var v, ones, zeros := rows[0].v, Of(rows[1..], 1), Of(rows[1..], 0);
      assert ([v] + ones)[1..] == ones && ([v] + zeros)[1..] == zeros && [] + ones == ones && [] + zeros == zeros;
    }
  }

  /** With both classes present, the counts of the summary give the same advantage as the class means. */
  lemma SummaryAgrees(labels: seq<int>, predictions: seq<real>)
    requires BinaryRows(Zipped(labels, predictions)) && Both(Zipped(labels, predictions))
    ensures AdvMi(labels, predictions) == Value(SummaryAdvantage(Zipped(labels, predictions)))
  {
    SummaryCounts(Zipped(labels, predictions));
  }
}
