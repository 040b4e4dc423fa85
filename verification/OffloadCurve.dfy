/**
 Offload-frontier curve of an escalation gate (`offloadCurve`, `minFrontierForAccuracy`).

 Rates are exact rationals. The curve strictly trades frontier rate for accuracy; at the iso-quality
 target the minimum frontier rate is the fraction scored at or above the lowest wrong item, exactly when
 the floating tolerance of the search is too small to hide the lowest wrong items; and that fraction is
 the error rate exactly when the gate's AUROC is 1.
 */
module OffloadCurve {
  import opened Options
  import Auroc

  datatype Item = Item(wrong: bool, score: real)

  /** A gate threshold; `Infinity` escalates nothing. */
  datatype Threshold = At(t: real) | Infinity

  predicate Less(a: Threshold, b: Threshold) {
    a.At? && (b.At? ==> a.t < b.t)
  }

  predicate Escalates(it: Item, t: Threshold) {
    t.At? && it.score >= t.t
  }

  datatype CurvePoint = CurvePoint(threshold: Threshold, frontierRate: real, accuracy: real)

  function Escalated(items: seq<Item>, t: Threshold): nat {
    if items == [] then 0
    else (if Escalates(items[0], t) then 1 else 0) + Escalated(items[1..], t)
  }

  /** Wrong answers kept local at this threshold. */
  function Missed(items: seq<Item>, t: Threshold): nat {
    if items == [] then 0
    else (if items[0].wrong && !Escalates(items[0], t) then 1 else 0) + Missed(items[1..], t)
  }

  function Wrong(items: seq<Item>): nat {
    Missed(items, Infinity)
  }

  function Rate(count: int, n: nat): real
    requires n > 0
  {
    count as real / n as real
  }

  /** The rates the code reports at one threshold. */
  ghost predicate IsPointOf(p: CurvePoint, items: seq<Item>)
    requires items != []
  {
    && p.frontierRate == Rate(Escalated(items, p.threshold), |items|)
    && p.accuracy == Rate(|items| - Missed(items, p.threshold), |items|)
  }

  ghost predicate SomeItemScores(items: seq<Item>, t: Threshold) {
    exists i :: 0 <= i < |items| && At(items[i].score) == t
  }

  ghost predicate Sweeps(curve: seq<CurvePoint>, t: Threshold) {
    exists k :: 0 <= k < |curve| && curve[k].threshold == t
  }

  predicate Increasing(curve: seq<CurvePoint>) {
    forall k, m :: 0 <= k < m < |curve| ==> Less(curve[k].threshold, curve[m].threshold)
  }

  /** The thresholds are the distinct observed scores in increasing order, then `Infinity`. */
  ghost predicate IsCurve(curve: seq<CurvePoint>, items: seq<Item>) {
    && items != [] && curve != []
    && (forall i :: 0 <= i < |items| ==> Sweeps(curve, At(items[i].score)))
    && (forall k :: 0 <= k < |curve| - 1 ==> SomeItemScores(items, curve[k].threshold))
    && Increasing(curve) && curve[|curve| - 1].threshold == Infinity
    && forall k :: 0 <= k < |curve| ==> IsPointOf(curve[k], items)
  }

  // ---------- building the curve ----------

  ghost predicate Observed(items: seq<Item>, n: nat, y: real)
    requires n <= |items|
  {
    exists i :: 0 <= i < n && items[i].score == y
  }

  predicate StrictlyUp(ts: seq<real>) {
    forall k, m :: 0 <= k < m < |ts| ==> ts[k] < ts[m]
  }

  lemma {:induction false} InsertStrict(ts: seq<real>, x: real, p: nat)
    requires StrictlyUp(ts) && p <= |ts|
    requires p > 0 ==> ts[p - 1] < x
    requires p < |ts| ==> x < ts[p]
    ensures StrictlyUp(ts[..p] + [x] + ts[p..])
  {
    var r := ts[..p] + [x] + ts[p..];
    assert forall k :: 0 <= k < p ==> r[k] == ts[k] <= ts[p - 1];
    assert r[p] == x;
    assert forall m :: p < m < |r| ==> r[m] == ts[m - 1] >= ts[p];
  }

  lemma {:induction false} InsertMembers(ts: seq<real>, x: real, p: nat)
    requires p <= |ts|
    ensures forall y :: y in ts[..p] + [x] + ts[p..] <==> y in ts || y == x
  {
    assert ts == ts[..p] + ts[p..];
  }

  lemma {:induction false} ObservedStep(items: seq<Item>, n: nat)
    requires n < |items|
    ensures forall y :: Observed(items, n + 1, y) <==> Observed(items, n, y) || y == items[n].score
  {
    forall y
      ensures Observed(items, n + 1, y) <==> Observed(items, n, y) || y == items[n].score
    {
      assert items[n].score == y ==> Observed(items, n + 1, y);
    }
  }

  /** The distinct scores, increasing. */
  method DistinctScores(items: seq<Item>) returns (ts: seq<real>)
    ensures StrictlyUp(ts)
    ensures forall y :: y in ts <==> Observed(items, |items|, y)
  {
    ts := [];
    for n := 0 to |items|
      invariant StrictlyUp(ts)
      invariant forall y :: y in ts <==> Observed(items, n, y)
    {
      var x := items[n].score;
      var p := 0;
      while p < |ts| && ts[p] < x
        invariant 0 <= p <= |ts|
        invariant p > 0 ==> ts[p - 1] < x
      {
        p := p + 1;
      }
      ObservedStep(items, n);
      if p == |ts| || ts[p] != x {
        InsertStrict(ts, x, p);
        InsertMembers(ts, x, p);
        ts := ts[..p] + [x] + ts[p..];
      } else {
        assert x in ts;
      }
    }
  }

  method PointAt(items: seq<Item>, t: Threshold) returns (p: CurvePoint)
    requires items != []
    ensures p.threshold == t && IsPointOf(p, items)
  {
    var escalated, correct := 0, 0;
    for i := 0 to |items|
      invariant Escalated(items, t) == escalated + Escalated(items[i..], t)
      invariant correct + (|items| - i) - Missed(items[i..], t) == |items| - Missed(items, t)
    {
      assert items[i..][0] == items[i] && items[i..][1..] == items[i + 1..];
      if Escalates(items[i], t) {
        escalated := escalated + 1;
        correct := correct + 1;
      } else if !items[i].wrong {
        correct := correct + 1;
      }
    }
    p := CurvePoint(t, Rate(escalated, |items|), Rate(correct, |items|));
  }

  /** The points taken at the distinct scores and at infinity form the curve. */
  lemma {:induction false} PointsFormCurve(scores: seq<real>, curve: seq<CurvePoint>, items: seq<Item>)
    requires items != []
    requires StrictlyUp(scores) && forall y :: y in scores <==> Observed(items, |items|, y)
    requires |curve| == |scores| + 1 && curve[|scores|].threshold == Infinity
    requires forall k :: 0 <= k < |scores| ==> curve[k].threshold == At(scores[k])
    requires forall k :: 0 <= k < |curve| ==> IsPointOf(curve[k], items)
    ensures IsCurve(curve, items)
  {
    forall i | 0 <= i < |items| ensures Sweeps(curve, At(items[i].score)) {
      assert Observed(items, |items|, items[i].score);
      assert items[i].score in scores;
      var k :| 0 <= k < |scores| && scores[k] == items[i].score;
      assert curve[k].threshold == At(items[i].score);
    }
    forall k | 0 <= k < |curve| - 1 ensures SomeItemScores(items, curve[k].threshold) {
      assert scores[k] in scores;
      assert Observed(items, |items|, scores[k]);
      var i :| 0 <= i < |items| && items[i].score == scores[k];
      assert At(items[i].score) == curve[k].threshold;
    }
    forall k, m | 0 <= k < m < |curve| ensures Less(curve[k].threshold, curve[m].threshold) {
      assert m < |scores| ==> scores[k] < scores[m];
    }
  }

  method Curve(items: seq<Item>) returns (curve: seq<CurvePoint>)
    ensures items == [] ==> curve == []
    ensures items != [] ==> IsCurve(curve, items)
  {
    if |items| == 0 {
      return [];
    }
    var scores := DistinctScores(items);
    curve := [];
    for k := 0 to |scores|
      invariant |curve| == k
      invariant forall m :: 0 <= m < k ==> curve[m].threshold == At(scores[m]) && IsPointOf(curve[m], items)
    {
      var p := PointAt(items, At(scores[k]));
      curve := curve + [p];
    }
    var last := PointAt(items, Infinity);
    curve := curve + [last];
    PointsFormCurve(scores, curve, items);
  }

  // ---------- the curve is strictly monotone ----------

  lemma {:induction false} CountsMonotone(items: seq<Item>, a: Threshold, b: Threshold)
    requires Less(a, b)
    ensures Escalated(items, a) >= Escalated(items, b) && Missed(items, a) <= Missed(items, b)
    ensures forall i :: 0 <= i < |items| && Escalates(items[i], a) && !Escalates(items[i], b)
              ==> Escalated(items, a) > Escalated(items, b)
  {
    if items != [] {
      CountsMonotone(items[1..], a, b);
    }
  }

  lemma {:induction false} RateMonotone(a: int, b: int, n: nat)
    requires n > 0
    ensures a < b <==> Rate(a, n) < Rate(b, n)
    ensures a == b <==> Rate(a, n) == Rate(b, n)
  {
    var d := Rate(b, n) - Rate(a, n);
    assert d == (b - a) as real / n as real;
    assert d * n as real == (b - a) as real;
  }

  /** Raising the threshold strictly lowers the frontier rate and never raises accuracy. */
  lemma {:induction false} CurveFalls(items: seq<Item>, curve: seq<CurvePoint>, i: nat, j: nat)
    requires IsCurve(curve, items) && i < j < |curve|
    ensures curve[i].frontierRate > curve[j].frontierRate
    ensures curve[i].accuracy >= curve[j].accuracy
  {
    var n := |items|;
    var a, b := curve[i].threshold, curve[j].threshold;
    assert Less(a, b) && SomeItemScores(items, a);
    var x :| 0 <= x < |items| && At(items[x].score) == a;
    CountsMonotone(items, a, b);
    assert Escalates(items[x], a) && !Escalates(items[x], b);
    RateMonotone(Escalated(items, b), Escalated(items, a), n);
    RateMonotone(n - Missed(items, a), n - Missed(items, b), n);
  }

  // ---------- the minimum-frontier search ----------

  const EPSILON: real := 0.000000001

  /** The iso-quality target the experiment asks for. */
  const TARGET: real := 1.0 - EPSILON

  predicate Reaches(p: CurvePoint, target: real) {
    p.accuracy >= target - EPSILON
  }

  function MinFrontier(curve: seq<CurvePoint>, target: real): (r: Option<real>)
    ensures r.None? <==> forall k :: 0 <= k < |curve| ==> !Reaches(curve[k], target)
    ensures r.Some? ==> exists k :: 0 <= k < |curve| && Reaches(curve[k], target) && curve[k].frontierRate == r.value
    ensures r.Some? ==> forall k :: 0 <= k < |curve| && Reaches(curve[k], target) ==> r.value <= curve[k].frontierRate
  {
    if curve == [] then None
    else
      var rest := MinFrontier(curve[1..], target);
      assert forall k :: 1 <= k < |curve| ==> curve[k] == curve[1..][k - 1];
      if !Reaches(curve[0], target) then rest
      else if rest.None? || curve[0].frontierRate <= rest.value then Some(curve[0].frontierRate)
      else rest
  }

  /** A point reaches the target exactly when its misses are within one in 5 * 10^8. */
  lemma {:induction false} ReachesTarget(items: seq<Item>, p: CurvePoint)
    requires items != [] && IsPointOf(p, items)
    ensures Reaches(p, TARGET) <==> 500_000_000 * Missed(items, p.threshold) <= |items|
  {
    var n, m := |items|, Missed(items, p.threshold);
    RateTimes(n - m, n);
    ToleranceInItems(p.accuracy, m, n);
  }

  lemma {:induction false} ToleranceInItems(accuracy: real, m: nat, n: nat)
    requires n > 0 && accuracy * n as real == (n - m) as real
    ensures accuracy >= TARGET - EPSILON <==> 500_000_000 * m <= n
  {
    ScaleOrder(accuracy, 0.999999998, n as real);
  }

  lemma {:induction false} RateTimes(c: int, n: nat)
    requires n > 0
    ensures Rate(c, n) * n as real == c as real
  {
  }

  lemma {:induction false} ScaleOrder(a: real, b: real, n: real)
    requires n > 0.0
    ensures a >= b <==> a * n >= b * n
  {
    assert a * n - b * n == (a - b) * n;
  }

  predicate LowestWrong(items: seq<Item>, w: real) {
    && (exists i :: 0 <= i < |items| && items[i].wrong && items[i].score == w)
    && (forall i :: 0 <= i < |items| && items[i].wrong ==> w <= items[i].score)
  }

  function WrongAt(items: seq<Item>, w: real): nat {
    if items == [] then 0
    else (if items[0].wrong && items[0].score == w then 1 else 0) + WrongAt(items[1..], w)
  }

  /** The search tolerance cannot hide the wrong items with the lowest score; true below 5 * 10^8 items. */
  predicate Tight(items: seq<Item>, w: real) {
    500_000_000 * WrongAt(items, w) > |items|
  }

  lemma {:induction false} MissesAbove(items: seq<Item>, w: real, t: Threshold)
    requires forall i :: 0 <= i < |items| && items[i].wrong ==> w <= items[i].score
    ensures Missed(items, At(w)) == 0
    ensures Less(At(w), t) ==> Missed(items, t) >= WrongAt(items, w)
    ensures (forall i :: 0 <= i < |items| && items[i].wrong && !Escalates(items[i], t) ==> items[i].score == w)
            ==> Missed(items, t) <= WrongAt(items, w)
  {
    if items != [] {
      MissesAbove(items[1..], w, t);
    }
  }

  lemma {:induction false} WrongAtPositive(items: seq<Item>, w: real, i: nat)
    requires i < |items| && items[i].wrong && items[i].score == w
    ensures WrongAt(items, w) >= 1
  {
    if i > 0 {
      WrongAtPositive(items[1..], w, i - 1);
    }
  }

  /** The wrong items the next threshold misses are those scored exactly at the lowest wrong score. */
  lemma {:induction false} NextMissesOnlyLowest(items: seq<Item>, curve: seq<CurvePoint>, w: real, k: nat)
    requires IsCurve(curve, items) && LowestWrong(items, w)
    requires k + 1 < |curve| && curve[k].threshold == At(w)
    ensures Missed(items, curve[k + 1].threshold) <= WrongAt(items, w)
  {
    forall i | 0 <= i < |items| && items[i].wrong && !Escalates(items[i], curve[k + 1].threshold)
      ensures items[i].score == w
    {
      assert Sweeps(curve, At(items[i].score));
      var m :| 0 <= m < |curve| && curve[m].threshold == At(items[i].score);
      IndexOrder(curve, k, m);
      IndexOrder(curve, m, k + 1);
    }
    MissesAbove(items, w, curve[k + 1].threshold);
  }

  lemma {:induction false} IndexOrder(curve: seq<CurvePoint>, k: nat, m: nat)
    requires Increasing(curve) && k < |curve| && m < |curve|
    ensures k < m <==> Less(curve[k].threshold, curve[m].threshold)
  {
    if m < k {
      assert Less(curve[m].threshold, curve[k].threshold);
    }
  }

  /**
   Iso-quality search: the minimum frontier rate is the fraction scored at or above the lowest wrong
   item if and only if the tolerance is tight there.
   */
  lemma {:induction false} IsoQualityFrontier(items: seq<Item>, curve: seq<CurvePoint>, w: real)
    requires IsCurve(curve, items) && LowestWrong(items, w)
    ensures MinFrontier(curve, TARGET).Some?
    ensures MinFrontier(curve, TARGET).value == Rate(Escalated(items, At(w)), |items|) <==> Tight(items, w)
  {
    var i :| 0 <= i < |items| && items[i].wrong && items[i].score == w;
    assert Sweeps(curve, At(items[i].score));
    var k :| 0 <= k < |curve| && curve[k].threshold == At(w);
    MissesAbove(items, w, Infinity);
    ReachesTarget(items, curve[k]);
    if Tight(items, w) {
      forall j | 0 <= j < |curve| && Reaches(curve[j], TARGET)
        ensures curve[j].frontierRate >= curve[k].frontierRate
      {
        OnlyUpToLowest(items, curve, w, k, j);
        if j < k {
          CurveFalls(items, curve, j, k);
        }
      }
    } else {
      NextMissesOnlyLowest(items, curve, w, k);
      ReachesTarget(items, curve[k + 1]);
      CurveFalls(items, curve, k, k + 1);
    }
  }

  /** With a tight tolerance no threshold above the lowest wrong score reaches the target. */
  lemma {:induction false} OnlyUpToLowest(items: seq<Item>, curve: seq<CurvePoint>, w: real, k: nat, j: nat)
    requires IsCurve(curve, items) && LowestWrong(items, w) && Tight(items, w)
    requires k < |curve| && j < |curve| && curve[k].threshold == At(w) && Reaches(curve[j], TARGET)
    ensures j <= k
  {
    ReachesTarget(items, curve[j]);
    MissesAbove(items, w, curve[j].threshold);
    IndexOrder(curve, k, j);
  }

  lemma {:induction false} IsoQualityBelowLimit(items: seq<Item>, curve: seq<CurvePoint>, w: real)
    requires IsCurve(curve, items) && LowestWrong(items, w) && |items| < 500_000_000
    ensures MinFrontier(curve, TARGET) == Some(Rate(Escalated(items, At(w)), |items|))
  {
    var i :| 0 <= i < |items| && items[i].wrong && items[i].score == w;
    WrongAtPositive(items, w, i);
    IsoQualityFrontier(items, curve, w);
  }

  /** The search reports that nothing needs the frontier exactly when at most one item in 5 * 10^8 is wrong. */
  lemma {:induction false} ZeroFrontier(items: seq<Item>, curve: seq<CurvePoint>)
    requires IsCurve(curve, items)
    ensures MinFrontier(curve, TARGET) == Some(0.0) <==> 500_000_000 * Wrong(items) <= |items|
  {
    var last := |curve| - 1;
    NothingAtInfinity(items);
    ReachesTarget(items, curve[last]);
    assert curve[last].frontierRate == 0.0;
    forall j | 0 <= j < last ensures curve[j].frontierRate > 0.0 {
      CurveFalls(items, curve, j, last);
    }
  }

  /** With no wrong item nothing needs the frontier. */
  lemma {:induction false} IsoQualityAllRight(items: seq<Item>, curve: seq<CurvePoint>)
    requires IsCurve(curve, items) && forall i :: 0 <= i < |items| ==> !items[i].wrong
    ensures MinFrontier(curve, TARGET) == Some(0.0)
  {
    NothingAtInfinity(items);
    ZeroFrontier(items, curve);
  }

  /** `n` right answers, all scored 1. */
  function RightItems(n: nat): seq<Item> {
    if n == 0 then [] else [Item(false, 1.0)] + RightItems(n - 1)
  }

  lemma {:induction false} RightItemsAre(n: nat, w: real)
    ensures |RightItems(n)| == n && WrongAt(RightItems(n), w) == 0 && Wrong(RightItems(n)) == 0
    ensures forall i :: 0 <= i < n ==> !RightItems(n)[i].wrong
  {
    if n > 0 {
      RightItemsAre(n - 1, w);
      assert RightItems(n)[1..] == RightItems(n - 1);
    }
  }

  /**
   Where the tolerance is not tight: one wrong item, scored below 5 * 10^8 - 1 or more right ones. Escalating it
   takes every item, and the search reports that none needs the frontier.
   */
  lemma {:induction false} ToleranceHidesOne(n: nat, curve: seq<CurvePoint>)
    requires n >= 499_999_999 && IsCurve(curve, [Item(true, 0.0)] + RightItems(n))
    ensures var items := [Item(true, 0.0)] + RightItems(n);
            && LowestWrong(items, 0.0) && !Tight(items, 0.0)
            && MinFrontier(curve, TARGET) == Some(0.0)
            && MinFrontier(curve, TARGET) != Some(Rate(Escalated(items, At(0.0)), |items|))
  {
    var items := [Item(true, 0.0)] + RightItems(n);
    RightItemsAre(n, 0.0);
    assert items[0] == Item(true, 0.0) && items[1..] == RightItems(n);
    assert forall i :: 1 <= i < |items| ==> items[i] == RightItems(n)[i - 1];
    assert LowestWrong(items, 0.0);
    ZeroFrontier(items, curve);
    IsoQualityFrontier(items, curve, 0.0);
  }

  lemma {:induction false} NothingAtInfinity(items: seq<Item>)
    ensures Escalated(items, Infinity) == 0
    ensures (forall i :: 0 <= i < |items| ==> !items[i].wrong) ==> Missed(items, Infinity) == 0
  {
    if items != [] {
      NothingAtInfinity(items[1..]);
    }
  }

  // ---------- the curve and AUROC ----------

  function AsRows(items: seq<Item>): seq<Auroc.Row> {
    if items == [] then [] else [Auroc.Row(items[0].score, items[0].wrong)] + AsRows(items[1..])
  }

  lemma {:induction false} ClassMembers(items: seq<Item>, s: real, wrong: bool)
    ensures s in Auroc.Class(AsRows(items), wrong)
            <==> exists i :: 0 <= i < |items| && items[i].wrong == wrong && items[i].score == s
  {
    if items != [] {
      ClassMembers(items[1..], s, wrong);
      assert AsRows(items)[1..] == AsRows(items[1..]);
      if i :| 0 <= i < |items| && items[i].wrong == wrong && items[i].score == s {
        if i > 0 {
          assert items[1..][i - 1] == items[i];
        }
      }
      if j :| 0 <= j < |items[1..]| && items[1..][j].wrong == wrong && items[1..][j].score == s {
        assert items[j + 1] == items[1..][j];
      }
    }
  }

  /** Every pair is won exactly when each left score beats each right score. */
  lemma {:induction false} AllBelow(a: real, ys: seq<real>)
    ensures Auroc.Below(a, ys) <= |ys|
    ensures Auroc.Below(a, ys) == |ys| <==> forall j :: 0 <= j < |ys| ==> ys[j] < a
  {
    if ys != [] {
      AllBelow(a, ys[1..]);
      assert forall j :: 1 <= j < |ys| ==> ys[j] == ys[1..][j - 1];
    }
  }

  lemma {:induction false} AllWins(xs: seq<real>, ys: seq<real>)
    ensures Auroc.Wins(xs, ys) <= |xs| * |ys|
    ensures Auroc.Wins(xs, ys) == |xs| * |ys| <==> forall i, j :: 0 <= i < |xs| && 0 <= j < |ys| ==> ys[j] < xs[i]
  {
    if xs != [] {
      AllWins(xs[1..], ys);
      AllBelow(xs[0], ys);
      assert |xs| * |ys| == |xs[1..]| * |ys| + |ys|;
      assert forall i :: 1 <= i < |xs| ==> xs[i] == xs[1..][i - 1];
    }
  }

  /** Escalating at the lowest wrong score sends no more than the wrong items exactly when no right item reaches it. */
  lemma {:induction false} EscalatedAtLowest(items: seq<Item>, w: real)
    requires forall i :: 0 <= i < |items| && items[i].wrong ==> w <= items[i].score
    ensures Escalated(items, At(w)) >= Wrong(items)
    ensures Escalated(items, At(w)) == Wrong(items)
            <==> forall i :: 0 <= i < |items| && !items[i].wrong ==> items[i].score < w
  {
    if items != [] {
      EscalatedAtLowest(items[1..], w);
      assert forall i :: 1 <= i < |items| ==> items[i] == items[1..][i - 1];
    }
  }

  /** The minimum frontier rate is the error rate exactly for a gate whose AUROC is 1. */
  lemma {:induction false} PerfectGate(items: seq<Item>, curve: seq<CurvePoint>, w: real)
    requires IsCurve(curve, items) && LowestWrong(items, w) && Tight(items, w)
    requires exists i :: 0 <= i < |items| && !items[i].wrong
    ensures MinFrontier(curve, TARGET) == Some(Rate(Wrong(items), |items|))
            <==> Auroc.Concordance(AsRows(items)) == Some(1.0)
  {
    var rows := AsRows(items);
    var ps, ns := Auroc.Positives(rows), Auroc.Negatives(rows);
    ClassMembers(items, w, true);
    var z :| 0 <= z < |items| && !items[z].wrong;
    ClassMembers(items, items[z].score, false);
    assert w in ps && items[z].score in ns;
    Auroc.ConcordanceInRange(rows);
    AllWins(ps, ns);
    IsoQualityFrontier(items, curve, w);
    EscalatedAtLowest(items, w);
    RateMonotone(Wrong(items), Escalated(items, At(w)), |items|);
    SeparatedAtLowest(items, w);
  }

  lemma {:induction false} SeparatedAtLowest(items: seq<Item>, w: real)
    requires LowestWrong(items, w)
    ensures var ps, ns := Auroc.Positives(AsRows(items)), Auroc.Negatives(AsRows(items));
            (forall i, j :: 0 <= i < |ps| && 0 <= j < |ns| ==> ns[j] < ps[i])
            <==> forall i :: 0 <= i < |items| && !items[i].wrong ==> items[i].score < w
  {
    var ps, ns := Auroc.Positives(AsRows(items)), Auroc.Negatives(AsRows(items));
    ClassMembers(items, w, true);
    assert w in ps;
    if forall i, j :: 0 <= i < |ps| && 0 <= j < |ns| ==> ns[j] < ps[i] {
      forall i | 0 <= i < |items| && !items[i].wrong ensures items[i].score < w {
        ClassMembers(items, items[i].score, false);
        assert items[i].score in ns;
      }
    }
    if forall i :: 0 <= i < |items| && !items[i].wrong ==> items[i].score < w {
      forall i, j | 0 <= i < |ps| && 0 <= j < |ns| ensures ns[j] < ps[i] {
        ClassMembers(items, ps[i], true);
        ClassMembers(items, ns[j], false);
        assert ps[i] in ps && ns[j] in ns;
      }
    }
  }
}
