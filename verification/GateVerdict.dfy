/**
 The Gate E verdict (`round`, `aggregateArm`, `referenceFrontierTokens`, `evaluateGateE`, `e5Pivotal`,
 `buildVerdicts`), in exact arithmetic.

 Rates are rounded to thousandths before they meet their thresholds; the rounding lemmas say exactly what
 each threshold then admits. The pivotal check decides whether the blind judge needs to run at all: it is
 proved to hold exactly when some judge input makes the arm pass. The last results connect the verdict
 with the orchestration loop.
 */
module GateVerdict {
  import opened Options
  import opened Trace
  import Scorer
  import Orchestration

  datatype TaskScore = TaskScore(
    answerPass: bool, planCoverage: real, gapEscalated: Option<bool>, nonGapLeaves: nat, escalatedNonGapLeaves: nat,
    collapse: Scorer.Collapse, frontierTokens: nat, brainTokens: nat, totalTokens: nat)

  datatype JudgeScores = JudgeScores(overall: real, minDimension: Option<real>)

  datatype ArmAggregate = ArmAggregate(
    arm: Arm, n: nat, answerPassRate: real, collapseCount: nat, meanPlanCoverage: real, minPlanCoverage: real,
    gapRecall: real, overEscalationRate: real, frontierTokens: nat, brainTokens: nat, totalTokens: nat,
    judge: Option<JudgeScores>)

  // ---------- rounding ----------

  function Milli(x: real): int {
    (x * 1000.0 + 0.5).Floor
  }

  /** Nearest thousandth, halves up. */
  function Round(x: real): real {
    Milli(x) as real / 1000.0
  }

  function Share(part: nat, whole: nat, ifNone: real): real {
    if whole == 0 then ifNone else part as real / whole as real
  }

  lemma {:induction false} SameSign(x: real, m: real)
    requires m > 0.0
    ensures x >= 0.0 <==> x * m >= 0.0
  {
  }

  /** When a share of whole numbers rounds to at least `k` thousandths. */
  lemma {:induction false} MilliOfShare(part: nat, whole: nat, k: int)
    requires whole > 0
    ensures Milli(part as real / whole as real) >= k <==> 2000 * part + whole >= 2 * k * whole
  {
    var q, n := part as real / whole as real, whole as real;
    assert q * n == part as real;
    var diff := q * 1000.0 + 0.5 - k as real;
    assert Milli(q) >= k <==> diff >= 0.0;
    SameSign(diff, n * 2.0);
    assert diff * (n * 2.0) == 2000.0 * (q * n) + n - 2.0 * (k as real * n);
  }

  // ---------- aggregating one arm ----------

  function CountWhere(scores: seq<TaskScore>, p: TaskScore -> bool): nat {
    if scores == [] then 0 else (if p(scores[0]) then 1 else 0) + CountWhere(scores[1..], p)
  }

  function SumOf(scores: seq<TaskScore>, f: TaskScore -> nat): nat {
    if scores == [] then 0 else f(scores[0]) + SumOf(scores[1..], f)
  }

  function SumCoverage(scores: seq<TaskScore>): real {
    if scores == [] then 0.0 else scores[0].planCoverage + SumCoverage(scores[1..])
  }

  const PASSED: TaskScore -> bool := (s: TaskScore) => s.answerPass
  const COLLAPSED: TaskScore -> bool := (s: TaskScore) => !s.collapse.NoCollapse?
  const HAS_GAP: TaskScore -> bool := (s: TaskScore) => s.gapEscalated.Some?
  const GAP_ESCALATED: TaskScore -> bool := (s: TaskScore) => s.gapEscalated == Some(true)
  const NON_GAP_LEAVES: TaskScore -> nat := (s: TaskScore) => s.nonGapLeaves
  const ESCALATED_NON_GAP_LEAVES: TaskScore -> nat := (s: TaskScore) => s.escalatedNonGapLeaves
  const FRONTIER_SPEND: TaskScore -> nat := (s: TaskScore) => s.frontierTokens
  const BRAIN_SPEND: TaskScore -> nat := (s: TaskScore) => s.brainTokens
  const TOTAL_SPEND: TaskScore -> nat := (s: TaskScore) => s.totalTokens

  /** The lowest coverage, starting from 1; 0 for an arm without tasks. */
  ghost predicate IsMinCoverage(scores: seq<TaskScore>, m: real) {
    if scores == [] then m == 0.0
    else
      && (forall k :: 0 <= k < |scores| ==> m <= scores[k].planCoverage) && m <= 1.0
      && (m == 1.0 || exists k :: 0 <= k < |scores| && scores[k].planCoverage == m)
  }

  /** The roll-up of an arm, its minimum coverage being found by the loop below. */
  function AggregateWith(
    arm: Arm, scores: seq<TaskScore>, judge: Option<JudgeScores>, minCoverage: real): ArmAggregate
  {
    var n := |scores|;
    ArmAggregate(
      arm, n,
      Round(Share(CountWhere(scores, PASSED), n, 0.0)),
      CountWhere(scores, COLLAPSED),
      Round(if n == 0 then 0.0 else SumCoverage(scores) / n as real),
      Round(minCoverage),
      Round(Share(CountWhere(scores, GAP_ESCALATED), CountWhere(scores, HAS_GAP), 1.0)),
      Round(Share(SumOf(scores, ESCALATED_NON_GAP_LEAVES), SumOf(scores, NON_GAP_LEAVES), 0.0)),
      SumOf(scores, FRONTIER_SPEND), SumOf(scores, BRAIN_SPEND), SumOf(scores, TOTAL_SPEND),
      judge)
  }

  ghost predicate IsAggregate(a: ArmAggregate, arm: Arm, scores: seq<TaskScore>, judge: Option<JudgeScores>) {
    exists m :: IsMinCoverage(scores, m) && a == AggregateWith(arm, scores, judge, m)
  }

  method AggregateArm(arm: Arm, scores: seq<TaskScore>, judge: Option<JudgeScores>) returns (a: ArmAggregate)
    ensures IsAggregate(a, arm, scores, judge)
  {
    var minPlanCoverage := 1.0;
    for i := 0 to |scores|
      invariant minPlanCoverage <= 1.0 && forall k :: 0 <= k < i ==> minPlanCoverage <= scores[k].planCoverage
      invariant minPlanCoverage == 1.0 || exists k :: 0 <= k < i && scores[k].planCoverage == minPlanCoverage
    {
      if scores[i].planCoverage < minPlanCoverage {
        minPlanCoverage := scores[i].planCoverage;
      }
    }
    if |scores| == 0 {
      minPlanCoverage := 0.0;
    }
    assert IsMinCoverage(scores, minPlanCoverage);
    a := AggregateWith(arm, scores, judge, minPlanCoverage);
  }

  /** The aggregate is determined by the scores; the judge only fills its own field. */
  lemma {:induction false} AggregateIsUnique(
    a: ArmAggregate, a': ArmAggregate, arm: Arm, scores: seq<TaskScore>,
    j: Option<JudgeScores>, j': Option<JudgeScores>)
    requires IsAggregate(a, arm, scores, j) && IsAggregate(a', arm, scores, j')
    ensures a' == a.(judge := j')
  {
    var m: real :| IsMinCoverage(scores, m) && a == AggregateWith(arm, scores, j, m);
    var m': real :| IsMinCoverage(scores, m') && a' == AggregateWith(arm, scores, j', m');
    assert m == m';
  }

  // ---------- the criteria ----------

  datatype CriterionId = E1 | E2 | E3 | E4 | E5 | E6

  /** None: not evaluable. */
  datatype Criterion = Criterion(id: CriterionId, pass: Option<bool>)

  datatype Verdict = Verdict(reference: ArmAggregate, candidate: ArmAggregate, criteria: seq<Criterion>, pass: bool)

  /** A0's brain is frontier, so its own tokens count as frontier spend. */
  function ReferenceFrontierTokens(reference: ArmAggregate): nat {
    reference.brainTokens + reference.frontierTokens
  }

  predicate E1Pass(c: ArmAggregate, r: ArmAggregate) { c.answerPassRate >= r.answerPassRate - 0.1 }

  predicate E3Pass(c: ArmAggregate) { c.meanPlanCoverage >= 0.85 && c.minPlanCoverage >= 0.6 }

  predicate E4Pass(c: ArmAggregate) { c.gapRecall >= 1.0 && c.overEscalationRate <= 0.1 }

  function E5Pass(c: ArmAggregate, r: ArmAggregate): Option<bool> {
    if c.judge.None? || r.judge.None? then None
    else
      var j := c.judge.value;
      var floor := if j.minDimension.Some? then j.minDimension.value else j.overall;
      Some(j.overall >= r.judge.value.overall - 0.5 && floor >= 3.0)
  }

  function E6Pass(c: ArmAggregate, r: ArmAggregate): Option<bool> {
    if !c.arm.A3? then None
    else
      var whole := ReferenceFrontierTokens(r);
      Some((if whole == 0 then 0.0 else c.frontierTokens as real / whole as real) <= 0.25)
  }

  function Criteria(c: ArmAggregate, r: ArmAggregate): seq<Criterion> {
    [Criterion(E1, Some(E1Pass(c, r))),
     Criterion(E2, Some(c.collapseCount == 0)),
     Criterion(E3, Some(E3Pass(c))),
     Criterion(E4, Some(E4Pass(c))),
     Criterion(E5, E5Pass(c, r)),
     Criterion(E6, E6Pass(c, r))]
  }

  /** The first criterion with this id passes. */
  predicate Holds(criteria: seq<Criterion>, id: CriterionId) {
    criteria != [] && (if criteria[0].id == id then criteria[0].pass == Some(true) else Holds(criteria[1..], id))
  }

  function Required(arm: Arm): set<CriterionId> {
    if arm.A3? then {E1, E2, E3, E4, E5, E6} else {E1, E2, E3, E4, E5}
  }

  function Evaluate(c: ArmAggregate, r: ArmAggregate): Verdict {
    var criteria := Criteria(c, r);
    Verdict(r, c, criteria, forall id :: id in Required(c.arm) ==> Holds(criteria, id))
  }

  /** Every required criterion but the judge's holds. */
  predicate E5Pivotal(v: Verdict) {
    forall id :: id in Required(v.candidate.arm) - {E5} ==> Holds(v.criteria, id)
  }

  // ---------- is the judge the decider? ----------

  /** The first criterion with the id of criterion `k` decides. */
  lemma {:induction false} HoldsAt(l: seq<Criterion>, k: nat)
    requires k < |l| && forall j :: 0 <= j < k ==> l[j].id != l[k].id
    ensures Holds(l, l[k].id) <==> l[k].pass == Some(true)
  {
    if k > 0 {
      HoldsAt(l[1..], k - 1);
    }
  }

  lemma {:induction false} CriteriaHold(c: ArmAggregate, r: ArmAggregate)
    ensures Holds(Criteria(c, r), E1) <==> E1Pass(c, r)
    ensures Holds(Criteria(c, r), E2) <==> c.collapseCount == 0
    ensures Holds(Criteria(c, r), E3) <==> E3Pass(c)
    ensures Holds(Criteria(c, r), E4) <==> E4Pass(c)
    ensures Holds(Criteria(c, r), E5) <==> E5Pass(c, r) == Some(true)
    ensures Holds(Criteria(c, r), E6) <==> E6Pass(c, r) == Some(true)
  {
    var l := Criteria(c, r);
    HoldsAt(l, 0);
    HoldsAt(l, 1);
    HoldsAt(l, 2);
    HoldsAt(l, 3);
    HoldsAt(l, 4);
    HoldsAt(l, 5);
  }

  function Judged(a: ArmAggregate, j: Option<JudgeScores>): ArmAggregate {
    a.(judge := j)
  }

  /** The judge moves no criterion but its own. */
  lemma {:induction false} JudgeOnlyMovesE5(
    c: ArmAggregate, r: ArmAggregate, jc: Option<JudgeScores>, jr: Option<JudgeScores>, id: CriterionId)
    requires id != E5
    ensures Holds(Criteria(Judged(c, jc), Judged(r, jr)), id) <==> Holds(Criteria(c, r), id)
  {
    CriteriaHold(c, r);
    CriteriaHold(Judged(c, jc), Judged(r, jr));
  }

  /** Pivotal exactly when some judge scores for candidate and reference make the arm pass. */
  lemma {:induction false} PivotalIffSomeJudgePasses(c: ArmAggregate, r: ArmAggregate)
    ensures E5Pivotal(Evaluate(c, r))
            <==> exists jc: Option<JudgeScores>, jr: Option<JudgeScores> :: Evaluate(Judged(c, jc), Judged(r, jr)).pass
  {
    if E5Pivotal(Evaluate(c, r)) {
      var best := Some(JudgeScores(5.0, Some(5.0)));
      CriteriaHold(Judged(c, best), Judged(r, best));
      forall id | id in Required(c.arm) ensures Holds(Criteria(Judged(c, best), Judged(r, best)), id) {
        if id != E5 {
          JudgeOnlyMovesE5(c, r, best, best, id);
        }
      }
      assert Evaluate(Judged(c, best), Judged(r, best)).pass;
    }
    if jc: Option<JudgeScores>, jr: Option<JudgeScores> :| Evaluate(Judged(c, jc), Judged(r, jr)).pass {
      forall id | id in Required(c.arm) - {E5} ensures Holds(Criteria(c, r), id) {
        JudgeOnlyMovesE5(c, r, jc, jr, id);
      }
    }
  }

  // ---------- all candidate arms ----------

  const CANDIDATES: seq<Arm> := [A1, A2, A3]

  function JudgeOf(judges: map<Arm, JudgeScores>, arm: Arm): Option<JudgeScores> {
    if arm in judges then Some(judges[arm]) else None
  }

  /** The verdict on one candidate arm against the A0 reference. */
  ghost predicate IsVerdict(v: Verdict, arm: Arm, scores: map<Arm, seq<TaskScore>>, judges: map<Arm, JudgeScores>) {
    && A0 in scores && arm in scores
    && IsAggregate(v.candidate, arm, scores[arm], JudgeOf(judges, arm))
    && IsAggregate(v.reference, A0, scores[A0], JudgeOf(judges, A0))
    && v == Evaluate(v.candidate, v.reference)
  }

  ghost predicate AreVerdicts(
    vs: seq<Verdict>, arms: seq<Arm>, scores: map<Arm, seq<TaskScore>>, judges: map<Arm, JudgeScores>)
  {
    |vs| == |arms| && forall k :: 0 <= k < |vs| ==> IsVerdict(vs[k], arms[k], scores, judges)
  }

  function Present(arms: seq<Arm>, scores: map<Arm, seq<TaskScore>>): seq<Arm> {
    if arms == [] then []
    else (if arms[|arms| - 1] in scores then Present(arms[..|arms| - 1], scores) + [arms[|arms| - 1]]
          else Present(arms[..|arms| - 1], scores))
  }

  predicate AnyPass(vs: seq<Verdict>) {
    exists k :: 0 <= k < |vs| && vs[k].pass
  }

  lemma {:induction false} AnyPassSnoc(vs: seq<Verdict>, v: Verdict)
    ensures AnyPass(vs + [v]) <==> AnyPass(vs) || v.pass
  {
    var all := vs + [v];
    assert all[|vs|] == v && forall k :: 0 <= k < |vs| ==> all[k] == vs[k];
  }

  lemma {:induction false} PresentSnoc(arms: seq<Arm>, arm: Arm, scores: map<Arm, seq<TaskScore>>)
    ensures Present(arms + [arm], scores) == Present(arms, scores) + if arm in scores then [arm] else []
  {
    assert (arms + [arm])[..|arms|] == arms;
  }

  lemma {:induction false} VerdictsSnoc(
    vs: seq<Verdict>, arms: seq<Arm>, v: Verdict, arm: Arm,
    scores: map<Arm, seq<TaskScore>>, judges: map<Arm, JudgeScores>)
    requires AreVerdicts(vs, arms, scores, judges) && IsVerdict(v, arm, scores, judges)
    ensures AreVerdicts(vs + [v], arms + [arm], scores, judges)
  {
  }

  /** None when the reference is missing, as the code then throws. */
  method BuildVerdicts(scores: map<Arm, seq<TaskScore>>, judges: map<Arm, JudgeScores>)
    returns (r: Option<(seq<Verdict>, bool)>)
    ensures r.None? <==> A0 !in scores
    ensures r.Some? ==> AreVerdicts(r.value.0, Present(CANDIDATES, scores), scores, judges)
                        && r.value.1 == AnyPass(r.value.0)
    ensures r.Some? ==> (r.value.1 <==> GateOpen(scores, judges))
  {
    if A0 !in scores {
      return None;
    }
    var reference := AggregateArm(A0, scores[A0], JudgeOf(judges, A0));
    var verdicts: seq<Verdict> := [];
    var gatePass := false;
    for i := 0 to |CANDIDATES|
      invariant AreVerdicts(verdicts, Present(CANDIDATES[..i], scores), scores, judges)
      invariant gatePass == AnyPass(verdicts)
    {
      var arm := CANDIDATES[i];
      PresentSnoc(CANDIDATES[..i], arm, scores);
      assert CANDIDATES[..i + 1] == CANDIDATES[..i] + [arm];
      if arm in scores {
        var candidate := AggregateArm(arm, scores[arm], JudgeOf(judges, arm));
        var v := Evaluate(candidate, reference);
        VerdictsSnoc(verdicts, Present(CANDIDATES[..i], scores), v, arm, scores, judges);
        AnyPassSnoc(verdicts, v);
        verdicts := verdicts + [v];
        gatePass := gatePass || v.pass;
      }
    }
    assert CANDIDATES[..|CANDIDATES|] == CANDIDATES;
    GateExactly(scores, judges, verdicts);
    r := Some((verdicts, gatePass));
  }

  /** If no candidate is pivotal, the gate fails whatever the judge says: it need not run. */
  lemma {:induction false} NoPivotNoPass(
    scores: map<Arm, seq<TaskScore>>, judges: map<Arm, JudgeScores>, judges': map<Arm, JudgeScores>,
    arms: seq<Arm>, vs: seq<Verdict>, vs': seq<Verdict>)
    requires AreVerdicts(vs, arms, scores, judges) && AreVerdicts(vs', arms, scores, judges')
    requires forall k :: 0 <= k < |vs| ==> !E5Pivotal(vs[k])
    ensures !AnyPass(vs')
  {
    forall k | 0 <= k < |vs'| ensures !vs'[k].pass {
      var v, v' := vs[k], vs'[k];
      assert IsVerdict(v, arms[k], scores, judges) && IsVerdict(v', arms[k], scores, judges');
      var jc, jr := JudgeOf(judges', arms[k]), JudgeOf(judges', A0);
      AggregateIsUnique(v.candidate, v'.candidate, arms[k], scores[arms[k]], JudgeOf(judges, arms[k]), jc);
      AggregateIsUnique(v.reference, v'.reference, A0, scores[A0], JudgeOf(judges, A0), jr);
      PivotalIffSomeJudgePasses(v.candidate, v.reference);
      assert v' == Evaluate(Judged(v.candidate, jc), Judged(v.reference, jr));
    }
  }

  // ---------- what the rounded thresholds admit ----------

  lemma {:induction false} GapCounts(scores: seq<TaskScore>)
    ensures CountWhere(scores, GAP_ESCALATED) <= CountWhere(scores, HAS_GAP)
  {
    if scores != [] {
      GapCounts(scores[1..]);
    }
  }

  /** E4's recall passes exactly when at most one gap task in 2000 was missed. */
  lemma {:induction false} RecallBound(scores: seq<TaskScore>, a: ArmAggregate, arm: Arm, judge: Option<JudgeScores>)
    requires IsAggregate(a, arm, scores, judge)
    ensures var gap, hit := CountWhere(scores, HAS_GAP), CountWhere(scores, GAP_ESCALATED);
            && (a.gapRecall >= 1.0 <==> 2000 * (gap - hit) <= gap)
            && (gap <= 1999 ==> (a.gapRecall >= 1.0 <==> hit == gap))
  {
    var gap, hit := CountWhere(scores, HAS_GAP), CountWhere(scores, GAP_ESCALATED);
    GapCounts(scores);
    if gap > 0 {
      MilliOfShare(hit, gap, 1000);
    }
  }

  /** The first arm size at which a missed gap task slips through: 2000 gap tasks, one missed. */
  lemma {:induction false} RecallFirstFailure()
    ensures Round(Share(1999, 2000, 1.0)) >= 1.0
    ensures forall gap: nat, hit: nat :: hit < gap <= 1999 ==> Round(Share(hit, gap, 1.0)) < 1.0
  {
    MilliOfShare(1999, 2000, 1000);
    forall gap: nat, hit: nat | hit < gap <= 1999 ensures Round(Share(hit, gap, 1.0)) < 1.0 {
      MilliOfShare(hit, gap, 1000);
    }
  }

  /** Over-escalation passes exactly below 10.05%. */
  lemma {:induction false} OverEscalationBound(
    scores: seq<TaskScore>, a: ArmAggregate, arm: Arm, judge: Option<JudgeScores>)
    requires IsAggregate(a, arm, scores, judge)
    ensures var leaves, escalated := SumOf(scores, NON_GAP_LEAVES), SumOf(scores, ESCALATED_NON_GAP_LEAVES);
            a.overEscalationRate <= 0.1 <==> leaves == 0 || 2000 * escalated < 201 * leaves
  {
    var leaves, escalated := SumOf(scores, NON_GAP_LEAVES), SumOf(scores, ESCALATED_NON_GAP_LEAVES);
    if leaves > 0 {
      MilliOfShare(escalated, leaves, 101);
    }
  }

  /** A share in thousandths, rounded half up, by whole-number division. */
  function Thousandths(part: nat, whole: nat): nat {
    if whole == 0 then 0 else (2000 * part + whole) / (2 * whole)
  }

  lemma {:induction false} ThousandthsRound(part: nat, whole: nat)
    ensures Milli(Share(part, whole, 0.0)) == Thousandths(part, whole)
  {
    if whole > 0 {
      var x, d := 2000 * part + whole, 2 * whole;
      var q := x / d;
      assert d * q <= x < d * q + d;
      MilliOfShare(part, whole, q);
      MilliOfShare(part, whole, q + 1);
      assert 2 * q * whole == d * q && 2 * (q + 1) * whole == d * q + d;
    }
  }

  lemma {:induction false} RoundedDeficit(c: real, r: real)
    ensures Round(c) >= Round(r) - 0.1 <==> Milli(c) + 100 >= Milli(r)
    ensures c >= r - 0.1 ==> Round(c) >= Round(r) - 0.1
    ensures Round(c) >= Round(r) - 0.1 ==> r - c < 0.101
  {
    if c >= r - 0.1 {
      assert c * 1000.0 + 0.5 >= r * 1000.0 + 0.5 - 100.0;
    }
  }

  /**
   E1 passes exactly when the rounded pass rates, in whole thousandths of the pass counts, are at most 100
   apart: a true pass never fails, and a pass admits a deficit below 0.101.
   */
  lemma {:induction false} AnswerRateBound(
    cs: seq<TaskScore>, rs: seq<TaskScore>, c: ArmAggregate, r: ArmAggregate)
    requires IsAggregate(c, c.arm, cs, c.judge) && IsAggregate(r, r.arm, rs, r.judge)
    ensures E1Pass(c, r) <==>
              Thousandths(CountWhere(cs, PASSED), |cs|) + 100 >= Thousandths(CountWhere(rs, PASSED), |rs|)
    ensures var p, q := Share(CountWhere(cs, PASSED), |cs|, 0.0), Share(CountWhere(rs, PASSED), |rs|, 0.0);
            (p >= q - 0.1 ==> E1Pass(c, r)) && (E1Pass(c, r) ==> q - p < 0.101)
  {
    ThousandthsRound(CountWhere(cs, PASSED), |cs|);
    ThousandthsRound(CountWhere(rs, PASSED), |rs|);
    RoundedDeficit(Share(CountWhere(cs, PASSED), |cs|, 0.0), Share(CountWhere(rs, PASSED), |rs|, 0.0));
  }

  lemma {:induction false} RoundedFloors(x: real)
    ensures Round(x) >= 0.85 <==> x >= 0.8495
    ensures Round(x) >= 0.6 <==> x >= 0.5995
  {
    var y := x * 1000.0 + 0.5;
    assert y.Floor >= 850 <==> y >= 850.0;
    assert y.Floor >= 600 <==> y >= 600.0;
  }

  lemma {:induction false} MeanAtLeast(total: real, n: nat, floor: real)
    requires n > 0
    ensures total / n as real >= floor <==> total >= floor * n as real
  {
    var q := total / n as real;
    SameSign(q - floor, n as real);
    assert (q - floor) * n as real == total - floor * n as real;
  }

  /** E3 passes exactly from a mean coverage of 84.95% and a lowest coverage of 59.95% on; never without tasks. */
  lemma {:induction false} CoverageBound(scores: seq<TaskScore>, a: ArmAggregate)
    requires IsAggregate(a, a.arm, scores, a.judge)
    ensures E3Pass(a) <==>
              (scores != [] && SumCoverage(scores) >= 0.8495 * |scores| as real
               && forall k :: 0 <= k < |scores| ==> scores[k].planCoverage >= 0.5995)
  {
    var m :| IsMinCoverage(scores, m) && a == AggregateWith(a.arm, scores, a.judge, m);
    RoundedFloors(m);
    if scores == [] {
      RoundedFloors(0.0);
    } else {
      RoundedFloors(SumCoverage(scores) / |scores| as real);
      MeanAtLeast(SumCoverage(scores), |scores|, 0.8495);
    }
  }

  /** The bound cannot be lowered: E1 passes with deficits arbitrarily close to 0.101. */
  lemma {:induction false} AnswerRateBoundIsSharp(eps: real)
    requires 0.0 < eps < 0.001
    ensures exists c: real, r: real :: 0.0 <= c <= r <= 1.0 && Round(c) >= Round(r) - 0.1 && r - c > 0.101 - eps
  {
    var c, r := 0.7995, 0.9005 - eps / 2.0;
    assert Milli(c) == 800 && Milli(r) == 900;
    assert Round(c) >= Round(r) - 0.1;
  }

  // ---------- the verdict on the scores ----------

  function PassCount(scores: seq<TaskScore>): nat {
    if scores == [] then 0 else PassCount(scores[1..]) + if scores[0].answerPass then 1 else 0
  }

  function GapTasks(scores: seq<TaskScore>): nat {
    if scores == [] then 0 else GapTasks(scores[1..]) + if scores[0].gapEscalated.Some? then 1 else 0
  }

  predicate IsMissed(s: TaskScore) {
    s.gapEscalated.Some? && !s.gapEscalated.value
  }

  function GapsMissed(scores: seq<TaskScore>): nat {
    if scores == [] then 0 else GapsMissed(scores[1..]) + if IsMissed(scores[0]) then 1 else 0
  }

  function OrdinaryLeaves(scores: seq<TaskScore>): nat {
    if scores == [] then 0 else OrdinaryLeaves(scores[1..]) + scores[0].nonGapLeaves
  }

  function OverEscalated(scores: seq<TaskScore>): nat {
    if scores == [] then 0 else OverEscalated(scores[1..]) + scores[0].escalatedNonGapLeaves
  }

  function FrontierSum(scores: seq<TaskScore>): nat {
    if scores == [] then 0 else FrontierSum(scores[1..]) + scores[0].frontierTokens
  }

  function BrainSum(scores: seq<TaskScore>): nat {
    if scores == [] then 0 else BrainSum(scores[1..]) + scores[0].brainTokens
  }

  function TotalSum(scores: seq<TaskScore>): nat {
    if scores == [] then 0 else TotalSum(scores[1..]) + scores[0].totalTokens
  }

  lemma {:induction false} CountsAre(scores: seq<TaskScore>)
    ensures CountWhere(scores, PASSED) == PassCount(scores)
    ensures CountWhere(scores, HAS_GAP) == GapTasks(scores)
    ensures CountWhere(scores, GAP_ESCALATED) == GapTasks(scores) - GapsMissed(scores)
    ensures CountWhere(scores, COLLAPSED) == 0 <==> forall k :: 0 <= k < |scores| ==> scores[k].collapse.NoCollapse?
  {
    if scores != [] {
      CountsAre(scores[1..]);
      var g := scores[0].gapEscalated;
      assert g == Some(true) <==> g.Some? && g.value;
      assert forall k :: 1 <= k < |scores| ==> scores[k] == scores[1..][k - 1];
    }
  }

  lemma {:induction false} SumsAre(scores: seq<TaskScore>)
    ensures SumOf(scores, NON_GAP_LEAVES) == OrdinaryLeaves(scores)
    ensures SumOf(scores, ESCALATED_NON_GAP_LEAVES) == OverEscalated(scores)
    ensures SumOf(scores, FRONTIER_SPEND) == FrontierSum(scores)
    ensures SumOf(scores, BRAIN_SPEND) == BrainSum(scores)
    ensures SumOf(scores, TOTAL_SPEND) == TotalSum(scores)
  {
    if scores != [] {
      SumsAre(scores[1..]);
    }
  }

  /** The roll-up's counts and sums. */
  lemma {:induction false} AggregateSums(scores: seq<TaskScore>, a: ArmAggregate)
    requires IsAggregate(a, a.arm, scores, a.judge)
    ensures a.n == |scores| && a.frontierTokens == FrontierSum(scores)
    ensures a.brainTokens == BrainSum(scores) && a.totalTokens == TotalSum(scores)
    ensures a.collapseCount == 0 <==> forall k :: 0 <= k < |scores| ==> scores[k].collapse.NoCollapse?
  {
    CountsAre(scores);
    SumsAre(scores);
  }

  /** The candidate's frontier spend is at most a quarter of what the reference's brain and frontier cost. */
  predicate IsEconomical(cs: seq<TaskScore>, rs: seq<TaskScore>) {
    var whole := BrainSum(rs) + FrontierSum(rs);
    whole == 0 || 4 * FrontierSum(cs) <= whole
  }

  lemma {:induction false} QuarterShare(part: nat, whole: nat)
    requires whole > 0
    ensures part as real / whole as real <= 0.25 <==> 4 * part <= whole
  {
    var q, n := part as real / whole as real, whole as real;
    assert q * n == part as real;
    SameSign(0.25 - q, n);
    assert (0.25 - q) * n == 0.25 * n - q * n;
  }

  /** E6 on the scores of both arms. */
  lemma {:induction false} EconomyBound(cs: seq<TaskScore>, rs: seq<TaskScore>, c: ArmAggregate, r: ArmAggregate)
    requires IsAggregate(c, A3, cs, c.judge) && IsAggregate(r, r.arm, rs, r.judge)
    ensures Holds(Evaluate(c, r).criteria, E6) <==> IsEconomical(cs, rs)
  {
    AggregateSums(cs, c);
    AggregateSums(rs, r);
    CriteriaHold(c, r);
    if BrainSum(rs) + FrontierSum(rs) > 0 {
      QuarterShare(FrontierSum(cs), BrainSum(rs) + FrontierSum(rs));
    }
  }

  /** Both arms were judged, the candidate at most half a point below the reference and nowhere below 3. */
  predicate IsLiked(jc: Option<JudgeScores>, jr: Option<JudgeScores>) {
    && jc.Some? && jr.Some? && 2.0 * jc.value.overall + 1.0 >= 2.0 * jr.value.overall
    && (jc.value.minDimension.Some? ==> jc.value.minDimension.value >= 3.0)
    && (jc.value.minDimension.None? ==> jc.value.overall >= 3.0)
  }

  lemma {:induction false} JudgeBound(c: ArmAggregate, r: ArmAggregate)
    ensures Holds(Evaluate(c, r).criteria, E5) <==> IsLiked(c.judge, r.judge)
  {
    CriteriaHold(c, r);
  }

  /** What the six criteria come to, on the scores of the two arms and the judge's numbers. */
  ghost predicate PassesOn(
    arm: Arm, cs: seq<TaskScore>, jc: Option<JudgeScores>, rs: seq<TaskScore>, jr: Option<JudgeScores>)
  {
    && Thousandths(PassCount(cs), |cs|) + 100 >= Thousandths(PassCount(rs), |rs|)
    && (forall k :: 0 <= k < |cs| ==> cs[k].collapse.NoCollapse?)
    && cs != [] && SumCoverage(cs) >= 0.8495 * |cs| as real
    && (forall k :: 0 <= k < |cs| ==> cs[k].planCoverage >= 0.5995)
    && 2000 * GapsMissed(cs) <= GapTasks(cs)
    && (OrdinaryLeaves(cs) == 0 || 2000 * OverEscalated(cs) < 201 * OrdinaryLeaves(cs))
    && IsLiked(jc, jr)
    && (arm.A3? ==> IsEconomical(cs, rs))
  }

  lemma {:induction false} EscalationBound(cs: seq<TaskScore>, c: ArmAggregate)
    requires IsAggregate(c, c.arm, cs, c.judge)
    ensures E4Pass(c) <==>
              (2000 * GapsMissed(cs) <= GapTasks(cs)
               && (OrdinaryLeaves(cs) == 0 || 2000 * OverEscalated(cs) < 201 * OrdinaryLeaves(cs)))
  {
    CountsAre(cs);
    SumsAre(cs);
    RecallBound(cs, c, c.arm, c.judge);
    OverEscalationBound(cs, c, c.arm, c.judge);
  }

  lemma {:induction false} RequiredAre(c: ArmAggregate, r: ArmAggregate)
    ensures Evaluate(c, r).pass <==>
              (E1Pass(c, r) && c.collapseCount == 0 && E3Pass(c) && E4Pass(c)
               && Holds(Evaluate(c, r).criteria, E5) && (c.arm.A3? ==> Holds(Evaluate(c, r).criteria, E6)))
  {
    CriteriaHold(c, r);
    assert Evaluate(c, r).pass <==> forall id :: id in Required(c.arm) ==> Holds(Criteria(c, r), id);
  }

  /** An arm passes exactly when its scores and the reference's meet all six conditions. */
  lemma {:induction false} PassesExactly(cs: seq<TaskScore>, rs: seq<TaskScore>, c: ArmAggregate, r: ArmAggregate)
    requires IsAggregate(c, c.arm, cs, c.judge) && IsAggregate(r, r.arm, rs, r.judge)
    ensures Evaluate(c, r).pass <==> PassesOn(c.arm, cs, c.judge, rs, r.judge)
  {
    RequiredAre(c, r);
    AnswerRateBound(cs, rs, c, r);
    CountsAre(cs);
    CountsAre(rs);
    AggregateSums(cs, c);
    CoverageBound(cs, c);
    EscalationBound(cs, c);
    JudgeBound(c, r);
    if c.arm.A3? {
      EconomyBound(cs, rs, c, r);
    }
  }

  /** Some candidate arm that was scored passes against A0. */
  ghost predicate GateOpen(scores: map<Arm, seq<TaskScore>>, judges: map<Arm, JudgeScores>)
    requires A0 in scores
  {
    exists arm: Arm :: arm != A0 && arm in scores && ArmPasses(arm, scores, judges)
  }

  ghost predicate ArmPasses(arm: Arm, scores: map<Arm, seq<TaskScore>>, judges: map<Arm, JudgeScores>)
    requires A0 in scores && arm in scores
  {
    PassesOn(arm, scores[arm], if arm in judges then Some(judges[arm]) else None,
             scores[A0], if A0 in judges then Some(judges[A0]) else None)
  }

  lemma {:induction false} PresentIs(arms: seq<Arm>, scores: map<Arm, seq<TaskScore>>, arm: Arm)
    ensures arm in Present(arms, scores) <==> arm in arms && arm in scores
  {
    if arms != [] {
      var init, last := arms[..|arms| - 1], arms[|arms| - 1];
      PresentIs(init, scores, arm);
      assert arms == init + [last];
    }
  }

  /** The gate is passed exactly when some scored candidate meets its conditions. */
  lemma {:induction false} GateExactly(
    scores: map<Arm, seq<TaskScore>>, judges: map<Arm, JudgeScores>, vs: seq<Verdict>)
    requires A0 in scores && AreVerdicts(vs, Present(CANDIDATES, scores), scores, judges)
    ensures AnyPass(vs) <==> GateOpen(scores, judges)
  {
    var arms := Present(CANDIDATES, scores);
    forall k | 0 <= k < |vs|
      ensures arms[k] in scores && arms[k] != A0 && (vs[k].pass <==> ArmPasses(arms[k], scores, judges))
    {
      assert IsVerdict(vs[k], arms[k], scores, judges);
      assert arms[k] in arms;
      PresentIs(CANDIDATES, scores, arms[k]);
      PassesExactly(scores[arms[k]], scores[A0], vs[k].candidate, vs[k].reference);
    }
    if GateOpen(scores, judges) {
      var arm: Arm :| arm != A0 && arm in scores && ArmPasses(arm, scores, judges);
      PresentIs(CANDIDATES, scores, arm);
      assert arm in CANDIDATES;
      var k :| 0 <= k < |arms| && arms[k] == arm;
      assert vs[k].pass;
    }
  }

  // ---------- from the loop to the verdict ----------

  /** The score of a trace; answer, coverage and escalation counts are graded elsewhere. */
  ghost predicate Scores(s: TaskScore, family: Family, t: OrchTrace) {
    && s.collapse == Scorer.CollapseOf(family, t)
    && s.frontierTokens == FrontierTokens(t) && s.totalTokens == TotalTokens(t)
    && s.brainTokens == t.brainPromptTokens + t.brainCompletionTokens
  }

  /** An arm with one collapsed run fails the gate whatever else it scored, and the judge cannot save it. */
  lemma {:induction false} CollapsedRunFailsItsArm(
    scores: seq<TaskScore>, k: nat, c: ArmAggregate, r: ArmAggregate, judge: Option<JudgeScores>)
    requires k < |scores| && !scores[k].collapse.NoCollapse? && IsAggregate(c, c.arm, scores, judge)
    ensures !Evaluate(c, r).pass && !E5Pivotal(Evaluate(c, r))
  {
    CountsAre(scores);
    CriteriaHold(c, r);
    assert E2 in Required(c.arm) - {E5};
  }

  /** So does one with a run cut short, or ending in any runtime error. */
  lemma {:induction false} CutShortRunFailsItsArm(
    scores: seq<TaskScore>, k: nat, family: Family, b: Orchestration.Brain, s: Orchestration.Setting, read: set<nat>,
    c: ArmAggregate, r: ArmAggregate, judge: Option<JudgeScores>)
    requires Orchestration.WellWired(s) && k < |scores|
    requires var t := Orchestration.RunTrace(family, b, s, read);
             Scores(scores[k], family, t) && (|t.leafCalls| < |t.plan| || t.runtimeError.Some?)
    requires IsAggregate(c, c.arm, scores, judge)
    ensures !Evaluate(c, r).pass && !E5Pivotal(Evaluate(c, r))
  {
    Orchestration.CutShortIsError(family, b, s, read);
    CollapsedRunFailsItsArm(scores, k, c, r, judge);
  }

  /** And one with a run that timed out, wrote nothing, read too little or got stuck. */
  lemma {:induction false} SpoiltRunFailsItsArm(
    scores: seq<TaskScore>, k: nat, family: Family, t: OrchTrace, c: ArmAggregate, r: ArmAggregate,
    judge: Option<JudgeScores>)
    requires k < |scores| && Scores(scores[k], family, t) && IsAggregate(c, c.arm, scores, judge)
    requires t.timedOut || Scorer.Silent(family, t) || Scorer.ReadTooLittle(family, t) || Scorer.Stuck(t)
    ensures !Evaluate(c, r).pass && !E5Pivotal(Evaluate(c, r))
  {
    Scorer.CollapseIsRight(family, t);
    CollapsedRunFailsItsArm(scores, k, c, r, judge);
  }

  // ---------- E6 in the traces' tokens ----------

  ghost predicate ScoresAll(scores: seq<TaskScore>, families: seq<Family>, traces: seq<OrchTrace>) {
    && |scores| == |families| == |traces|
    && forall k :: 0 <= k < |scores| ==> Scores(scores[k], families[k], traces[k])
  }

  /** Advisor and escalated-leaf tokens over all runs. */
  function FrontierSpent(traces: seq<OrchTrace>): nat {
    if traces == [] then 0
    else FrontierSpent(traces[1..]) + AdvisorTokens(traces[0].advisorCalls) + EscalatedTokens(traces[0].leafCalls)
  }

  function BrainSpent(traces: seq<OrchTrace>): nat {
    if traces == [] then 0
    else BrainSpent(traces[1..]) + traces[0].brainPromptTokens + traces[0].brainCompletionTokens
  }

  lemma {:induction false} SpendIsScored(scores: seq<TaskScore>, families: seq<Family>, traces: seq<OrchTrace>)
    requires ScoresAll(scores, families, traces)
    ensures FrontierSum(scores) == FrontierSpent(traces) && BrainSum(scores) == BrainSpent(traces)
  {
    if scores != [] {
      SpendIsScored(scores[1..], families[1..], traces[1..]);
    }
  }

  /** E6 holds exactly when the runs' frontier tokens are at most a quarter of A0's brain and frontier tokens. */
  lemma {:induction false} EconomyOnTraces(
    cs: seq<TaskScore>, rs: seq<TaskScore>, c: ArmAggregate, r: ArmAggregate,
    cf: seq<Family>, rf: seq<Family>, ct: seq<OrchTrace>, rt: seq<OrchTrace>)
    requires IsAggregate(c, A3, cs, c.judge) && IsAggregate(r, r.arm, rs, r.judge)
    requires ScoresAll(cs, cf, ct) && ScoresAll(rs, rf, rt)
    ensures Holds(Evaluate(c, r).criteria, E6) <==>
              (BrainSpent(rt) + FrontierSpent(rt) == 0 || 4 * FrontierSpent(ct) <= BrainSpent(rt) + FrontierSpent(rt))
  {
    EconomyBound(cs, rs, c, r);
    SpendIsScored(cs, cf, ct);
    SpendIsScored(rs, rf, rt);
  }
}
