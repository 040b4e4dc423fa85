/**
 Deterministic scoring of a trace: collapse classification (`classifyCollapse`, `longestCharRun`,
 `hasRepeatedActionLoop`) and the greedy stage checklist (`stepCovers`, `stageChecklistCovered`).

 The checklist's greedy leaf consumption is compared with the existence of an injective assignment of
 stages to leaves: sound and monotone for every checklist, and for the D3 stages complete exactly outside
 one family of leaf lists.
 */
module Scorer {
  import opened Options
  import opened Matching
  import opened Trace
  import opened Whitespace

  // ---------- collapse classification ----------

  datatype Collapse = NoCollapse | Timeout | RunError | Blanking | UnderRead | DegenerateLoop

  const DEGENERATE_CHAR_RUN := 400

  /** `n` equal non-blank characters in a row from position `i`. */
  predicate IsRun(s: string, i: int, n: int) {
    0 <= i && 0 <= n && i + n <= |s| && forall k :: i <= k < i + n ==> s[k] == s[i] && !IsSpace(s[k])
  }

  method LongestCharRun(s: string) returns (max: nat)
    ensures exists i :: IsRun(s, i, max)
    ensures forall i, n :: IsRun(s, i, n) ==> n <= max
  {
    max := 0;
    var cur := 0;
    var prev: Option<char> := None;
    ghost var at := 0;
    assert IsRun(s, 0, 0);
    for k := 0 to |s|
      invariant 0 <= cur <= k && cur <= max
      invariant prev == if cur == 0 then None else Some(s[k - 1])
      invariant IsRun(s, k - cur, cur)
      invariant IsRun(s, at, max)
      invariant forall i, n :: IsRun(s, i, n) && i + n == k ==> n <= cur
      invariant forall i, n :: IsRun(s, i, n) && i + n <= k ==> n <= max
    {
      RunsEndingAt(s, k, cur);
      if IsSpace(s[k]) {
        cur, prev := 0, None;
      } else {
        if prev == Some(s[k]) {
          cur := cur + 1;
        } else {
          cur := 1;
        }
        prev := Some(s[k]);
        if cur > max {
          max := cur;
          at := k + 1 - cur;
        }
      }
    }
  }

  /** A run that ends just after `k` is the run that ends at `k`, extended. */
  lemma {:induction false} RunsEndingAt(s: string, k: nat, cur: nat)
    requires k < |s| && forall i, n :: IsRun(s, i, n) && i + n == k ==> n <= cur
    ensures forall i, n :: IsRun(s, i, n) && i + n == k + 1 && n >= 2 ==>
              n - 1 <= cur && s[k - 1] == s[k] && !IsSpace(s[k])
    ensures forall i, n :: IsRun(s, i, n) && i + n == k + 1 && n >= 1 ==> !IsSpace(s[k])
  {
    forall i, n | IsRun(s, i, n) && i + n == k + 1 && n >= 2
      ensures n - 1 <= cur && s[k - 1] == s[k] && !IsSpace(s[k])
    {
      assert IsRun(s, i, n - 1);
    }
  }

  predicate SameAction(a: LeafCall, b: LeafCall) {
    a.subtask == b.subtask && a.output == b.output
  }

  /** Three equal actions in a row. */
  predicate HasLoop(calls: seq<LeafCall>) {
    exists k :: 2 <= k < |calls| && SameAction(calls[k - 2], calls[k - 1]) && SameAction(calls[k - 1], calls[k])
  }

  method HasRepeatedActionLoop(calls: seq<LeafCall>) returns (loops: bool)
    ensures loops == HasLoop(calls)
  {
    var streak, i := 1, 1;
    while i < |calls|
      invariant 1 <= i
      invariant i <= |calls| || i == 1
      invariant streak == if 2 <= i && SameAction(calls[i - 2], calls[i - 1]) then 2 else 1
      invariant forall k :: 2 <= k < i
                  ==> !(SameAction(calls[k - 2], calls[k - 1]) && SameAction(calls[k - 1], calls[k]))
    {
      if SameAction(calls[i - 1], calls[i]) {
        streak := streak + 1;
        if streak >= 3 {
          return true;
        }
      } else {
        streak := 1;
      }
      i := i + 1;
    }
    return false;
  }

  ghost predicate Degenerate(t: OrchTrace) {
    HasLoop(t.leafCalls) || exists i :: IsRun(t.finalAnswer, i, DEGENERATE_CHAR_RUN)
  }

  predicate Errs(t: OrchTrace) {
    t.runtimeError.Some? && t.runtimeError.value != ""
  }

  predicate BlankOutput(family: Family, t: OrchTrace) {
    Trim(t.finalAnswer) == "" || (family.D1? && (t.reportMarkdown.None? || Trim(t.reportMarkdown.value) == ""))
  }

  function ReadCount(t: OrchTrace): nat {
    if t.sourcesRead.Some? then t.sourcesRead.value else 0
  }

  /** Fewer than 60% of a known, non-empty corpus was read. */
  predicate ReadsTooFew(family: Family, t: OrchTrace) {
    family.D1? && t.corpusSize.Some? && t.corpusSize.value > 0 && 10 * ReadCount(t) < 6 * t.corpusSize.value
  }

  /** Precedence: timeout, error, blanking, under-read, degenerate loop. */
  ghost function CollapseOf(family: Family, t: OrchTrace): Collapse {
    if t.timedOut then Timeout
    else if Errs(t) then RunError
    else if BlankOutput(family, t) then Blanking
    else if ReadsTooFew(family, t) then UnderRead
    else if Degenerate(t) then DegenerateLoop
    else NoCollapse
  }

  /** The answer, or the report a D1 task owes, has nothing but white space. */
  predicate Silent(family: Family, t: OrchTrace) {
    AllBlank(t.finalAnswer) || (family.D1? && (t.reportMarkdown.None? || AllBlank(t.reportMarkdown.value)))
  }

  /** Of a known, non-empty D1 corpus fewer than three sources in five were read. */
  predicate ReadTooLittle(family: Family, t: OrchTrace) {
    && family.D1? && t.corpusSize.Some? && t.corpusSize.value > 0
    && 5 * (if t.sourcesRead.Some? then t.sourcesRead.value else 0) < 3 * t.corpusSize.value
  }

  /** Three consecutive leaf calls with the same subtask and output, or 400 times the same character. */
  ghost predicate Stuck(t: OrchTrace) {
    (exists k: nat :: ThreeAlike(t.leafCalls, k)) || (exists i: nat :: LongRunAt(t.finalAnswer, i))
  }

  predicate ThreeAlike(calls: seq<LeafCall>, k: nat) {
    && k + 2 < |calls|
    && calls[k].subtask == calls[k + 1].subtask == calls[k + 2].subtask
    && calls[k].output == calls[k + 1].output == calls[k + 2].output
  }

  predicate LongRunAt(s: string, i: nat) {
    i + 400 <= |s| && !IsSpace(s[i]) && forall k :: i <= k < i + 400 ==> s[k] == s[i]
  }

  /** Which flag a trace gets: each exactly on its own condition and no earlier one. */
  ghost predicate RightFlag(c: Collapse, family: Family, t: OrchTrace) {
    var errs := t.runtimeError.Some? && t.runtimeError.value != "";
    var ok := !t.timedOut && !errs;
    && (c == Timeout <==> t.timedOut)
    && (c == RunError <==> !t.timedOut && errs)
    && (c == Blanking <==> ok && Silent(family, t))
    && (c == UnderRead <==> ok && !Silent(family, t) && ReadTooLittle(family, t))
    && (c == DegenerateLoop <==> ok && !Silent(family, t) && !ReadTooLittle(family, t) && Stuck(t))
    && (c == NoCollapse <==> ok && !Silent(family, t) && !ReadTooLittle(family, t) && !Stuck(t))
  }

  lemma {:induction false} StuckIsDegenerate(t: OrchTrace)
    ensures Degenerate(t) <==> Stuck(t)
  {
    var calls, s := t.leafCalls, t.finalAnswer;
    if k :| 2 <= k < |calls| && SameAction(calls[k - 2], calls[k - 1]) && SameAction(calls[k - 1], calls[k]) {
      assert ThreeAlike(calls, k - 2);
    }
    if k: nat :| ThreeAlike(calls, k) {
      var m := k + 2;
      assert SameAction(calls[m - 2], calls[m - 1]) && SameAction(calls[m - 1], calls[m]);
    }
    if i :| IsRun(s, i, DEGENERATE_CHAR_RUN) {
      assert LongRunAt(s, i);
    }
    if i: nat :| LongRunAt(s, i) {
      assert IsRun(s, i, DEGENERATE_CHAR_RUN);
    }
  }

  lemma {:induction false} CollapseIsRight(family: Family, t: OrchTrace)
    ensures RightFlag(CollapseOf(family, t), family, t)
  {
    TrimmedAway(t.finalAnswer);
    if t.reportMarkdown.Some? {
      TrimmedAway(t.reportMarkdown.value);
    }
    StuckIsDegenerate(t);
  }

  method ClassifyCollapse(family: Family, t: OrchTrace) returns (c: Collapse)
    ensures c == CollapseOf(family, t) && RightFlag(c, family, t)
  {
    CollapseIsRight(family, t);
    if t.timedOut {
      return Timeout;
    }
    if Errs(t) {
      return RunError;
    }
    if BlankOutput(family, t) {
      return Blanking;
    }
    if family.D1? && t.corpusSize.Some? && t.corpusSize.value > 0 {
      var share := ReadCount(t) as real / t.corpusSize.value as real;
      ShareBelow(ReadCount(t), t.corpusSize.value);
      if share < 0.6 {
        return UnderRead;
      }
    }
    var loops := HasRepeatedActionLoop(t.leafCalls);
    var run := LongestCharRun(t.finalAnswer);
    LongRunHasShorter(t.finalAnswer, run);
    if loops || run >= DEGENERATE_CHAR_RUN {
      return DegenerateLoop;
    }
    return NoCollapse;
  }

  lemma {:induction false} ShareBelow(read: nat, size: nat)
    requires size > 0
    ensures read as real / size as real < 0.6 <==> 10 * read < 6 * size
  {
    var q, n := read as real / size as real, size as real;
    assert q * n == read as real;
    SignOfProduct(q - 0.6, 10.0 * n);
    assert (q - 0.6) * (10.0 * n) == 10.0 * (q * n) - 6.0 * n;
  }

  lemma {:induction false} SignOfProduct(d: real, n: real)
    requires n > 0.0
    ensures d < 0.0 <==> d * n < 0.0
  {
  }

  lemma {:induction false} LongRunHasShorter(s: string, max: nat)
    requires exists i :: IsRun(s, i, max)
    requires forall i, n :: IsRun(s, i, n) ==> n <= max
    ensures max >= DEGENERATE_CHAR_RUN <==> exists i :: IsRun(s, i, DEGENERATE_CHAR_RUN)
  {
    var i :| IsRun(s, i, max);
    if max >= DEGENERATE_CHAR_RUN {
      assert IsRun(s, i, DEGENERATE_CHAR_RUN);
    }
  }

  // ---------- coverage ----------

  /** Enough distinctive tokens are shared: one for a short requirement, two otherwise. */
  predicate StepCovers(lex: Lexicon, required: string, declared: string) {
    var r, d := lex.tokens(required), lex.tokens(declared);
    r != {} && |r * d| >= if |r| <= 2 then 1 else 2
  }

  /** A requirement is covered by one shared token, and one of three or more tokens by two different ones. */
  lemma {:induction false} StepCoversExact(lex: Lexicon, required: string, declared: string)
    ensures var r, d := lex.tokens(required), lex.tokens(declared);
            StepCovers(lex, required, declared) <==>
              ((exists v :: v in r && v in d)
               && (|r| >= 3 ==> exists v, w :: v in r && v in d && w in r && w in d && v != w))
  {
    var r, d := lex.tokens(required), lex.tokens(declared);
    var both := r * d;
    assert forall x :: x in both <==> x in r && x in d;
    if both != {} {
      var v :| v in both;
      assert v in r && v in d;
      var others := both - {v};
      assert |both| == |others| + 1;
      if others != {} {
        var w :| w in others;
        assert w in r && w in d && v != w;
      } else {
        assert forall x :: x in both ==> x == v;
      }
    }
    if exists v, w :: v in r && v in d && w in r && w in d && v != w {
      var v, w :| v in r && v in d && w in r && w in d && v != w;
      assert {v, w} <= both;
      TwoAtMost(both, v, w);
    }
  }

  lemma {:induction false} TwoAtMost(s: set<string>, v: string, w: string)
    requires v in s && w in s && v != w
    ensures |s| >= 2
  {
    assert |s| == |s - {v}| + 1 && w in s - {v};
  }

  function LeafText(l: LeafCall): string {
    l.subtask + " " + l.taskType
  }

  /** A declared plan step or an executed leaf keyword-matches the stage. */
  predicate KeywordCovered(lex: Lexicon, stage: string, plan: seq<string>, leaves: seq<LeafCall>) {
    || (exists i :: 0 <= i < |plan| && StepCovers(lex, stage, plan[i]))
    || (exists i :: 0 <= i < |leaves| && StepCovers(lex, stage, LeafText(leaves[i])))
  }

  predicate Realizes(lex: Lexicon, stage: string, leaf: LeafCall) {
    lex.norm(leaf.taskType) in lex.types(lex.norm(stage))
  }

  /** The first unconsumed leaf from `from` on that realises the stage. */
  function FirstFree(
    lex: Lexicon, stage: string, leaves: seq<LeafCall>, consumed: set<nat>, from: nat): (r: Option<nat>)
    ensures r.Some? ==> from <= r.value < |leaves| && r.value !in consumed && Realizes(lex, stage, leaves[r.value])
    ensures forall k :: from <= k < |leaves| && k !in consumed && Realizes(lex, stage, leaves[k])
              ==> r.Some? && r.value <= k
    decreases |leaves| - from
  {
    if from >= |leaves| then None
    else if from !in consumed && Realizes(lex, stage, leaves[from]) then Some(from)
    else FirstFree(lex, stage, leaves, consumed, from + 1)
  }

  /** The checklist from `stages` on, with some leaves already consumed. */
  predicate Greedy(lex: Lexicon, stages: seq<string>, plan: seq<string>, leaves: seq<LeafCall>, consumed: set<nat>) {
    if stages == [] then true
    else if KeywordCovered(lex, stages[0], plan, leaves) then Greedy(lex, stages[1..], plan, leaves, consumed)
    else
      var k := FirstFree(lex, stages[0], leaves, consumed, 0);
      k.Some? && Greedy(lex, stages[1..], plan, leaves, consumed + {k.value})
  }

  function Marked(consumed: seq<bool>): set<nat> {
    set k | 0 <= k < |consumed| && consumed[k]
  }

  lemma {:induction false} MarkOne(consumed: seq<bool>, idx: nat)
    requires idx < |consumed|
    ensures Marked(consumed[idx := true]) == Marked(consumed) + {idx}
  {
  }

  /** The search for an unconsumed realising leaf. */
  method FindFree(lex: Lexicon, stage: string, leaves: seq<LeafCall>, consumed: seq<bool>) returns (idx: Option<nat>)
    requires |consumed| == |leaves|
    ensures idx == FirstFree(lex, stage, leaves, Marked(consumed), 0)
  {
    for i := 0 to |leaves|
      invariant FirstFree(lex, stage, leaves, Marked(consumed), 0) == FirstFree(lex, stage, leaves, Marked(consumed), i)
    {
      if !consumed[i] && Realizes(lex, stage, leaves[i]) {
        return Some(i);
      }
    }
    return None;
  }

  method StageChecklistCovered(lex: Lexicon, stages: seq<string>, plan: seq<string>, leaves: seq<LeafCall>)
    returns (ok: bool)
    ensures ok == Greedy(lex, stages, plan, leaves, {})
  {
    var consumed := new bool[|leaves|](_ => false);
    assert Marked(consumed[..]) == {};
    for s := 0 to |stages|
      invariant Greedy(lex, stages[s..], plan, leaves, Marked(consumed[..])) == Greedy(lex, stages, plan, leaves, {})
    {
      assert stages[s..][0] == stages[s] && stages[s..][1..] == stages[s + 1..];
      if !KeywordCovered(lex, stages[s], plan, leaves) {
        var idx := FindFree(lex, stages[s], leaves, consumed[..]);
        if idx.None? {
          return false;
        }
        MarkOne(consumed[..], idx.value);
        ghost var before := consumed[..];
        consumed[idx.value] := true;
        assert consumed[..] == before[idx.value := true];
      }
    }
    return true;
  }

  // ---------- soundness: a true checklist has an injective assignment ----------

  /** Every stage not covered by keyword is assigned a realising leaf of its own. */
  ghost predicate IsAssignment(
    lex: Lexicon, stages: seq<string>, plan: seq<string>, leaves: seq<LeafCall>, asg: seq<Option<nat>>)
  {
    && |asg| == |stages|
    && (forall i :: 0 <= i < |asg| ==> AssignedAt(lex, stages[i], plan, leaves, asg[i]))
    && (forall i, j :: 0 <= i < j < |asg| && asg[i].Some? ==> asg[i] != asg[j])
  }

  predicate AssignedAt(lex: Lexicon, stage: string, plan: seq<string>, leaves: seq<LeafCall>, a: Option<nat>) {
    if a.None? then KeywordCovered(lex, stage, plan, leaves)
    else a.value < |leaves| && Realizes(lex, stage, leaves[a.value])
  }

  ghost predicate Assignable(lex: Lexicon, stages: seq<string>, plan: seq<string>, leaves: seq<LeafCall>) {
    exists asg :: IsAssignment(lex, stages, plan, leaves, asg)
  }

  lemma {:induction false} GreedySound(
    lex: Lexicon, stages: seq<string>, plan: seq<string>, leaves: seq<LeafCall>, consumed: set<nat>)
    returns (asg: seq<Option<nat>>)
    requires Greedy(lex, stages, plan, leaves, consumed)
    ensures IsAssignment(lex, stages, plan, leaves, asg)
    ensures forall i :: 0 <= i < |asg| && asg[i].Some? ==> asg[i].value !in consumed
    decreases |stages|
  {
    if stages == [] {
      asg := [];
    } else if KeywordCovered(lex, stages[0], plan, leaves) {
      var rest := GreedySound(lex, stages[1..], plan, leaves, consumed);
      asg := [None] + rest;
    } else {
      var k := FirstFree(lex, stages[0], leaves, consumed, 0);
      var rest := GreedySound(lex, stages[1..], plan, leaves, consumed + {k.value});
      asg := [k] + rest;
    }
  }

  lemma {:induction false} CheckedIsAssignable(
    lex: Lexicon, stages: seq<string>, plan: seq<string>, leaves: seq<LeafCall>)
    requires Greedy(lex, stages, plan, leaves, {})
    ensures Assignable(lex, stages, plan, leaves)
  {
    var asg := GreedySound(lex, stages, plan, leaves, {});
  }

  // ---------- monotonicity ----------

  lemma {:induction false} KeywordMonotone(
    lex: Lexicon, stage: string, plan: seq<string>, leaves: seq<LeafCall>, plan': seq<string>, leaves': seq<LeafCall>)
    requires plan <= plan' && leaves <= leaves' && KeywordCovered(lex, stage, plan, leaves)
    ensures KeywordCovered(lex, stage, plan', leaves')
  {
    if i :| 0 <= i < |plan| && StepCovers(lex, stage, plan[i]) {
      assert plan'[i] == plan[i];
    } else {
      var i :| 0 <= i < |leaves| && StepCovers(lex, stage, LeafText(leaves[i]));
      assert leaves'[i] == leaves[i];
    }
  }

  /** More plan steps, more leaves and fewer consumed leaves never turn a pass into a fail. */
  lemma {:induction false} GreedyMonotone(
    lex: Lexicon, stages: seq<string>,
    plan: seq<string>, leaves: seq<LeafCall>, consumed: set<nat>,
    plan': seq<string>, leaves': seq<LeafCall>, consumed': set<nat>)
    requires plan <= plan' && leaves <= leaves' && consumed' <= consumed
    requires Greedy(lex, stages, plan, leaves, consumed)
    ensures Greedy(lex, stages, plan', leaves', consumed')
    decreases |stages|
  {
    if stages != [] {
      if KeywordCovered(lex, stages[0], plan, leaves) {
        KeywordMonotone(lex, stages[0], plan, leaves, plan', leaves');
        GreedyMonotone(lex, stages[1..], plan, leaves, consumed, plan', leaves', consumed');
      } else {
        var k := FirstFree(lex, stages[0], leaves, consumed, 0).value;
        assert leaves'[k] == leaves[k];
        if KeywordCovered(lex, stages[0], plan', leaves') {
          GreedyMonotone(lex, stages[1..], plan, leaves, consumed + {k}, plan', leaves', consumed');
        } else {
          var k' := FirstFree(lex, stages[0], leaves', consumed', 0).value;
          assert k' < k ==> leaves'[k'] == leaves[k'] && k' in consumed;
          GreedyMonotone(lex, stages[1..], plan, leaves, consumed + {k}, plan', leaves', consumed' + {k'});
        }
      }
    }
  }

  // ---------- the D3 stages ----------

  const D3_STAGES: seq<string> := ["extract", "aggregate", "classify", "summarize"]

  /** A leaf whose type is a stage name covers that stage by keyword. */
  lemma {:induction false} TypeNamesStage(lex: Lexicon, stage: string, plan: seq<string>, leaves: seq<LeafCall>, k: nat)
    requires Lawful(lex) && stage in STAGE_NAMES && k < |leaves| && lex.norm(leaves[k].taskType) == stage
    ensures KeywordCovered(lex, stage, plan, leaves)
  {
    assert LawfulFor(lex, stage);
    var d := lex.tokens(LeafText(leaves[k]));
    assert stage in d;
    assert {stage} * d == {stage};
    assert StepCovers(lex, stage, LeafText(leaves[k]));
  }

  /** What realises each D3 stage when no keyword covers it. */
  lemma {:induction false} UncoveredStage(lex: Lexicon, stage: string, plan: seq<string>, leaves: seq<LeafCall>, k: nat)
    requires Lawful(lex) && stage in STAGE_NAMES && k < |leaves|
    requires !KeywordCovered(lex, stage, plan, leaves) && Realizes(lex, stage, leaves[k])
    ensures stage != "classify"
    ensures var t := lex.norm(leaves[k].taskType);
            && (stage == "extract" ==> t == "data-transform" || t == "qa-factual")
            && (stage == "aggregate" ==> t in {"data-transform", "reason-math", "sql"})
            && (stage == "summarize" ==> t == "rewrite")
  {
    assert LawfulFor(lex, stage);
    if lex.norm(leaves[k].taskType) == stage {
      TypeNamesStage(lex, stage, plan, leaves, k);
    }
  }

  /** No leaf realises `summarize` together with `extract` or `aggregate`. */
  lemma {:induction false} SummarizersAreApart(lex: Lexicon, leaves: seq<LeafCall>, k: nat)
    requires Lawful(lex) && k < |leaves| && Realizes(lex, "summarize", leaves[k])
    ensures !Realizes(lex, "extract", leaves[k]) && !Realizes(lex, "aggregate", leaves[k])
  {
    assert LawfulFor(lex, "summarize") && LawfulFor(lex, "extract") && LawfulFor(lex, "aggregate");
    var t := lex.norm(leaves[k].taskType);
    assert t == "summarize" || t == "rewrite";
    assert |t| == 9 || (|t| == 7 && t[0] == 'r');
  }

  /**
   The one way the greedy order loses: the first leaf it spends on stage `e` is the only leaf that could
   realise stage `a`.
   */
  predicate SpendsOnlyRealizer(lex: Lexicon, e: string, a: string, plan: seq<string>, leaves: seq<LeafCall>) {
    var spent := FirstFree(lex, e, leaves, {}, 0);
    && !KeywordCovered(lex, e, plan, leaves) && !KeywordCovered(lex, a, plan, leaves)
    && spent.Some? && Realizes(lex, a, leaves[spent.value])
    && forall k :: 0 <= k < |leaves| && Realizes(lex, a, leaves[k]) ==> k == spent.value
  }

  /** The leaves consumed for a stage, given those consumed before. */
  function Consume(
    lex: Lexicon, stage: string, plan: seq<string>, leaves: seq<LeafCall>, consumed: set<nat>): Option<set<nat>>
  {
    if KeywordCovered(lex, stage, plan, leaves) then Some(consumed)
    else
      var k := FirstFree(lex, stage, leaves, consumed, 0);
      if k.None? then None else Some(consumed + {k.value})
  }

  lemma {:induction false} GreedyCons(
    lex: Lexicon, stage: string, rest: seq<string>, plan: seq<string>, leaves: seq<LeafCall>, consumed: set<nat>)
    ensures Greedy(lex, [stage] + rest, plan, leaves, consumed)
            <==> var c := Consume(lex, stage, plan, leaves, consumed);
                 c.Some? && Greedy(lex, rest, plan, leaves, c.value)
  {
    assert ([stage] + rest)[1..] == rest;
  }

  lemma {:induction false} FirstTwo(
    lex: Lexicon, e: string, a: string, plan: seq<string>, leaves: seq<LeafCall>, x: Option<nat>, y: Option<nat>)
    requires AssignedAt(lex, e, plan, leaves, x) && AssignedAt(lex, a, plan, leaves, y) && (x.Some? ==> x != y)
    requires !SpendsOnlyRealizer(lex, e, a, plan, leaves)
    ensures var c1 := Consume(lex, e, plan, leaves, {});
            c1.Some? && var c2 := Consume(lex, a, plan, leaves, c1.value);
            c2.Some? && forall k :: k in c2.value ==>
              k < |leaves| && (Realizes(lex, e, leaves[k]) || Realizes(lex, a, leaves[k]))
  {
    var c1 := Consume(lex, e, plan, leaves, {});
    assert c1.Some?;
    if !KeywordCovered(lex, a, plan, leaves) {
      assert exists k :: 0 <= k < |leaves| && k !in c1.value && Realizes(lex, a, leaves[k]);
    }
  }

  /** In an assignable four-stage checklist whose later stages do not compete, only the first two can clash. */
  lemma {:induction false} FourStages(
    lex: Lexicon, e: string, a: string, c: string, s: string, plan: seq<string>, leaves: seq<LeafCall>,
    asg: seq<Option<nat>>)
    requires IsAssignment(lex, [e, a, c, s], plan, leaves, asg)
    requires KeywordCovered(lex, c, plan, leaves) && !SpendsOnlyRealizer(lex, e, a, plan, leaves)
    requires forall k :: 0 <= k < |leaves| && Realizes(lex, s, leaves[k])
               ==> !Realizes(lex, e, leaves[k]) && !Realizes(lex, a, leaves[k])
    ensures Greedy(lex, [e] + ([a] + ([c] + ([s] + []))), plan, leaves, {})
  {
    var stages := [e, a, c, s];
    assert AssignedAt(lex, stages[0], plan, leaves, asg[0]) && AssignedAt(lex, stages[1], plan, leaves, asg[1]);
    assert AssignedAt(lex, stages[3], plan, leaves, asg[3]);
    FirstTwo(lex, e, a, plan, leaves, asg[0], asg[1]);
    var c1 := Consume(lex, e, plan, leaves, {}).value;
    var c2 := Consume(lex, a, plan, leaves, c1).value;
    assert Consume(lex, s, plan, leaves, c2).Some?;
    GreedyCons(lex, e, [a] + ([c] + ([s] + [])), plan, leaves, {});
    GreedyCons(lex, a, [c] + ([s] + []), plan, leaves, c1);
    GreedyCons(lex, c, [s] + [], plan, leaves, c2);
    GreedyCons(lex, s, [], plan, leaves, c2);
  }

  /** A checklist that passes did not spend its only realiser. */
  lemma {:induction false} PassedSpendsOther(
    lex: Lexicon, e: string, a: string, rest: seq<string>, plan: seq<string>, leaves: seq<LeafCall>)
    requires Greedy(lex, [e] + ([a] + rest), plan, leaves, {})
    ensures !SpendsOnlyRealizer(lex, e, a, plan, leaves)
  {
    GreedyCons(lex, e, [a] + rest, plan, leaves, {});
    GreedyCons(lex, a, rest, plan, leaves, Consume(lex, e, plan, leaves, {}).value);
  }

  lemma {:induction false} D3Spelled()
    ensures D3_STAGES == ["extract"] + (["aggregate"] + (["classify"] + (["summarize"] + [])))
    ensures |D3_STAGES| == 4 && D3_STAGES[0] == "extract" && D3_STAGES[1] == "aggregate"
    ensures D3_STAGES[2] == "classify" && D3_STAGES[3] == "summarize"
  {
  }

  /** For the D3 stages the checklist passes exactly when an assignment exists and its order does not lose it. */
  lemma {:induction false} D3Exact(lex: Lexicon, plan: seq<string>, leaves: seq<LeafCall>)
    requires Lawful(lex)
    ensures Greedy(lex, D3_STAGES, plan, leaves, {}) <==>
              (Assignable(lex, D3_STAGES, plan, leaves)
               && !SpendsOnlyRealizer(lex, "extract", "aggregate", plan, leaves))
  {
    D3Spelled();
    if Greedy(lex, D3_STAGES, plan, leaves, {}) {
      CheckedIsAssignable(lex, D3_STAGES, plan, leaves);
      PassedSpendsOther(lex, "extract", "aggregate", ["classify"] + (["summarize"] + []), plan, leaves);
    }
    if Assignable(lex, D3_STAGES, plan, leaves) && !SpendsOnlyRealizer(lex, "extract", "aggregate", plan, leaves) {
      var asg: seq<Option<nat>> :| IsAssignment(lex, D3_STAGES, plan, leaves, asg);
      assert AssignedAt(lex, D3_STAGES[2], plan, leaves, asg[2]);
      if !KeywordCovered(lex, "classify", plan, leaves) {
        UncoveredStage(lex, "classify", plan, leaves, asg[2].value);
      }
      forall k | 0 <= k < |leaves| && Realizes(lex, "summarize", leaves[k])
        ensures !Realizes(lex, "extract", leaves[k]) && !Realizes(lex, "aggregate", leaves[k])
      {
        SummarizersAreApart(lex, leaves, k);
      }
      FourStages(lex, "extract", "aggregate", "classify", "summarize", plan, leaves, asg);
    }
  }

  /** Without a factual-question leaf the checklist is complete. */
  lemma {:induction false} D3CompleteWithoutQa(lex: Lexicon, plan: seq<string>, leaves: seq<LeafCall>)
    requires Lawful(lex)
    requires forall k :: 0 <= k < |leaves| ==> lex.norm(leaves[k].taskType) != "qa-factual"
    ensures Greedy(lex, D3_STAGES, plan, leaves, {}) <==> Assignable(lex, D3_STAGES, plan, leaves)
  {
    D3Exact(lex, plan, leaves);
    if asg: seq<Option<nat>> :| IsAssignment(lex, D3_STAGES, plan, leaves, asg) {
      OtherRealizer(lex, plan, leaves, asg);
    }
  }

  /** With a data transform for `extract`, the assigned leaves are two realisers of `aggregate`. */
  lemma {:induction false} OtherRealizer(lex: Lexicon, plan: seq<string>, leaves: seq<LeafCall>, asg: seq<Option<nat>>)
    requires Lawful(lex) && IsAssignment(lex, D3_STAGES, plan, leaves, asg)
    requires forall k :: 0 <= k < |leaves| ==> lex.norm(leaves[k].taskType) != "qa-factual"
    ensures !SpendsOnlyRealizer(lex, "extract", "aggregate", plan, leaves)
  {
    D3Spelled();
    assert AssignedAt(lex, D3_STAGES[0], plan, leaves, asg[0]) && AssignedAt(lex, D3_STAGES[1], plan, leaves, asg[1]);
    if !KeywordCovered(lex, "extract", plan, leaves) && !KeywordCovered(lex, "aggregate", plan, leaves) {
      UncoveredStage(lex, "extract", plan, leaves, asg[0].value);
      assert LawfulFor(lex, "aggregate");
      assert asg[0] != asg[1];
    }
  }

  /** Leaves [data-transform, qa-factual]: an assignment exists, and the greedy order still fails. */
  lemma {:induction false} GreedyOrderCanLose(lex: Lexicon, plan: seq<string>, leaves: seq<LeafCall>)
    requires Lawful(lex) && |leaves| == 2
    requires lex.norm(leaves[0].taskType) == "data-transform" && lex.norm(leaves[1].taskType) == "qa-factual"
    requires !KeywordCovered(lex, "extract", plan, leaves) && !KeywordCovered(lex, "aggregate", plan, leaves)
    requires KeywordCovered(lex, "classify", plan, leaves) && KeywordCovered(lex, "summarize", plan, leaves)
    ensures Assignable(lex, D3_STAGES, plan, leaves) && !Greedy(lex, D3_STAGES, plan, leaves, {})
  {
    TransformAndQuestion(lex, leaves);
    TwoLeavesClash(lex, "extract", "aggregate", "classify", "summarize", plan, leaves);
    D3Exact(lex, plan, leaves);
  }

  lemma {:induction false} TwoLeavesClash(
    lex: Lexicon, e: string, a: string, c: string, s: string, plan: seq<string>, leaves: seq<LeafCall>)
    requires |leaves| == 2 && Realizes(lex, e, leaves[0]) && Realizes(lex, a, leaves[0])
    requires Realizes(lex, e, leaves[1]) && !Realizes(lex, a, leaves[1])
    requires !KeywordCovered(lex, e, plan, leaves) && !KeywordCovered(lex, a, plan, leaves)
    requires KeywordCovered(lex, c, plan, leaves) && KeywordCovered(lex, s, plan, leaves)
    ensures Assignable(lex, [e, a, c, s], plan, leaves) && SpendsOnlyRealizer(lex, e, a, plan, leaves)
  {
    FourAssigned(lex, e, a, c, s, plan, leaves, Some(1), Some(0), None, None);
    forall k | 0 <= k < |leaves| && Realizes(lex, a, leaves[k]) ensures k == 0 {
      assert k != 1;
    }
    SpendsAt(lex, e, a, plan, leaves, 0);
  }

  lemma {:induction false} SpendsAt(
    lex: Lexicon, e: string, a: string, plan: seq<string>, leaves: seq<LeafCall>, x: nat)
    requires x < |leaves| && FirstFree(lex, e, leaves, {}, 0) == Some(x) && Realizes(lex, a, leaves[x])
    requires forall k :: 0 <= k < |leaves| && Realizes(lex, a, leaves[k]) ==> k == x
    requires !KeywordCovered(lex, e, plan, leaves) && !KeywordCovered(lex, a, plan, leaves)
    ensures SpendsOnlyRealizer(lex, e, a, plan, leaves)
  {
  }

  lemma {:induction false} FourAssigned(
    lex: Lexicon, e: string, a: string, c: string, s: string, plan: seq<string>, leaves: seq<LeafCall>,
    x: Option<nat>, y: Option<nat>, z: Option<nat>, w: Option<nat>)
    requires AssignedAt(lex, e, plan, leaves, x) && AssignedAt(lex, a, plan, leaves, y)
    requires AssignedAt(lex, c, plan, leaves, z) && AssignedAt(lex, s, plan, leaves, w)
    requires x.Some? && y.Some? && z.None? && w.None? && x != y
    ensures Assignable(lex, [e, a, c, s], plan, leaves)
  {
    var stages, asg := [e, a, c, s], [x, y, z, w];
    forall i | 0 <= i < 4 ensures AssignedAt(lex, stages[i], plan, leaves, asg[i]) {
      assert i == 0 || i == 1 || i == 2 || i == 3;
    }
    forall i, j | 0 <= i < j < 4 && asg[i].Some? ensures asg[i] != asg[j] {
      assert j == 1 || j == 2 || j == 3;
    }
    assert IsAssignment(lex, stages, plan, leaves, asg);
  }

  lemma {:induction false} TransformAndQuestion(lex: Lexicon, leaves: seq<LeafCall>)
    requires Lawful(lex) && |leaves| == 2
    requires lex.norm(leaves[0].taskType) == "data-transform" && lex.norm(leaves[1].taskType) == "qa-factual"
    ensures Realizes(lex, "extract", leaves[0]) && Realizes(lex, "aggregate", leaves[0])
    ensures Realizes(lex, "extract", leaves[1]) && !Realizes(lex, "aggregate", leaves[1])
  {
    assert LawfulFor(lex, "extract") && LawfulFor(lex, "aggregate");
    var t := lex.norm(leaves[1].taskType);
    assert |t| == 10;
  }

  // ---------- the losing order on real input ----------

  /** A stage whose name is its own only token is covered by a text exactly when the text has that token. */
  lemma {:induction false} CoveredByName(lex: Lexicon, stage: string, text: string)
    requires LawfulFor(lex, stage)
    ensures StepCovers(lex, stage, text) <==> stage in lex.tokens(text)
  {
    var d := lex.tokens(text);
    assert {stage} * d == if stage in d then {stage} else {};
  }

  lemma {:induction false} NotNamed(lex: Lexicon, stage: string, plan: seq<string>, leaves: seq<LeafCall>)
    requires LawfulFor(lex, stage)
    requires forall i :: 0 <= i < |plan| ==> stage !in lex.tokens(plan[i])
    requires forall i :: 0 <= i < |leaves| ==> stage !in lex.tokens(LeafText(leaves[i]))
    ensures !KeywordCovered(lex, stage, plan, leaves)
  {
    forall i | 0 <= i < |plan| ensures !StepCovers(lex, stage, plan[i]) {
      CoveredByName(lex, stage, plan[i]);
    }
    forall i | 0 <= i < |leaves| ensures !StepCovers(lex, stage, LeafText(leaves[i])) {
      CoveredByName(lex, stage, LeafText(leaves[i]));
    }
  }

  lemma {:induction false} NamedInPlan(lex: Lexicon, plan: seq<string>, leaves: seq<LeafCall>, k: nat)
    requires k < |plan| && LawfulFor(lex, plan[k])
    ensures KeywordCovered(lex, plan[k], plan, leaves)
  {
    CoveredByName(lex, plan[k], plan[k]);
  }

  /** The tokens of a leaf with a one-word subtask and a hyphenated task type. */
  lemma {:induction false} LeafWords(leaf: LeafCall, b: string, c: string)
    requires IsWord(leaf.subtask) && IsWord(b) && IsWord(c) && leaf.taskType == b + "-" + c
    ensures SOURCE.norm(leaf.taskType) == leaf.taskType
    ensures SOURCE.tokens(LeafText(leaf)) <= {leaf.subtask, b, c}
  {
    HyphenatedWords(leaf.subtask, b, c);
  }

  lemma {:induction false} DataTransformLeaf(leaf: LeafCall)
    requires IsWord(leaf.subtask) && leaf.taskType == "data-transform"
    ensures SOURCE.norm(leaf.taskType) == "data-transform"
    ensures SOURCE.tokens(LeafText(leaf)) <= {leaf.subtask, "data", "transform"}
  {
    LeafWords(leaf, "data", "transform");
  }

  lemma {:induction false} FactualLeaf(leaf: LeafCall)
    requires IsWord(leaf.subtask) && leaf.taskType == "qa-factual"
    ensures SOURCE.norm(leaf.taskType) == "qa-factual"
    ensures SOURCE.tokens(LeafText(leaf)) <= {leaf.subtask, "qa", "factual"}
  {
    LeafWords(leaf, "qa", "factual");
  }

  /** A stage to be realised by a leaf. */
  predicate Unnamed(stage: string) {
    stage == "extract" || stage == "aggregate"
  }

  lemma {:induction false} OtherWords(stage: string)
    requires Unnamed(stage)
    ensures stage !in {"data", "transform", "qa", "factual"} && stage !in {"classify", "summarize"}
  {
    assert |stage| == 7 || |stage| == 9;
    assert stage[0] == 'e' || stage[0] == 'a';
  }

  /** A stage that is no token of two plan steps and two leaves is not covered by keyword. */
  lemma {:induction false} NotAmong(
    lex: Lexicon, stage: string, plan: seq<string>, leaves: seq<LeafCall>,
    p: set<string>, q: set<string>, v: set<string>, w: set<string>)
    requires LawfulFor(lex, stage) && |plan| == |leaves| == 2
    requires lex.tokens(plan[0]) == p && lex.tokens(plan[1]) == q
    requires lex.tokens(LeafText(leaves[0])) <= v && lex.tokens(LeafText(leaves[1])) <= w
    requires stage !in p && stage !in q && stage !in v && stage !in w
    ensures !KeywordCovered(lex, stage, plan, leaves)
  {
    NotNamed(lex, stage, plan, leaves);
  }

  lemma {:induction false} NamingOrderLoses(lex: Lexicon, plan: seq<string>, leaves: seq<LeafCall>)
    requires Lawful(lex) && plan == ["classify", "summarize"] && |leaves| == 2
    requires lex.norm(leaves[0].taskType) == "data-transform" && lex.norm(leaves[1].taskType) == "qa-factual"
    requires lex.tokens(LeafText(leaves[0])) <= {leaves[0].subtask, "data", "transform"}
    requires lex.tokens(LeafText(leaves[1])) <= {leaves[1].subtask, "qa", "factual"}
    requires !Unnamed(leaves[0].subtask) && !Unnamed(leaves[1].subtask)
    ensures Assignable(lex, D3_STAGES, plan, leaves) && !Greedy(lex, D3_STAGES, plan, leaves, {})
  {
    assert LawfulFor(lex, plan[0]) && LawfulFor(lex, plan[1]);
    NamedInPlan(lex, plan, leaves, 0);
    NamedInPlan(lex, plan, leaves, 1);
    var v, w := {leaves[0].subtask, "data", "transform"}, {leaves[1].subtask, "qa", "factual"};
    forall stage: string | Unnamed(stage) ensures !KeywordCovered(lex, stage, plan, leaves) {
      OtherWords(stage);
      assert LawfulFor(lex, stage);
      NotAmong(lex, stage, plan, leaves, {plan[0]}, {plan[1]}, v, w);
    }
    assert Unnamed("extract") && Unnamed("aggregate");
    GreedyOrderCanLose(lex, plan, leaves);
  }

  /**
   With the source's own tokeniser and stage table: a plan that names the other two stages, a counting leaf
   and a factual one under any one-word subtasks that do not name a stage. Assignable, and not passed.
   */
  lemma {:induction false} SourceOrderLoses(plan: seq<string>, leaves: seq<LeafCall>)
    requires plan == ["classify", "summarize"] && |leaves| == 2
    requires leaves[0].taskType == "data-transform" && leaves[1].taskType == "qa-factual"
    requires forall i :: 0 <= i < 2 ==> IsWord(leaves[i].subtask) && !Unnamed(leaves[i].subtask)
    ensures Assignable(SOURCE, D3_STAGES, plan, leaves) && !Greedy(SOURCE, D3_STAGES, plan, leaves, {})
  {
    SourceIsLawful();
    DataTransformLeaf(leaves[0]);
    FactualLeaf(leaves[1]);
    NamingOrderLoses(SOURCE, plan, leaves);
  }

  /** One such input. */
  lemma {:induction false} SourceOrderLosesHere() returns (plan: seq<string>, leaves: seq<LeafCall>)
    ensures plan == ["classify", "summarize"]
    ensures leaves == [LeafCall("count", "data-transform", "local", false, "", 0, 0),
                       LeafCall("answer", "qa-factual", "local", false, "", 0, 0)]
    ensures Assignable(SOURCE, D3_STAGES, plan, leaves) && !Greedy(SOURCE, D3_STAGES, plan, leaves, {})
  {
    plan := ["classify", "summarize"];
    leaves := [LeafCall("count", "data-transform", "local", false, "", 0, 0),
               LeafCall("answer", "qa-factual", "local", false, "", 0, 0)];
    assert |"count"| == 5 && |"answer"| == 6;
    SourceOrderLoses(plan, leaves);
  }
}
