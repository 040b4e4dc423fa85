/**
 The judge's retry loop (`judgeWithRetry`), the two budget rules it is wired to (`escalateJudgeMaxTokens`,
 `capJudgeMaxTokens`) and the sizing done before it (`planJudgeInput`).

 A starved call is retried only with a strictly larger effective budget, a transient failure at the same
 one, anything else not at all. The loop's contract holds for arbitrary escalation and cap functions and
 any sequence of outcomes; the budget rules then bound the escalations and keep every call in the window.
 */
module JudgeRetry {
  import opened Options

  /** What one judge call comes back with. */
  datatype Outcome = Answer(content: string) | Starved | Transient | Fatal

  /** The budget asked for at attempt `k`, before capping: escalated after every starved attempt. */
  function Requested(outcomes: nat -> Outcome, escalate: int -> int, initial: int, k: nat): int {
    if k == 0 then initial
    else
      var m := Requested(outcomes, escalate, initial, k - 1);
      if outcomes(k - 1).Starved? then escalate(m) else m
  }

  /** Escalating past attempt `k` really enlarges the budget, also after capping. */
  predicate CanEscalate(outcomes: nat -> Outcome, escalate: int -> int, cap: int -> int, initial: int, k: nat) {
    var m := Requested(outcomes, escalate, initial, k);
    escalate(m) > m && cap(escalate(m)) > cap(m)
  }

  /** The loop goes on after attempt `k`. */
  predicate Retries(
    outcomes: nat -> Outcome, escalate: int -> int, cap: int -> int, initial: int, retries: nat, k: nat)
  {
    && k < retries
    && (outcomes(k).Transient? || (outcomes(k).Starved? && CanEscalate(outcomes, escalate, cap, initial, k)))
  }

  /** The calls of a run: the budget of each attempt, each but the last retried. */
  ghost predicate IsCallLog(
    outcomes: nat -> Outcome, escalate: int -> int, cap: int -> int, initial: int, retries: nat, budgets: seq<int>)
  {
    && budgets != []
    && (forall k :: 0 <= k < |budgets| ==> budgets[k] == cap(Requested(outcomes, escalate, initial, k)))
    && (forall k :: 0 <= k < |budgets| - 1 ==> Retries(outcomes, escalate, cap, initial, retries, k))
  }

  lemma {:induction false} LogSnoc(
    outcomes: nat -> Outcome, escalate: int -> int, cap: int -> int, initial: int, retries: nat, budgets: seq<int>)
    requires budgets != [] ==> IsCallLog(outcomes, escalate, cap, initial, retries, budgets)
    requires budgets != [] ==> Retries(outcomes, escalate, cap, initial, retries, |budgets| - 1)
    ensures IsCallLog(outcomes, escalate, cap, initial, retries,
                      budgets + [cap(Requested(outcomes, escalate, initial, |budgets|))])
  {
    forall k | 0 <= k < |budgets| ensures Retries(outcomes, escalate, cap, initial, retries, k) {
      assert k < |budgets| - 1 || k == |budgets| - 1;
    }
  }

  method JudgeWithRetry(
    outcomes: nat -> Outcome, escalate: int -> int, cap: int -> int, initial: int, retries: nat)
    returns (r: Option<string>, budgets: seq<int>)
    ensures 1 <= |budgets| <= retries + 1
    ensures IsCallLog(outcomes, escalate, cap, initial, retries, budgets)
    ensures !Retries(outcomes, escalate, cap, initial, retries, |budgets| - 1)
    ensures r == if outcomes(|budgets| - 1).Answer? then Some(outcomes(|budgets| - 1).content) else None
  {
    var maxTokens := initial;
    budgets := [];
    for attempt := 0 to retries + 1
      invariant |budgets| == attempt <= retries
      invariant maxTokens == Requested(outcomes, escalate, initial, attempt)
      invariant attempt > 0 ==> IsCallLog(outcomes, escalate, cap, initial, retries, budgets)
      invariant attempt > 0 ==> Retries(outcomes, escalate, cap, initial, retries, attempt - 1)
    {
      LogSnoc(outcomes, escalate, cap, initial, retries, budgets);
      budgets := budgets + [cap(maxTokens)];
      match outcomes(attempt) {
        case Answer(content) =>
          return Some(content), budgets;
        case Starved =>
          if attempt < retries {
            var next := escalate(maxTokens);
            if !(next > maxTokens && cap(next) > cap(maxTokens)) {
              return None, budgets;
            }
            maxTokens := next;
            assert Retries(outcomes, escalate, cap, initial, retries, attempt);
          } else {
            return None, budgets;
          }
        case Transient =>
          if attempt >= retries {
            return None, budgets;
          }
        case Fatal =>
          return None, budgets;
      }
    }
    assert false;
  }

  /** Transient failures are retried at the same budget, up to the limit. */
  lemma {:induction false} TransientsAreRetried(
    outcomes: nat -> Outcome, escalate: int -> int, cap: int -> int, initial: int, retries: nat,
    budgets: seq<int>, k: nat)
    requires IsCallLog(outcomes, escalate, cap, initial, retries, budgets)
    requires !Retries(outcomes, escalate, cap, initial, retries, |budgets| - 1)
    requires k <= retries && forall i: nat :: i < k ==> outcomes(i).Transient?
    ensures k < |budgets| && budgets[k] == cap(initial)
  {
    if k > 0 {
      TransientsAreRetried(outcomes, escalate, cap, initial, retries, budgets, k - 1);
      SameRequest(outcomes, escalate, initial, k);
    }
  }

  lemma {:induction false} SameRequest(outcomes: nat -> Outcome, escalate: int -> int, initial: int, k: nat)
    requires forall i: nat :: i < k ==> outcomes(i).Transient?
    ensures Requested(outcomes, escalate, initial, k) == initial
  {
    if k > 0 {
      SameRequest(outcomes, escalate, initial, k - 1);
    }
  }

  /** A starved attempt is the last one exactly when the limit is reached or escalating would not enlarge the budget. */
  lemma {:induction false} StarvedStops(
    outcomes: nat -> Outcome, escalate: int -> int, cap: int -> int, initial: int, retries: nat,
    budgets: seq<int>, k: nat)
    requires IsCallLog(outcomes, escalate, cap, initial, retries, budgets)
    requires !Retries(outcomes, escalate, cap, initial, retries, |budgets| - 1)
    requires k < |budgets| && outcomes(k).Starved?
    ensures var m := Requested(outcomes, escalate, initial, k);
            k == |budgets| - 1 <==> k >= retries || escalate(m) <= m || cap(escalate(m)) <= cap(m)
  {
    assert k < |budgets| - 1 <==> Retries(outcomes, escalate, cap, initial, retries, k);
  }

  /** Effective budgets never fall, and rise strictly right after a starvation. */
  lemma {:induction false} BudgetsNeverFall(
    outcomes: nat -> Outcome, escalate: int -> int, cap: int -> int, initial: int, retries: nat,
    budgets: seq<int>, i: nat, j: nat)
    requires IsCallLog(outcomes, escalate, cap, initial, retries, budgets) && i <= j < |budgets|
    ensures budgets[i] <= budgets[j]
    ensures (exists k :: i <= k < j && outcomes(k).Starved?) ==> budgets[i] < budgets[j]
    decreases j
  {
    if i < j {
      BudgetsNeverFall(outcomes, escalate, cap, initial, retries, budgets, i, j - 1);
      assert Retries(outcomes, escalate, cap, initial, retries, j - 1);
    }
  }

  // ---------- the rules the loop is wired to ----------

  const MAX_TOKENS_DEFAULT := 4000
  const MAX_TOKENS_CAP := 16000
  const CTX_MARGIN_TOKENS := 256
  const MAX_TOKENS_FLOOR := 256

  function EscalateMaxTokens(current: int): int {
    var cur := if current > 0 then current else MAX_TOKENS_DEFAULT;
    if cur >= MAX_TOKENS_CAP then cur
    else if cur * 2 <= MAX_TOKENS_CAP then cur * 2
    else MAX_TOKENS_CAP
  }

  function Ceiling(x: real): int {
    -((-x).Floor)
  }

  /** A non-positive rate falls back to 3.5 characters per token. */
  function Rate(charsPerToken: real): (c: real)
    ensures c > 0.0
  {
    if charsPerToken > 0.0 then charsPerToken else 3.5
  }

  /** Estimated input tokens. */
  function InputTokens(inputChars: int, charsPerToken: real): int {
    Ceiling((if inputChars > 0 then inputChars else 0) as real / Rate(charsPerToken))
  }

  function Room(inputChars: int, window: int, charsPerToken: real): int {
    window - InputTokens(inputChars, charsPerToken) - CTX_MARGIN_TOKENS
  }

  function CapMaxTokens(requested: int, room: int): int {
    var bounded := if requested < room then requested else room;
    if bounded > MAX_TOKENS_FLOOR then bounded else MAX_TOKENS_FLOOR
  }

  function StarvedBefore(outcomes: nat -> Outcome, k: nat): nat {
    if k == 0 then 0 else StarvedBefore(outcomes, k - 1) + if outcomes(k - 1).Starved? then 1 else 0
  }

  /** From the default budget the loop escalates at most twice, whatever the retry limit and the input size. */
  lemma {:induction false} AtMostTwoEscalations(
    outcomes: nat -> Outcome, room: int, retries: nat, budgets: seq<int>, k: nat)
    requires IsCallLog(outcomes, EscalateMaxTokens, m => CapMaxTokens(m, room), MAX_TOKENS_DEFAULT, retries, budgets)
    requires k < |budgets|
    ensures StarvedBefore(outcomes, k) <= 2
    ensures Requested(outcomes, EscalateMaxTokens, MAX_TOKENS_DEFAULT, k)
         == match StarvedBefore(outcomes, k) case 0 => 4000 case 1 => 8000 case _ => 16000
    decreases k
  {
    if k > 0 {
      AtMostTwoEscalations(outcomes, room, retries, budgets, k - 1);
      assert Retries(outcomes, EscalateMaxTokens, m => CapMaxTokens(m, room), MAX_TOKENS_DEFAULT, retries, k - 1);
    }
  }

  /** The cap grants the request whenever that is between floor and room; otherwise the room, or the floor. */
  lemma {:induction false} CapGrants(requested: int, room: int)
    ensures MAX_TOKENS_FLOOR <= requested <= room ==> CapMaxTokens(requested, room) == requested
    ensures MAX_TOKENS_FLOOR <= room <= requested ==> CapMaxTokens(requested, room) == room
    ensures (requested < MAX_TOKENS_FLOOR || room < MAX_TOKENS_FLOOR) ==>
              CapMaxTokens(requested, room) == MAX_TOKENS_FLOOR
  {
  }

  /** Escalation doubles up to the cap, and never lowers a budget at or above it. */
  lemma {:induction false} EscalationRule(current: int)
    requires current > 0
    ensures current <= EscalateMaxTokens(current) <= 2 * current
    ensures EscalateMaxTokens(current) == current <==> current >= MAX_TOKENS_CAP
    ensures current < MAX_TOKENS_CAP ==> EscalateMaxTokens(current) <= MAX_TOKENS_CAP
    ensures 2 * current <= MAX_TOKENS_CAP ==> EscalateMaxTokens(current) == 2 * current
    ensures current < MAX_TOKENS_CAP < 2 * current ==> EscalateMaxTokens(current) == MAX_TOKENS_CAP
  {
  }

  lemma {:induction false} FittingBudget(requested: int, room: int)
    requires room >= MAX_TOKENS_FLOOR
    ensures MAX_TOKENS_FLOOR <= CapMaxTokens(requested, room) <= room
  {
  }

  // ---------- sizing before the call ----------

  function Chars(tokens: int, charsPerToken: real): int {
    (tokens as real * Rate(charsPerToken)).Floor
  }

  /** `planJudgeInput`: None when the row is skipped, otherwise how much conversation context fits. */
  function PlanJudgeInput(fixedChars: int, requestedContext: int, window: int, charsPerToken: real): Option<int> {
    var budget := Chars(window - CTX_MARGIN_TOKENS - MAX_TOKENS_FLOOR, charsPerToken);
    if fixedChars > budget then None
    else
      var context := if requestedContext < budget - fixedChars then requestedContext else budget - fixedChars;
      Some(if context > 0 then context else 0)
  }

  lemma {:induction false} ScaleByRate(q: real, t: real, c: real)
    requires c > 0.0
    ensures q <= t <==> q * c <= t * c
  {
    assert t * c - q * c == (t - q) * c;
  }

  /** An input within the character budget is within the token budget, and the other way round. */
  lemma {:induction false} InputWithinBudget(inputChars: int, tokens: int, charsPerToken: real)
    requires inputChars >= 0
    ensures inputChars <= Chars(tokens, charsPerToken) <==> InputTokens(inputChars, charsPerToken) <= tokens
  {
    var c := Rate(charsPerToken);
    var q := inputChars as real / c;
    assert q * c == inputChars as real;
    ScaleByRate(q, tokens as real, c);
    WholeBound(inputChars, tokens as real * c);
    CeilingBound(q, tokens);
  }

  lemma {:induction false} WholeBound(n: int, x: real)
    ensures n <= x.Floor <==> n as real <= x
  {
  }

  lemma {:induction false} CeilingBound(q: real, t: int)
    ensures Ceiling(q) <= t <==> q <= t as real
  {
  }

  /** A row is skipped exactly when its mandatory input alone leaves no room for the smallest completion. */
  lemma {:induction false} SkippedExactly(fixedChars: int, requestedContext: int, window: int, charsPerToken: real)
    requires fixedChars >= 0
    ensures PlanJudgeInput(fixedChars, requestedContext, window, charsPerToken).None?
            <==> Room(fixedChars, window, charsPerToken) < MAX_TOKENS_FLOOR
  {
    InputWithinBudget(fixedChars, window - CTX_MARGIN_TOKENS - MAX_TOKENS_FLOOR, charsPerToken);
  }

  /** The planned context is the largest up to the requested one that leaves room for the smallest completion. */
  lemma {:induction false} ContextIsLargest(
    fixedChars: int, requestedContext: int, window: int, charsPerToken: real, more: int)
    requires fixedChars >= 0 && PlanJudgeInput(fixedChars, requestedContext, window, charsPerToken).Some?
    ensures var context := PlanJudgeInput(fixedChars, requestedContext, window, charsPerToken).value;
            && 0 <= context && (context <= requestedContext || context == 0)
            && Room(fixedChars + context, window, charsPerToken) >= MAX_TOKENS_FLOOR
            && (context < more <= requestedContext ==>
                  Room(fixedChars + more, window, charsPerToken) < MAX_TOKENS_FLOOR)
  {
    var context, tokens := PlanJudgeInput(fixedChars, requestedContext, window, charsPerToken).value,
                           window - CTX_MARGIN_TOKENS - MAX_TOKENS_FLOOR;
    InputWithinBudget(fixedChars + context, tokens, charsPerToken);
    if more > context {
      InputWithinBudget(fixedChars + more, tokens, charsPerToken);
    }
  }

  /** The planned input leaves room for the smallest completion. */
  lemma {:induction false} PlannedInputFits(
    fixedChars: int, requestedContext: int, window: int, charsPerToken: real, inputChars: int)
    requires fixedChars >= 0 && PlanJudgeInput(fixedChars, requestedContext, window, charsPerToken).Some?
    requires 0 <= inputChars
    requires inputChars <= fixedChars + PlanJudgeInput(fixedChars, requestedContext, window, charsPerToken).value
    ensures Room(inputChars, window, charsPerToken) >= MAX_TOKENS_FLOOR
  {
    InputWithinBudget(inputChars, window - CTX_MARGIN_TOKENS - MAX_TOKENS_FLOOR, charsPerToken);
  }

  /**
   Every row that is not skipped fits: on every attempt estimated input, margin and completion are within
   the serving window, however often the budget is escalated.
   */
  lemma {:induction false} EveryCallFits(
    outcomes: nat -> Outcome, escalate: int -> int, initial: int, retries: nat, budgets: seq<int>,
    fixedChars: int, requestedContext: int, inputChars: int, window: int, charsPerToken: real, k: nat)
    requires fixedChars >= 0 && PlanJudgeInput(fixedChars, requestedContext, window, charsPerToken).Some?
    requires 0 <= inputChars
    requires inputChars <= fixedChars + PlanJudgeInput(fixedChars, requestedContext, window, charsPerToken).value
    requires var room := Room(inputChars, window, charsPerToken);
             IsCallLog(outcomes, escalate, m => CapMaxTokens(m, room), initial, retries, budgets)
    requires k < |budgets|
    ensures MAX_TOKENS_FLOOR <= budgets[k]
    ensures InputTokens(inputChars, charsPerToken) + CTX_MARGIN_TOKENS + budgets[k] <= window
  {
    PlannedInputFits(fixedChars, requestedContext, window, charsPerToken, inputChars);
    FittingBudget(Requested(outcomes, escalate, initial, k), Room(inputChars, window, charsPerToken));
  }
}
