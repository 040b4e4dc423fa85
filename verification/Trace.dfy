/** The execution trace an arm emits for one task: the seam between the orchestration loop and the scorer. */
module Trace {
  import opened Options

  datatype Family = D1 | D2 | D3 | D4

  datatype Arm = A0 | A1 | A2 | A3

  /** One leaf delegation; token counts are the ones metered for it. */
  datatype LeafCall = LeafCall(
    subtask: string, taskType: string, modelId: string, escalated: bool, output: string,
    promptTokens: nat, completionTokens: nat)

  datatype AdvisorCall = AdvisorCall(question: string, promptTokens: nat, completionTokens: nat, model: string)

  datatype OrchTrace = OrchTrace(
    arm: Arm,
    plan: seq<string>,
    leafCalls: seq<LeafCall>,
    advisorCalls: seq<AdvisorCall>,
    finalAnswer: string,
    reportMarkdown: Option<string>,
    brainPromptTokens: nat,
    brainCompletionTokens: nat,
    runtimeError: Option<string>,
    timedOut: bool,
    sourcesRead: Option<nat>,
    corpusSize: Option<nat>)

  function LeafTokens(calls: seq<LeafCall>): nat {
    if calls == [] then 0
    else LeafTokens(calls[..|calls| - 1]) + calls[|calls| - 1].promptTokens + calls[|calls| - 1].completionTokens
  }

  function AdvisorTokens(calls: seq<AdvisorCall>): nat {
    if calls == [] then 0
    else AdvisorTokens(calls[..|calls| - 1]) + calls[|calls| - 1].promptTokens + calls[|calls| - 1].completionTokens
  }

  /** The tokens of the leaves that went to the frontier. */
  function EscalatedTokens(calls: seq<LeafCall>): nat {
    if calls == [] then 0
    else
      var last := calls[|calls| - 1];
      EscalatedTokens(calls[..|calls| - 1]) + if last.escalated then last.promptTokens + last.completionTokens else 0
  }

  function FrontierTokens(t: OrchTrace): nat {
    AdvisorTokens(t.advisorCalls) + EscalatedTokens(t.leafCalls)
  }

  function TotalTokens(t: OrchTrace): nat {
    t.brainPromptTokens + t.brainCompletionTokens + LeafTokens(t.leafCalls) + AdvisorTokens(t.advisorCalls)
  }

  lemma {:induction false} LeafTokensSnoc(calls: seq<LeafCall>, c: LeafCall)
    ensures LeafTokens(calls + [c]) == LeafTokens(calls) + c.promptTokens + c.completionTokens
    ensures EscalatedTokens(calls + [c])
         == EscalatedTokens(calls) + if c.escalated then c.promptTokens + c.completionTokens else 0
  {
    assert (calls + [c])[..|calls|] == calls;
  }

  lemma {:induction false} AdvisorTokensSnoc(calls: seq<AdvisorCall>, c: AdvisorCall)
    ensures AdvisorTokens(calls + [c]) == AdvisorTokens(calls) + c.promptTokens + c.completionTokens
  {
    assert (calls + [c])[..|calls|] == calls;
  }

  /** The tokens of the leaves that stayed local. */
  function LocalTokens(calls: seq<LeafCall>): nat {
    if calls == [] then 0
    else
      var last := calls[|calls| - 1];
      LocalTokens(calls[..|calls| - 1]) + if last.escalated then 0 else last.promptTokens + last.completionTokens
  }

  lemma {:induction false} LeavesAreLocalOrEscalated(calls: seq<LeafCall>)
    ensures LeafTokens(calls) == LocalTokens(calls) + EscalatedTokens(calls)
  {
    if calls != [] {
      LeavesAreLocalOrEscalated(calls[..|calls| - 1]);
    }
  }

  /** Every token of a trace is the brain's, a local leaf's or the frontier's. */
  lemma {:induction false} TokensSplit(t: OrchTrace)
    ensures TotalTokens(t)
         == t.brainPromptTokens + t.brainCompletionTokens + LocalTokens(t.leafCalls) + FrontierTokens(t)
  {
    LeavesAreLocalOrEscalated(t.leafCalls);
  }

  /** Frontier spend is part of the total. */
  lemma {:induction false} FrontierWithinTotal(calls: seq<LeafCall>)
    ensures EscalatedTokens(calls) <= LeafTokens(calls)
  {
    if calls != [] {
      FrontierWithinTotal(calls[..|calls| - 1]);
    }
  }
}
