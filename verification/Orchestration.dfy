/**
 The plan, execute, integrate loop (`runOrchestration`), the corpus-grounded leaf executor
 (`makeCorpusLeafExecutor`) and the metered leaf executor (`makeRealLeafExecutor`).

 Every brain, leaf and advisor call is injected and may answer or throw in any way. The loop is proved to
 compute `Execute`, and what the documentation promises of a run is proved of it: tokens are conserved,
 the advisor is capped, a run without an error executed every step once, in order, and a cut-short run is
 always scored as an error; a grounded run reads as many distinct sources as it has steps to read them with.
 */
module Orchestration {
  import opened Options
  import opened Trace
  import Scorer

  // ---------- what is injected ----------

  datatype Reply<T> = Ok(value: T) | Threw(message: string)

  datatype Chat = Chat(text: string, promptTokens: nat, completionTokens: nat)

  function ChatTokens(c: Chat): nat { c.promptTokens + c.completionTokens }

  datatype PlanStep = PlanStep(
    taskLabel: string, taskType: string, input: string, escalate: bool,
    action: Option<string>, question: Option<string>)

  /** The brain's planning call: it throws, answers without a parsable plan, or answers with a non-empty plan. */
  datatype Planning = PlanThrew(message: string) | Unparsable(chat: Chat) | Planned(chat: Chat, steps: seq<PlanStep>)

  /**
   The leaf executor. `Injected` answers step i with any call at all; `Grounded` is the corpus reader, with
   the distiller's reply for step i, the token overlap of step i with each source and the citation tag put
   before the text distilled from a source.
   */
  datatype LeafExecutor =
    | Injected(reply: nat -> Reply<LeafCall>)
    | Grounded(distill: nat -> Reply<Chat>, overlap: (nat, nat) -> nat, cite: nat -> string)

  datatype OrchOptions = OrchOptions(
    arm: Arm, advisorK: nat, advisor: Option<nat -> Reply<Chat>>, escalationModel: string, distillModel: string)

  // ---------- the corpus reader ----------

  /** The first source with the highest overlap among the unread ones, or among all when every one is read. */
  function Pick(read: set<nat>, size: nat, score: nat -> nat): (p: nat)
    requires size > 0
    ensures p < size
    ensures forall k :: 0 <= k < size && k !in read ==> p !in read
    ensures forall k :: 0 <= k < size && (k in read <==> p in read)
              ==> score(k) <= score(p) && (score(k) == score(p) ==> p <= k)
  {
    if size == 1 then 0
    else
      var p, last := Pick(read, size - 1, score), size - 1;
      if (last in read) == (p in read) then (if score(last) > score(p) then last else p)
      else if p in read then last else p
  }

  /** An unread source if there is one, then the highest overlap, then the earliest. */
  ghost predicate IsBest(p: nat, read: set<nat>, size: nat, score: nat -> nat) {
    && p < size
    && forall k: nat :: k < size ==>
         && !(k !in read && p in read)
         && ((k in read) == (p in read) ==> score(k) < score(p) || (score(k) == score(p) && p <= k))
  }

  /** A leaf call that reports a distilled source under its citation tag, with the distiller's tokens. */
  predicate ReportsSource(call: LeafCall, step: PlanStep, chat: Chat, tag: string, model: string) {
    && call.subtask == step.taskLabel && call.modelId == model && !call.escalated && call.output == tag + chat.text
    && call.taskType == (if step.taskType == "" then "summarize" else step.taskType)
    && call.promptTokens == chat.promptTokens && call.completionTokens == chat.completionTokens
  }

  /** The corpus-read state shared by the grounded executor and the integrate stage. */
  class CorpusReadState {
    const corpusSize: nat
    var readIds: set<nat>

    constructor (size: nat)
      ensures corpusSize == size && readIds == {}
    {
      corpusSize := size;
      readIds := {};
    }

    /** One grounded leaf: rank the sources, read the best one, distil it. */
    method ReadLeaf(
      step: PlanStep, score: nat -> nat, distilled: Reply<Chat>, cite: nat -> string, model: string)
      returns (r: Reply<LeafCall>)
      modifies this
      ensures (r, readIds) == GroundedLeaf(step, old(readIds), corpusSize, score, distilled, cite, model)
      ensures corpusSize == 0 ==> r.Threw? && readIds == old(readIds)
      ensures corpusSize > 0 ==>
                exists p: nat ::
                  && IsBest(p, old(readIds), corpusSize, score) && readIds == old(readIds) + {p}
                  && (r.Ok? <==> distilled.Ok?)
                  && (r.Ok? ==> ReportsSource(r.value, step, distilled.value, cite(p), model))
    {
      if corpusSize == 0 {
        return Threw("no source to read");
      }
      var best := 0;
      for k := 1 to corpusSize
        invariant best == Pick(readIds, k, score)
        invariant readIds == old(readIds)
      {
        var unreadFirst := k !in readIds && best in readIds;
        if unreadFirst || ((k in readIds) == (best in readIds) && score(k) > score(best)) {
          best := k;
        }
      }
      assert IsBest(best, old(readIds), corpusSize, score);
      readIds := readIds + {best};
      match distilled {
        case Threw(m) => r := Threw(m);
        case Ok(chat) => r := Ok(DistilledCall(step, chat, cite(best), model));
      }
    }
  }

  function DistilledCall(step: PlanStep, chat: Chat, tag: string, model: string): LeafCall {
    LeafCall(step.taskLabel, if step.taskType == "" then "summarize" else step.taskType, model, false, tag + chat.text,
             chat.promptTokens, chat.completionTokens)
  }

  function GroundedLeaf(
    step: PlanStep, read: set<nat>, size: nat, score: nat -> nat, distilled: Reply<Chat>, cite: nat -> string,
    model: string)
    : (Reply<LeafCall>, set<nat>)
  {
    if size == 0 then (Threw("no source to read"), read)
    else
      var p := Pick(read, size, score);
      match distilled
      case Threw(m) => (Threw(m), read + {p})
      case Ok(chat) => (Ok(DistilledCall(step, chat, cite(p), model)), read + {p})
  }

  // ---------- the execute stage ----------

  /** A task's surroundings: options, executor, and the corpus size when the run is grounded. */
  datatype Setting = Setting(opts: OrchOptions, exec: LeafExecutor, corpus: Option<nat>)

  predicate WellWired(s: Setting) {
    s.exec.Grounded? ==> s.corpus.Some?
  }

  datatype LoopState = LoopState(
    leafCalls: seq<LeafCall>, advisorCalls: seq<AdvisorCall>, runtimeError: Option<string>, readIds: set<nat>)

  function Overlap(exec: LeafExecutor, i: nat): nat -> nat
    requires exec.Grounded?
  {
    (k: nat) => exec.overlap(i, k)
  }

  function CallLeaf(s: Setting, i: nat, step: PlanStep, read: set<nat>): (Reply<LeafCall>, set<nat>)
    requires WellWired(s)
  {
    match s.exec
    case Injected(reply) => (reply(i), read)
    case Grounded(distill, overlap, cite) =>
      GroundedLeaf(step, read, s.corpus.value, Overlap(s.exec, i), distill(i), cite, s.opts.distillModel)
  }

  /** The advisor answers this step instead of a leaf; never in a grounded run. */
  predicate Intercepts(s: Setting, step: PlanStep, used: nat) {
    && s.opts.arm.A3? && s.opts.advisor.Some? && s.corpus.None? && used < s.opts.advisorK
    && (step.action == Some("ASK_ADVISOR") || step.escalate)
  }

  function FirstError(old_: Option<string>, message: string): Option<string> {
    if old_.Some? then old_ else Some(message)
  }

  function Question(step: PlanStep): string {
    if step.question.Some? then step.question.value else step.input
  }

  /** An advisor answer: metered as an advisor call, and a leaf call of zero tokens in its place. */
  function AfterAdvice(st: LoopState, s: Setting, step: PlanStep, chat: Chat): LoopState {
    st.(advisorCalls := st.advisorCalls
          + [AdvisorCall(Question(step), chat.promptTokens, chat.completionTokens, s.opts.escalationModel)],
        leafCalls := st.leafCalls
          + [LeafCall(step.taskLabel, step.taskType, s.opts.escalationModel, true, chat.text, 0, 0)])
  }

  /** The state after a leaf, and whether the loop goes on. */
  function AfterLeaf(st: LoopState, s: Setting, i: nat, step: PlanStep): (LoopState, bool)
    requires WellWired(s)
  {
    var (reply, read) := CallLeaf(s, i, step, st.readIds);
    match reply
    case Ok(call) => (st.(leafCalls := st.leafCalls + [call], readIds := read), true)
    case Threw(m) => (st.(runtimeError := FirstError(st.runtimeError, "leaf-error: " + m), readIds := read), false)
  }

  function OneStep(st: LoopState, s: Setting, i: nat, step: PlanStep): (LoopState, bool)
    requires WellWired(s)
  {
    if Intercepts(s, step, |st.advisorCalls|) then
      match s.opts.advisor.value(i)
      case Ok(chat) => (AfterAdvice(st, s, step, chat), true)
      case Threw(m) => AfterLeaf(st.(runtimeError := FirstError(st.runtimeError, "advisor-error: " + m)), s, i, step)
    else AfterLeaf(st, s, i, step)
  }

  function Execute(st: LoopState, s: Setting, steps: seq<PlanStep>, i: nat): LoopState
    requires WellWired(s) && i <= |steps|
    decreases |steps| - i
  {
    if i == |steps| then st
    else
      var (next, goOn) := OneStep(st, s, i, steps[i]);
      if goOn then Execute(next, s, steps, i + 1) else next
  }

  // ---------- the whole run ----------

  /** The integrate call, the split of its text into report and answer, and the ungrounded corpus fallback. */
  datatype Integration = Integration(
    reply: Reply<Chat>, report: string -> string, answer: string -> string, fallback: Option<(nat, nat)>)

  datatype Brain = Brain(planning: Planning, integration: Integration)

  predicate ValidBrain(b: Brain) {
    b.planning.Planned? ==> b.planning.steps != []
  }

  function Labels(steps: seq<PlanStep>): seq<string> {
    seq(|steps|, i requires 0 <= i < |steps| => steps[i].taskLabel)
  }

  function PlanOf(b: Brain): seq<PlanStep> {
    if b.planning.Planned? then b.planning.steps else []
  }

  function PlanError(b: Brain): Option<string> {
    match b.planning
    case PlanThrew(m) => Some("plan-error: " + m)
    case Unparsable(_) => Some("plan-parse-failure: could not parse JSON plan from brain output")
    case Planned(_, _) => None
  }

  function PlanChat(b: Brain): Chat {
    match b.planning
    case PlanThrew(_) => Chat("", 0, 0)
    case Unparsable(c) => c
    case Planned(c, _) => c
  }

  function Executed(b: Brain, s: Setting, read: set<nat>): LoopState
    requires WellWired(s)
  {
    Execute(LoopState([], [], PlanError(b), read), s, PlanOf(b), 0)
  }

  /** The trace of a run, from the state its execute stage ends in. */
  function Finish(family: Family, b: Brain, s: Setting, st: LoopState): OrchTrace {
    var plan, chat := Labels(PlanOf(b)), PlanChat(b);
    var base := OrchTrace(s.opts.arm, plan, st.leafCalls, st.advisorCalls, "", None,
                          chat.promptTokens, chat.completionTokens, st.runtimeError, false, None, None);
    if plan == [] && st.runtimeError.Some? then base
    else
      match b.integration.reply
      case Threw(m) => base.(runtimeError := FirstError(st.runtimeError, "integrate-error: " + m))
      case Ok(c) =>
        var metered := base.(brainPromptTokens := chat.promptTokens + c.promptTokens,
                             brainCompletionTokens := chat.completionTokens + c.completionTokens);
        if !family.D1? then metered.(finalAnswer := c.text)
        else
          var told := metered.(finalAnswer := b.integration.answer(c.text),
                               reportMarkdown := Some(b.integration.report(c.text)));
          if s.corpus.Some? then told.(corpusSize := s.corpus, sourcesRead := Some(|st.readIds|))
          else if b.integration.fallback.Some? then
            var (read, size) := b.integration.fallback.value;
            told.(sourcesRead := Some(read), corpusSize := Some(size))
          else told
  }

  function RunTrace(family: Family, b: Brain, s: Setting, read: set<nat>): OrchTrace
    requires WellWired(s)
  {
    Finish(family, b, s, Executed(b, s, read))
  }

  /** The leaf call of step i, on the real state. */
  method RunLeaf(s: Setting, state: CorpusReadState, i: nat, step: PlanStep) returns (reply: Reply<LeafCall>)
    requires WellWired(s) && (s.exec.Grounded? ==> s.corpus == Some(state.corpusSize))
    modifies state
    ensures (reply, state.readIds) == CallLeaf(s, i, step, old(state.readIds))
  {
    match s.exec {
      case Injected(replies) => reply := replies(i);
      case Grounded(distill, overlap, cite) =>
        reply := state.ReadLeaf(step, Overlap(s.exec, i), distill(i), cite, s.opts.distillModel);
    }
  }

  /** The execute loop with its counters. */
  method ExecuteSteps(s: Setting, state: CorpusReadState, steps: seq<PlanStep>, planError: Option<string>)
    returns (leafCalls: seq<LeafCall>, advisorCalls: seq<AdvisorCall>, runtimeError: Option<string>)
    requires WellWired(s) && (s.exec.Grounded? ==> s.corpus == Some(state.corpusSize))
    modifies state
    ensures LoopState(leafCalls, advisorCalls, runtimeError, state.readIds)
         == Execute(LoopState([], [], planError, old(state.readIds)), s, steps, 0)
  {
    leafCalls, advisorCalls, runtimeError := [], [], planError;
    var advisorUsed, i, stopped := 0, 0, false;
    ghost var goal := Execute(LoopState([], [], planError, old(state.readIds)), s, steps, 0);
    while i < |steps| && !stopped
      invariant i <= |steps| && advisorUsed == |advisorCalls|
      invariant var now := LoopState(leafCalls, advisorCalls, runtimeError, state.readIds);
                if stopped then now == goal else Execute(now, s, steps, i) == goal
      decreases |steps| - i, !stopped
    {
      var step := steps[i];
      var answered := false;
      if s.opts.arm.A3? && s.opts.advisor.Some? && s.corpus.None? && advisorUsed < s.opts.advisorK
         && (step.action == Some("ASK_ADVISOR") || step.escalate) {
        match s.opts.advisor.value(i) {
          case Ok(chat) =>
            advisorCalls := advisorCalls
              + [AdvisorCall(Question(step), chat.promptTokens, chat.completionTokens, s.opts.escalationModel)];
            advisorUsed := advisorUsed + 1;
            leafCalls := leafCalls
              + [LeafCall(step.taskLabel, step.taskType, s.opts.escalationModel, true, chat.text, 0, 0)];
            answered := true;
          case Threw(m) =>
            runtimeError := FirstError(runtimeError, "advisor-error: " + m);
        }
      }
      if !answered {
        var reply := RunLeaf(s, state, i, step);
        match reply {
          case Ok(call) =>
            leafCalls := leafCalls + [call];
          case Threw(m) =>
            runtimeError := FirstError(runtimeError, "leaf-error: " + m);
            stopped := true;
        }
      }
      i := i + 1;
    }
  }

  /** The plan stage: the brain's tokens are metered whenever it answered. */
  method PlanStage(b: Brain)
    returns (planSteps: seq<PlanStep>, planError: Option<string>, promptTokens: nat, completionTokens: nat)
    ensures planSteps == PlanOf(b) && planError == PlanError(b)
    ensures promptTokens == PlanChat(b).promptTokens && completionTokens == PlanChat(b).completionTokens
  {
    planSteps, planError, promptTokens, completionTokens := [], None, 0, 0;
    match b.planning {
      case PlanThrew(m) =>
        planError := Some("plan-error: " + m);
      case Unparsable(chat) =>
        promptTokens, completionTokens := chat.promptTokens, chat.completionTokens;
        planError := Some("plan-parse-failure: could not parse JSON plan from brain output");
      case Planned(chat, steps) =>
        promptTokens, completionTokens := chat.promptTokens, chat.completionTokens;
        planSteps := steps;
    }
  }

  method RunOrchestration(family: Family, b: Brain, s: Setting, state: CorpusReadState) returns (trace: OrchTrace)
    requires WellWired(s) && ValidBrain(b) && (s.corpus.Some? ==> s.corpus.value == state.corpusSize)
    modifies state
    ensures trace == RunTrace(family, b, s, old(state.readIds))
  {
    var planSteps, planError, brainPromptTokens, brainCompletionTokens := PlanStage(b);
    var leafCalls, advisorCalls, runtimeError := ExecuteSteps(s, state, planSteps, planError);
    var finalAnswer, reportMarkdown: Option<string> := "", None;
    var sourcesRead: Option<nat>, corpusSize: Option<nat> := None, None;
    if !(|planSteps| == 0 && runtimeError.Some?) {
      match b.integration.reply {
        case Ok(c) =>
          brainPromptTokens := brainPromptTokens + c.promptTokens;
          brainCompletionTokens := brainCompletionTokens + c.completionTokens;
          if family.D1? {
            reportMarkdown, finalAnswer := Some(b.integration.report(c.text)), b.integration.answer(c.text);
            if s.corpus.Some? {
              corpusSize, sourcesRead := s.corpus, Some(|state.readIds|);
            } else if b.integration.fallback.Some? {
              sourcesRead := Some(b.integration.fallback.value.0);
              corpusSize := Some(b.integration.fallback.value.1);
            }
          } else {
            finalAnswer := c.text;
          }
        case Threw(m) =>
          runtimeError := FirstError(runtimeError, "integrate-error: " + m);
      }
    }
    trace := OrchTrace(s.opts.arm, Labels(planSteps), leafCalls, advisorCalls, finalAnswer, reportMarkdown,
                       brainPromptTokens, brainCompletionTokens, runtimeError, false, sourcesRead, corpusSize);
  }

  /** What the trace says of the integrate stage: its text as answer, or as report and answer, and the reads. */
  lemma {:induction false} IntegrationReported(family: Family, b: Brain, s: Setting, read: set<nat>)
    requires WellWired(s)
    ensures var t, end := RunTrace(family, b, s, read), Executed(b, s, read);
            var asked := PlanOf(b) != [] || end.runtimeError.None?;
            && t.arm == s.opts.arm && !t.timedOut && |t.plan| == |PlanOf(b)|
            && (forall k :: 0 <= k < |t.plan| ==> t.plan[k] == PlanOf(b)[k].taskLabel)
            && t.leafCalls == end.leafCalls && t.advisorCalls == end.advisorCalls
            && (if !asked || b.integration.reply.Threw? then
                  && t.finalAnswer == "" && t.reportMarkdown.None? && t.sourcesRead.None? && t.corpusSize.None?
                  && t.runtimeError.Some?
                else
                  var text := b.integration.reply.value.text;
                  && t.runtimeError == end.runtimeError
                  && (!family.D1? ==> t.finalAnswer == text && t.reportMarkdown.None? && t.corpusSize.None?)
                  && (family.D1? ==> t.finalAnswer == b.integration.answer(text)
                                     && t.reportMarkdown == Some(b.integration.report(text)))
                  && (family.D1? && s.corpus.Some? ==>
                        t.corpusSize == s.corpus && t.sourcesRead == Some(|end.readIds|)))
            && (end.runtimeError.Some? ==> t.runtimeError == end.runtimeError)
  {
  }

  // ---------- token conservation ----------

  function StateTokens(st: LoopState): nat {
    LeafTokens(st.leafCalls) + AdvisorTokens(st.advisorCalls)
  }

  function ReplyTokens(r: Reply<LeafCall>): nat {
    if r.Ok? then r.value.promptTokens + r.value.completionTokens else 0
  }

  /** The tokens of every leaf and advisor response the loop receives from step `i` on. */
  function Received(s: Setting, steps: seq<PlanStep>, i: nat, used: nat, read: set<nat>): nat
    requires WellWired(s) && i <= |steps|
    decreases |steps| - i
  {
    if i == |steps| then 0
    else if Intercepts(s, steps[i], used) && s.opts.advisor.value(i).Ok? then
      ChatTokens(s.opts.advisor.value(i).value) + Received(s, steps, i + 1, used + 1, read)
    else
      var (reply, now) := CallLeaf(s, i, steps[i], read);
      ReplyTokens(reply) + if reply.Ok? then Received(s, steps, i + 1, used, now) else 0
  }

  lemma {:induction false} LeafMetered(st: LoopState, s: Setting, i: nat, step: PlanStep)
    requires WellWired(s)
    ensures var (next, goOn), (reply, read) := AfterLeaf(st, s, i, step), CallLeaf(s, i, step, st.readIds);
            && StateTokens(next) == StateTokens(st) + ReplyTokens(reply)
            && goOn == reply.Ok? && next.readIds == read && next.advisorCalls == st.advisorCalls
  {
    var (reply, read) := CallLeaf(s, i, step, st.readIds);
    if reply.Ok? {
      LeafTokensSnoc(st.leafCalls, reply.value);
    }
  }

  lemma {:induction false} AdviceMetered(st: LoopState, s: Setting, step: PlanStep, chat: Chat)
    ensures StateTokens(AfterAdvice(st, s, step, chat)) == StateTokens(st) + ChatTokens(chat)
  {
    AdvisorTokensSnoc(st.advisorCalls,
                      AdvisorCall(Question(step), chat.promptTokens, chat.completionTokens, s.opts.escalationModel));
    LeafTokensSnoc(st.leafCalls,
                   LeafCall(step.taskLabel, step.taskType, s.opts.escalationModel, true, chat.text, 0, 0));
  }

  lemma {:induction false} ExecuteMetersAll(st: LoopState, s: Setting, steps: seq<PlanStep>, i: nat)
    requires WellWired(s) && i <= |steps|
    ensures StateTokens(Execute(st, s, steps, i))
         == StateTokens(st) + Received(s, steps, i, |st.advisorCalls|, st.readIds)
    decreases |steps| - i
  {
    if i < |steps| {
      var step := steps[i];
      var (next, goOn) := OneStep(st, s, i, step);
      var advised := Intercepts(s, step, |st.advisorCalls|);
      if advised && s.opts.advisor.value(i).Ok? {
        AdviceMetered(st, s, step, s.opts.advisor.value(i).value);
      } else if advised {
        var message := "advisor-error: " + s.opts.advisor.value(i).message;
        LeafMetered(st.(runtimeError := FirstError(st.runtimeError, message)), s, i, step);
      } else {
        LeafMetered(st, s, i, step);
      }
      if goOn {
        ExecuteMetersAll(next, s, steps, i + 1);
      }
    }
  }

  /** Everything the run received: planning, leaves, advisor and integration. */
  function AllReceived(b: Brain, s: Setting, read: set<nat>): nat
    requires WellWired(s)
  {
    ChatTokens(PlanChat(b)) + Received(s, PlanOf(b), 0, 0, read)
    + if PlanOf(b) == [] && Executed(b, s, read).runtimeError.Some? then 0
      else if b.integration.reply.Ok? then ChatTokens(b.integration.reply.value) else 0
  }

  lemma {:induction false} FinishMetered(family: Family, b: Brain, s: Setting, st: LoopState)
    ensures TotalTokens(Finish(family, b, s, st))
         == ChatTokens(PlanChat(b)) + StateTokens(st)
            + if PlanOf(b) == [] && st.runtimeError.Some? then 0
              else if b.integration.reply.Ok? then ChatTokens(b.integration.reply.value) else 0
  {
    assert |Labels(PlanOf(b))| == |PlanOf(b)|;
  }

  /** The trace's total is the sum over every response, each counted once. */
  lemma {:induction false} TokensAreConserved(family: Family, b: Brain, s: Setting, read: set<nat>)
    requires WellWired(s)
    ensures TotalTokens(RunTrace(family, b, s, read)) == AllReceived(b, s, read)
  {
    ExecuteMetersAll(LoopState([], [], PlanError(b), read), s, PlanOf(b), 0);
    FinishMetered(family, b, s, Executed(b, s, read));
  }

  // ---------- the advisor cap and the frontier share ----------

  lemma {:induction false} ExecuteCapsAdvisor(st: LoopState, s: Setting, steps: seq<PlanStep>, i: nat)
    requires WellWired(s) && i <= |steps| && |st.advisorCalls| <= s.opts.advisorK
    ensures |Execute(st, s, steps, i).advisorCalls| <= s.opts.advisorK
    ensures !s.opts.arm.A3? || s.corpus.Some? ==> Execute(st, s, steps, i).advisorCalls == st.advisorCalls
    decreases |steps| - i
  {
    if i < |steps| {
      var (next, goOn) := OneStep(st, s, i, steps[i]);
      if goOn {
        ExecuteCapsAdvisor(next, s, steps, i + 1);
      }
    }
  }

  /** At most K advisor calls; none outside the advisor arm or in a grounded run. */
  lemma {:induction false} AdvisorIsCapped(family: Family, b: Brain, s: Setting, read: set<nat>)
    requires WellWired(s)
    ensures |RunTrace(family, b, s, read).advisorCalls| <= s.opts.advisorK
    ensures !s.opts.arm.A3? || s.corpus.Some? ==> RunTrace(family, b, s, read).advisorCalls == []
  {
    ExecuteCapsAdvisor(LoopState([], [], PlanError(b), read), s, PlanOf(b), 0);
  }

  // ---------- which steps the advisor answers ----------

  /** How many of the positions `at` are before `j`. */
  function Earlier(at: seq<nat>, j: nat): nat {
    if at == [] then 0 else Earlier(at[..|at| - 1], j) + if at[|at| - 1] < j then 1 else 0
  }

  lemma {:induction false} EarlierAll(at: seq<nat>, j: nat)
    requires forall k :: 0 <= k < |at| ==> at[k] < j
    ensures Earlier(at, j) == |at|
  {
    if at != [] {
      EarlierAll(at[..|at| - 1], j);
    }
  }

  lemma {:induction false} EarlierSnoc(at: seq<nat>, n: nat, j: nat)
    ensures Earlier(at + [n], j) == Earlier(at, j) + if n < j then 1 else 0
  {
    assert (at + [n])[..|at|] == at;
  }

  predicate Among(at: seq<nat>, j: nat) {
    exists k :: 0 <= k < |at| && at[k] == j
  }

  lemma {:induction false} AmongSnoc(at: seq<nat>, n: nat, j: nat)
    ensures Among(at + [n], j) <==> Among(at, j) || j == n
  {
    if Among(at, j) {
      var k :| 0 <= k < |at| && at[k] == j;
      assert (at + [n])[k] == j;
    }
    assert (at + [n])[|at|] == n;
    if Among(at + [n], j) && j != n {
      var k :| 0 <= k < |at + [n]| && (at + [n])[k] == j;
      assert at[k] == j;
    }
  }

  /** The step asks for the advisor: by its action, or by the escalation hint the plan prompt offers. */
  predicate Asks(step: PlanStep) {
    step.action == Some("ASK_ADVISOR") || step.escalate
  }

  /** The advisor's answer to step `j` as a leaf call, and as an advisor call. */
  predicate IsAdvice(call: LeafCall, step: PlanStep, chat: Chat, model: string) {
    && call.subtask == step.taskLabel && call.taskType == step.taskType && call.modelId == model && call.escalated
    && call.output == chat.text && call.promptTokens == 0 && call.completionTokens == 0
  }

  predicate IsConsultation(call: AdvisorCall, step: PlanStep, chat: Chat, model: string) {
    && call.question == (if step.question.Some? then step.question.value else step.input)
    && call.promptTokens == chat.promptTokens && call.completionTokens == chat.completionTokens && call.model == model
  }

  /** Step `j` is answered by the advisor exactly when it asks, fewer than K were answered before, and it answers. */
  ghost predicate DulyAdvised(at: seq<nat>, s: Setting, step: PlanStep, j: nat)
    requires s.opts.advisor.Some?
  {
    Among(at, j) <==> Asks(step) && Earlier(at, j) < s.opts.advisorK && s.opts.advisor.value(j).Ok?
  }

  /** The steps `at`, in order, are those the advisor answered; every other executed step is the executor's. */
  ghost predicate Advised(at: seq<nat>, s: Setting, steps: seq<PlanStep>, st: LoopState)
    requires s.opts.advisor.Some? && s.exec.Injected?
  {
    && |st.leafCalls| <= |steps|
    && Consulted(at, s, steps, st.advisorCalls, |st.leafCalls|)
    && (forall j :: 0 <= j < |st.leafCalls| ==> DulyAdvised(at, s, steps[j], j))
    && (forall j :: 0 <= j < |st.leafCalls| ==> AnsweredBy(at, s, steps[j], j, st.leafCalls[j]))
  }

  /** The advisor calls are, in order, those for the steps `at`, all before `n`. */
  ghost predicate Consulted(at: seq<nat>, s: Setting, steps: seq<PlanStep>, calls: seq<AdvisorCall>, n: nat)
    requires s.opts.advisor.Some? && n <= |steps|
  {
    && |calls| == |at|
    && (forall k, m :: 0 <= k < m < |at| ==> at[k] < at[m])
    && (forall k :: 0 <= k < |at| ==> at[k] < n && s.opts.advisor.value(at[k]).Ok?)
    && (forall k :: 0 <= k < |at| ==>
          IsConsultation(calls[k], steps[at[k]], s.opts.advisor.value(at[k]).value, s.opts.escalationModel))
  }

  lemma {:induction false} ConsultedSnoc(
    at: seq<nat>, s: Setting, steps: seq<PlanStep>, calls: seq<AdvisorCall>, n: nat, call: AdvisorCall, chat: Chat)
    requires s.opts.advisor.Some? && n < |steps| && Consulted(at, s, steps, calls, n)
    requires s.opts.advisor.value(n) == Ok(chat) && IsConsultation(call, steps[n], chat, s.opts.escalationModel)
    ensures Consulted(at + [n], s, steps, calls + [call], n + 1)
  {
    var at', calls' := at + [n], calls + [call];
    forall k | 0 <= k < |at'|
      ensures at'[k] < n + 1 && s.opts.advisor.value(at'[k]).Ok?
      ensures IsConsultation(calls'[k], steps[at'[k]], s.opts.advisor.value(at'[k]).value, s.opts.escalationModel)
    {
      if k < |at| {
        assert at'[k] == at[k] && calls'[k] == calls[k];
      }
    }
  }

  ghost predicate AnsweredBy(at: seq<nat>, s: Setting, step: PlanStep, j: nat, call: LeafCall)
    requires s.opts.advisor.Some? && s.exec.Injected?
  {
    if Among(at, j) then
      s.opts.advisor.value(j).Ok? && IsAdvice(call, step, s.opts.advisor.value(j).value, s.opts.escalationModel)
    else s.exec.reply(j) == Ok(call)
  }

  /** An ungrounded run of the advisor arm that has an advisor. */
  predicate Advisable(s: Setting) {
    s.opts.arm.A3? && s.corpus.None? && s.opts.advisor.Some? && s.exec.Injected?
  }

  lemma {:induction false} AdviceTaken(at: seq<nat>, s: Setting, steps: seq<PlanStep>, st: LoopState, chat: Chat)
    requires Advisable(s) && Advised(at, s, steps, st) && |st.leafCalls| < |steps|
    requires s.opts.advisor.value(|st.leafCalls|) == Ok(chat)
    requires Asks(steps[|st.leafCalls|]) && |at| < s.opts.advisorK
    ensures Advised(at + [|st.leafCalls|], s, steps, AfterAdvice(st, s, steps[|st.leafCalls|], chat))
  {
    var n := |st.leafCalls|;
    var at', next := at + [n], AfterAdvice(st, s, steps[n], chat);
    EarlierAll(at, n);
    ConsultedSnoc(at, s, steps, st.advisorCalls, n, next.advisorCalls[|at|], chat);
    forall j | 0 <= j < n + 1
      ensures DulyAdvised(at', s, steps[j], j) && AnsweredBy(at', s, steps[j], j, next.leafCalls[j])
    {
      EarlierSnoc(at, n, j);
      AmongSnoc(at, n, j);
      if j < n {
        assert DulyAdvised(at, s, steps[j], j) && AnsweredBy(at, s, steps[j], j, st.leafCalls[j]);
      }
    }
  }

  lemma {:induction false} LeafTaken(at: seq<nat>, s: Setting, steps: seq<PlanStep>, st: LoopState, call: LeafCall)
    requires Advisable(s) && Advised(at, s, steps, st) && |st.leafCalls| < |steps|
    requires s.exec.reply(|st.leafCalls|) == Ok(call)
    requires !(Asks(steps[|st.leafCalls|]) && |at| < s.opts.advisorK && s.opts.advisor.value(|st.leafCalls|).Ok?)
    ensures Advised(at, s, steps, st.(leafCalls := st.leafCalls + [call]))
  {
    var n, next := |st.leafCalls|, st.(leafCalls := st.leafCalls + [call]);
    EarlierAll(at, n);
    forall j | 0 <= j < n + 1
      ensures DulyAdvised(at, s, steps[j], j) && AnsweredBy(at, s, steps[j], j, next.leafCalls[j])
    {
      if j < n {
        assert DulyAdvised(at, s, steps[j], j) && AnsweredBy(at, s, steps[j], j, st.leafCalls[j]);
      }
    }
  }

  lemma {:induction false} AdvisedStays(at: seq<nat>, s: Setting, steps: seq<PlanStep>, st: LoopState, st': LoopState)
    requires Advisable(s) && Advised(at, s, steps, st)
    requires st'.leafCalls == st.leafCalls && st'.advisorCalls == st.advisorCalls
    ensures Advised(at, s, steps, st')
  {
  }

  lemma {:induction false} StepAdvised(at: seq<nat>, st: LoopState, s: Setting, steps: seq<PlanStep>, i: nat)
    returns (out: seq<nat>)
    requires WellWired(s) && Advisable(s) && i < |steps| && Advised(at, s, steps, st) && |st.leafCalls| == i
    ensures (out == at || out == at + [i]) && Advised(out, s, steps, OneStep(st, s, i, steps[i]).0)
    ensures OneStep(st, s, i, steps[i]).1 ==> |OneStep(st, s, i, steps[i]).0.leafCalls| == i + 1
  {
    var step, next := steps[i], OneStep(st, s, i, steps[i]).0;
    var reply := s.exec.reply(i);
    if Intercepts(s, step, |at|) && s.opts.advisor.value(i).Ok? {
      out := at + [i];
      AdviceTaken(at, s, steps, st, s.opts.advisor.value(i).value);
    } else {
      out := at;
      if reply.Ok? {
        LeafTaken(at, s, steps, st, reply.value);
        AdvisedStays(at, s, steps, st.(leafCalls := st.leafCalls + [reply.value]), next);
      } else {
        AdvisedStays(at, s, steps, st, next);
      }
    }
  }

  lemma {:induction false} ExecuteAdvised(at: seq<nat>, st: LoopState, s: Setting, steps: seq<PlanStep>, i: nat)
    returns (out: seq<nat>)
    requires WellWired(s) && Advisable(s) && i <= |steps| && Advised(at, s, steps, st) && |st.leafCalls| == i
    ensures Advised(out, s, steps, Execute(st, s, steps, i))
    decreases |steps| - i
  {
    out := at;
    if i < |steps| {
      out := StepAdvised(at, st, s, steps, i);
      var (next, goOn) := OneStep(st, s, i, steps[i]);
      if goOn {
        out := ExecuteAdvised(out, next, s, steps, i + 1);
      }
    }
  }

  /** In every ungrounded advisor run the advisor answers exactly the steps it should, and the executor the others. */
  lemma {:induction false} AdvisorAnswersExactly(b: Brain, s: Setting, read: set<nat>) returns (at: seq<nat>)
    requires WellWired(s) && Advisable(s)
    ensures Advised(at, s, PlanOf(b), Executed(b, s, read))
  {
    at := ExecuteAdvised([], LoopState([], [], PlanError(b), read), s, PlanOf(b), 0);
  }

  /** Some step before `n` that was to be put to the advisor met with an error there. */
  ghost predicate Troubled(at: seq<nat>, s: Setting, steps: seq<PlanStep>, n: nat)
    requires s.opts.advisor.Some? && n <= |steps|
  {
    exists j: nat :: j < n && Snubbed(at, s, steps[j], j)
  }

  ghost predicate Snubbed(at: seq<nat>, s: Setting, step: PlanStep, j: nat)
    requires s.opts.advisor.Some?
  {
    Asks(step) && Earlier(at, j) < s.opts.advisorK && s.opts.advisor.value(j).Threw?
  }

  lemma {:induction false} TroubleStep(at: seq<nat>, s: Setting, steps: seq<PlanStep>, n: nat)
    requires s.opts.advisor.Some? && n < |steps| && forall k :: 0 <= k < |at| ==> at[k] < n
    ensures Troubled(at, s, steps, n + 1) <==> Troubled(at, s, steps, n) || Snubbed(at, s, steps[n], n)
    ensures Snubbed(at, s, steps[n], n) <==>
              (Asks(steps[n]) && |at| < s.opts.advisorK && s.opts.advisor.value(n).Threw?)
  {
    EarlierAll(at, n);
  }

  /** What one step does to the error of a run. */
  lemma {:induction false} StepErrs(st: LoopState, s: Setting, steps: seq<PlanStep>, i: nat, at: seq<nat>)
    requires WellWired(s) && Advisable(s) && i < |steps| && |st.advisorCalls| == |at|
    requires forall k :: 0 <= k < |at| ==> at[k] < i
    ensures var (next, goOn) := OneStep(st, s, i, steps[i]);
            if goOn then next.runtimeError.Some? <==> st.runtimeError.Some? || Snubbed(at, s, steps[i], i)
            else next.runtimeError.Some? && next.leafCalls == st.leafCalls
  {
    TroubleStep(at, s, steps, i);
  }

  lemma {:induction false} ExecuteErrs(
    at: seq<nat>, st: LoopState, s: Setting, steps: seq<PlanStep>, i: nat, failed: bool)
    returns (out: seq<nat>)
    requires WellWired(s) && Advisable(s) && i <= |steps| && Advised(at, s, steps, st) && |st.leafCalls| == i
    requires st.runtimeError.Some? <==> failed || Troubled(at, s, steps, i)
    ensures var end := Execute(st, s, steps, i);
            && Advised(out, s, steps, end)
            && (end.runtimeError.Some? <==>
                  failed || |end.leafCalls| < |steps| || Troubled(out, s, steps, |end.leafCalls|))
    decreases |steps| - i
  {
    out := at;
    if i < |steps| {
      out := StepAdvised(at, st, s, steps, i);
      StepErrs(st, s, steps, i, at);
      TroubleStep(at, s, steps, i);
      var (next, goOn) := OneStep(st, s, i, steps[i]);
      if goOn {
        if out != at {
          TroubleGrows(at, s, steps, i);
        }
        out := ExecuteErrs(out, next, s, steps, i + 1, failed);
      }
    }
  }

  lemma {:induction false} TroubleGrows(at: seq<nat>, s: Setting, steps: seq<PlanStep>, n: nat)
    requires s.opts.advisor.Some? && n < |steps| && forall k :: 0 <= k < |at| ==> at[k] < n
    ensures Troubled(at + [n], s, steps, n + 1) <==> Troubled(at, s, steps, n + 1)
  {
    forall j: nat | j <= n ensures Snubbed(at + [n], s, steps[j], j) <==> Snubbed(at, s, steps[j], j) {
      EarlierSnoc(at, n, j);
    }
    if Troubled(at, s, steps, n + 1) {
      var j: nat :| j < n + 1 && Snubbed(at, s, steps[j], j);
      assert Snubbed(at + [n], s, steps[j], j);
    }
  }

  /** A run has an error exactly when planning failed, it was cut short, or the advisor failed a step put to it. */
  lemma {:induction false} ErrorsAreRecorded(b: Brain, s: Setting, read: set<nat>) returns (at: seq<nat>)
    requires WellWired(s) && Advisable(s)
    ensures var end := Executed(b, s, read);
            && Advised(at, s, PlanOf(b), end)
            && (end.runtimeError.Some? <==>
                  !b.planning.Planned? || |end.leafCalls| < |PlanOf(b)| || Troubled(at, s, PlanOf(b), |end.leafCalls|))
  {
    at := ExecuteErrs([], LoopState([], [], PlanError(b), read), s, PlanOf(b), 0, !b.planning.Planned?);
  }

  /** The asking steps among the first `n`, in order. */
  function Asking(steps: seq<PlanStep>, n: nat): seq<nat>
    requires n <= |steps|
  {
    if n == 0 then [] else Asking(steps, n - 1) + if Asks(steps[n - 1]) then [n - 1] else []
  }

  lemma {:induction false} AskingAre(steps: seq<PlanStep>, n: nat)
    requires n <= |steps|
    ensures forall k, m :: 0 <= k < m < |Asking(steps, n)| ==> Asking(steps, n)[k] < Asking(steps, n)[m]
    ensures forall k :: 0 <= k < |Asking(steps, n)| ==> Asking(steps, n)[k] < n && Asks(steps[Asking(steps, n)[k]])
    ensures forall j :: 0 <= j < n && Asks(steps[j]) ==> Among(Asking(steps, n), j)
  {
    if n > 0 {
      AskingAre(steps, n - 1);
      var rest := Asking(steps, n - 1);
      forall j | 0 <= j < n && Asks(steps[j]) ensures Among(Asking(steps, n), j) {
        AmongSnoc(rest, n - 1, j);
        if !Asks(steps[n - 1]) {
          assert rest + [] == rest;
        }
      }
    }
  }

  /** Advisor and executor never throw. */
  ghost predicate NeverThrows(s: Setting)
    requires s.opts.advisor.Some? && s.exec.Injected?
  {
    forall j: nat :: s.opts.advisor.value(j).Ok? && s.exec.reply(j).Ok?
  }

  /** The first K asking steps so far were put to the advisor, in order. */
  ghost predicate AskedInOrder(s: Setting, steps: seq<PlanStep>, n: nat, calls: seq<AdvisorCall>)
    requires n <= |steps|
  {
    var asks := Asking(steps, n);
    && |calls| == (if |asks| <= s.opts.advisorK then |asks| else s.opts.advisorK)
    && forall k :: 0 <= k < |calls| ==> asks[k] < |steps| && PutsQuestion(calls[k], steps[asks[k]])
  }

  predicate PutsQuestion(call: AdvisorCall, step: PlanStep) {
    call.question == if step.question.Some? then step.question.value else step.input
  }

  lemma {:induction false} ExecuteAsksInOrder(st: LoopState, s: Setting, steps: seq<PlanStep>, i: nat)
    requires WellWired(s) && Advisable(s) && NeverThrows(s) && i <= |steps|
    requires AskedInOrder(s, steps, i, st.advisorCalls)
    ensures AskedInOrder(s, steps, |steps|, Execute(st, s, steps, i).advisorCalls)
    decreases |steps| - i
  {
    if i < |steps| {
      var (next, goOn) := OneStep(st, s, i, steps[i]);
      assert s.opts.advisor.value(i).Ok? && s.exec.reply(i).Ok?;
      AskingAre(steps, i);
      assert Asking(steps, i + 1) == Asking(steps, i) + if Asks(steps[i]) then [i] else [];
      ExecuteAsksInOrder(next, s, steps, i + 1);
    }
  }

  /** When nothing throws, the advisor is called min(K, asking steps) times, with their questions in order. */
  lemma {:induction false} FirstAskersAreAdvised(b: Brain, s: Setting, read: set<nat>)
    requires WellWired(s) && Advisable(s) && NeverThrows(s)
    ensures AskedInOrder(s, PlanOf(b), |PlanOf(b)|, Executed(b, s, read).advisorCalls)
  {
    ExecuteAsksInOrder(LoopState([], [], PlanError(b), read), s, PlanOf(b), 0);
  }

  /** The executor never escalates a leaf. */
  ghost predicate SubstrateOnly(exec: LeafExecutor) {
    exec.Injected? ==> forall i :: exec.reply(i).Ok? ==> !exec.reply(i).value.escalated
  }

  lemma {:induction false} LeafEscalatesNothing(st: LoopState, s: Setting, i: nat, step: PlanStep)
    requires WellWired(s) && SubstrateOnly(s.exec)
    ensures EscalatedTokens(AfterLeaf(st, s, i, step).0.leafCalls) == EscalatedTokens(st.leafCalls)
  {
    var (reply, read) := CallLeaf(s, i, step, st.readIds);
    if reply.Ok? {
      LeafTokensSnoc(st.leafCalls, reply.value);
    }
  }

  /** Advice counts as a leaf of no tokens, and a substrate leaf is not escalated. */
  lemma {:induction false} StepEscalatesNothing(st: LoopState, s: Setting, i: nat, step: PlanStep)
    requires WellWired(s) && SubstrateOnly(s.exec)
    ensures EscalatedTokens(OneStep(st, s, i, step).0.leafCalls) == EscalatedTokens(st.leafCalls)
  {
    if !Intercepts(s, step, |st.advisorCalls|) {
      LeafEscalatesNothing(st, s, i, step);
    } else {
      match s.opts.advisor.value(i) {
        case Ok(chat) =>
          LeafTokensSnoc(st.leafCalls,
                         LeafCall(step.taskLabel, step.taskType, s.opts.escalationModel, true, chat.text, 0, 0));
        case Threw(m) =>
          LeafEscalatesNothing(st.(runtimeError := FirstError(st.runtimeError, "advisor-error: " + m)), s, i, step);
      }
    }
  }

  lemma {:induction false} ExecuteEscalatesNothing(st: LoopState, s: Setting, steps: seq<PlanStep>, i: nat)
    requires WellWired(s) && i <= |steps| && SubstrateOnly(s.exec)
    ensures EscalatedTokens(Execute(st, s, steps, i).leafCalls) == EscalatedTokens(st.leafCalls)
    decreases |steps| - i
  {
    if i < |steps| {
      StepEscalatesNothing(st, s, i, steps[i]);
      var (next, goOn) := OneStep(st, s, i, steps[i]);
      if goOn {
        ExecuteEscalatesNothing(next, s, steps, i + 1);
      }
    }
  }

  /** With a substrate-only executor the frontier share is the advisor's spend, not a token more. */
  lemma {:induction false} FrontierIsAdvisorOnly(family: Family, b: Brain, s: Setting, read: set<nat>)
    requires WellWired(s) && SubstrateOnly(s.exec)
    ensures var t := RunTrace(family, b, s, read); FrontierTokens(t) == AdvisorTokens(t.advisorCalls)
  {
    ExecuteEscalatesNothing(LoopState([], [], PlanError(b), read), s, PlanOf(b), 0);
  }

  // ---------- every step once, in order ----------

  /** Call `c` answers step `i`: it is the executor's own reply, or the advisor's answer under the step's label. */
  ghost predicate Answers(s: Setting, i: nat, step: PlanStep, c: LeafCall)
    requires WellWired(s)
  {
    || (exists read: set<nat> :: CallLeaf(s, i, step, read).0 == Ok(c))
    || (s.opts.advisor.Some? && s.opts.advisor.value(i).Ok?
        && c == LeafCall(step.taskLabel, step.taskType, s.opts.escalationModel, true,
                         s.opts.advisor.value(i).value.text, 0, 0))
  }

  /** The calls so far answer the first steps, one each. */
  ghost predicate InStep(st: LoopState, s: Setting, steps: seq<PlanStep>)
    requires WellWired(s)
  {
    |st.leafCalls| <= |steps| && forall k :: 0 <= k < |st.leafCalls| ==> Answers(s, k, steps[k], st.leafCalls[k])
  }

  lemma {:induction false} OneStepInStep(st: LoopState, s: Setting, steps: seq<PlanStep>, i: nat)
    requires WellWired(s) && i < |steps| && InStep(st, s, steps) && |st.leafCalls| == i
    ensures var (next, goOn) := OneStep(st, s, i, steps[i]);
            && InStep(next, s, steps)
            && (if goOn then |next.leafCalls| == i + 1 else |next.leafCalls| == i && next.runtimeError.Some?)
            && (st.runtimeError.Some? ==> next.runtimeError == st.runtimeError)
            && (st.runtimeError.None? && next.runtimeError.Some? ==> next.runtimeError.value != "")
  {
    var (next, goOn) := OneStep(st, s, i, steps[i]);
    if goOn {
      var c := next.leafCalls[i];
      if CallLeaf(s, i, steps[i], st.readIds).0 == Ok(c) {
        assert Answers(s, i, steps[i], c);
      }
    }
  }

  lemma {:induction false} ExecuteInStep(st: LoopState, s: Setting, steps: seq<PlanStep>, i: nat)
    requires WellWired(s) && i <= |steps| && InStep(st, s, steps) && |st.leafCalls| == i
    ensures var end := Execute(st, s, steps, i);
            && InStep(end, s, steps)
            && (end.runtimeError.None? ==> |end.leafCalls| == |steps|)
            && (st.runtimeError.Some? ==> end.runtimeError == st.runtimeError)
            && (st.runtimeError.None? && end.runtimeError.Some? ==> end.runtimeError.value != "")
    decreases |steps| - i
  {
    if i < |steps| {
      OneStepInStep(st, s, steps, i);
      var (next, goOn) := OneStep(st, s, i, steps[i]);
      if goOn {
        ExecuteInStep(next, s, steps, i + 1);
      }
    }
  }

  /**
   Leaf calls always answer a prefix of the plan in order; without a runtime error they answer all of it.
   A run cut short is an error collapse, whatever else it produced.
   */
  lemma {:induction false} CutShortIsError(family: Family, b: Brain, s: Setting, read: set<nat>)
    requires WellWired(s)
    ensures var t := RunTrace(family, b, s, read);
            && |t.leafCalls| <= |t.plan| && |t.plan| == |PlanOf(b)|
            && (forall k :: 0 <= k < |t.leafCalls| ==> Answers(s, k, PlanOf(b)[k], t.leafCalls[k]))
            && (t.runtimeError.None? ==> |t.leafCalls| == |t.plan|)
            && (t.runtimeError.Some? ==> Scorer.CollapseOf(family, t) == Scorer.RunError)
            && (|t.leafCalls| < |t.plan| ==> Scorer.CollapseOf(family, t) == Scorer.RunError)
  {
    ExecuteInStep(LoopState([], [], PlanError(b), read), s, PlanOf(b), 0);
    FinishKeepsErrors(family, b, s, Executed(b, s, read));
  }

  /** The trace reports the calls and any error of the execute stage, and an error is an error collapse. */
  lemma {:induction false} FinishKeepsErrors(family: Family, b: Brain, s: Setting, st: LoopState)
    requires st.runtimeError.Some? ==> st.runtimeError.value != ""
    ensures var t := Finish(family, b, s, st);
            && t.leafCalls == st.leafCalls && |t.plan| == |PlanOf(b)|
            && (st.runtimeError.Some? ==> t.runtimeError.Some?)
            && (t.runtimeError.Some? ==> Scorer.CollapseOf(family, t) == Scorer.RunError)
  {
  }

  // ---------- grounded runs ----------

  /** Sources read so far: one new one per step until none is left. */
  ghost predicate ReadsDistinct(read: set<nat>, size: nat, steps: nat) {
    (forall k :: k in read ==> k < size) && |read| == if steps <= size then steps else size
  }

  lemma {:induction false} PickReadsNew(read: set<nat>, size: nat, score: nat -> nat, steps: nat)
    requires size > 0 && ReadsDistinct(read, size, steps)
    ensures ReadsDistinct(read + {Pick(read, size, score)}, size, steps + 1)
  {
    var p, all := Pick(read, size, score), Below(size);
    CountBelow(size);
    assert read <= all;
    if p in read {
      assert read == all by {
        forall k | k in all ensures k in read { }
      }
      assert read + {p} == read;
    } else {
      assert p in all - read;
      Subset(read, all);
    }
  }

  lemma {:induction false} Subset(a: set<nat>, b: set<nat>)
    requires a <= b
    ensures |b| == |a| + |b - a|
  {
    assert b == a + (b - a);
  }

  function Below(n: nat): set<nat> {
    if n == 0 then {} else Below(n - 1) + {n - 1}
  }

  lemma {:induction false} CountBelow(n: nat)
    ensures |Below(n)| == n && forall k: nat :: k in Below(n) <==> k < n
  {
    if n > 0 {
      CountBelow(n - 1);
    }
  }

  lemma {:induction false} GroundedStep(st: LoopState, s: Setting, i: nat, step: PlanStep)
    requires WellWired(s) && s.exec.Grounded?
    ensures var (next, goOn) := OneStep(st, s, i, step);
            if goOn then
              && s.corpus.value > 0
              && next.readIds == st.readIds + {Pick(st.readIds, s.corpus.value, Overlap(s.exec, i))}
            else next.runtimeError.Some?
  {
    assert !Intercepts(s, step, |st.advisorCalls|);
  }

  lemma {:induction false} GroundedReads(st: LoopState, s: Setting, steps: seq<PlanStep>, i: nat)
    requires WellWired(s) && s.exec.Grounded? && i <= |steps|
    requires ReadsDistinct(st.readIds, s.corpus.value, i)
    requires Execute(st, s, steps, i).runtimeError.None?
    ensures ReadsDistinct(Execute(st, s, steps, i).readIds, s.corpus.value, |steps|)
    decreases |steps| - i
  {
    if i < |steps| {
      var size := s.corpus.value;
      var (next, goOn) := OneStep(st, s, i, steps[i]);
      GroundedStep(st, s, i, steps[i]);
      PickReadsNew(st.readIds, size, Overlap(s.exec, i), i);
      GroundedReads(next, s, steps, i + 1);
    }
  }

  /**
   A grounded D1 run without an error and with output reads min(plan length, corpus size) distinct sources,
   and is scored under-read exactly when five times the plan is less than three times the corpus.
   */
  lemma {:induction false} GroundedRunReadsItsPlan(b: Brain, s: Setting)
    requires WellWired(s) && s.exec.Grounded? && ValidBrain(b)
    ensures var t := RunTrace(D1, b, s, {});
            t.runtimeError.None? && !Scorer.BlankOutput(D1, t) ==>
              var n, size := |t.plan|, s.corpus.value;
              && t.sourcesRead == Some(if n <= size then n else size)
              && (Scorer.CollapseOf(D1, t) == Scorer.UnderRead <==> 5 * n < 3 * size)
  {
    var end := Executed(b, s, {});
    GroundedFinish(b, s, end);
    if end.runtimeError.None? {
      GroundedReads(LoopState([], [], PlanError(b), {}), s, PlanOf(b), 0);
    }
  }

  /** What a grounded run with output and no error reports of its reads. */
  lemma {:induction false} GroundedFinish(b: Brain, s: Setting, st: LoopState)
    requires s.corpus.Some?
    ensures var t := Finish(D1, b, s, st);
            && |t.plan| == |PlanOf(b)|
            && (t.runtimeError.None? && !Scorer.BlankOutput(D1, t) ==>
                  && st.runtimeError.None?
                  && t.sourcesRead == Some(|st.readIds|) && t.corpusSize == s.corpus
                  && (Scorer.CollapseOf(D1, t) == Scorer.UnderRead <==> Scorer.ReadsTooFew(D1, t)))
  {
  }

  // ---------- the metered leaf executor ----------

  /** What the local substrate reports back. */
  datatype Delegation = Delegation(
    escalate: bool, modelId: string, output: string, promptTokens: nat, completionTokens: nat)

  /** The brain's hint or the substrate's policy sends the leaf to the frontier, if there is a channel to it. */
  function RealLeaf(
    step: PlanStep, frontier: Option<Reply<Chat>>, local: Reply<Delegation>, escalationModel: string): Reply<LeafCall>
  {
    if step.escalate && frontier.Some? then FrontierLeaf(step, frontier.value, escalationModel)
    else
      match local
      case Threw(m) => Threw(m)
      case Ok(d) =>
        if d.escalate && frontier.Some? then FrontierLeaf(step, frontier.value, escalationModel)
        else Ok(LeafCall(step.taskLabel, step.taskType, d.modelId, false, d.output, d.promptTokens, d.completionTokens))
  }

  function FrontierLeaf(step: PlanStep, r: Reply<Chat>, escalationModel: string): Reply<LeafCall> {
    match r
    case Threw(m) => Threw(m)
    case Ok(c) =>
      Ok(LeafCall(step.taskLabel, step.taskType, if escalationModel == "" then "FRONTIER" else escalationModel, true,
                  c.text, c.promptTokens, c.completionTokens))
  }

  /** The tokens of the calls the executor actually makes for a leaf. */
  function Spent(step: PlanStep, frontier: Option<Reply<Chat>>, local: Reply<Delegation>): nat {
    var front := if frontier.Some? && frontier.value.Ok? then ChatTokens(frontier.value.value) else 0;
    if step.escalate && frontier.Some? then front
    else if local.Threw? then 0
    else local.value.promptTokens + local.value.completionTokens + if local.value.escalate then front else 0
  }

  /**
   A leaf is marked escalated exactly when the frontier answered it, and meters all it spent unless the
   substrate escalated after a local attempt that itself cost tokens: those tokens are not counted.
   */
  lemma {:induction false} RealLeafMetering(
    step: PlanStep, frontier: Option<Reply<Chat>>, local: Reply<Delegation>, model: string)
    requires RealLeaf(step, frontier, local, model).Ok?
    ensures var call := RealLeaf(step, frontier, local, model).value;
            && (call.escalated <==> frontier.Some? && (step.escalate || local.value.escalate))
            && call.subtask == step.taskLabel && call.taskType == step.taskType
            && (call.escalated ==> call.output == frontier.value.value.text
                                   && call.modelId == (if model == "" then "FRONTIER" else model))
            && (!call.escalated ==> call.output == local.value.output && call.modelId == local.value.modelId)
            && (call.promptTokens + call.completionTokens == Spent(step, frontier, local) <==>
                (call.escalated && !step.escalate ==> local.value.promptTokens + local.value.completionTokens == 0))
  {
  }

  /** Lost tokens: the substrate escalates after a local attempt of 12 tokens, and the leaf meters the frontier's 30. */
  lemma {:induction false} LocalAttemptIsLost()
    returns (step: PlanStep, frontier: Option<Reply<Chat>>, local: Reply<Delegation>, call: LeafCall)
    ensures RealLeaf(step, frontier, local, "frontier") == Ok(call) && call.escalated
    ensures call.promptTokens + call.completionTokens == 30 && Spent(step, frontier, local) == 42
  {
    step := PlanStep("count", "sql", "", false, None, None);
    frontier, local := Some(Ok(Chat("", 10, 20))), Ok(Delegation(true, "local", "", 5, 7));
    call := RealLeaf(step, frontier, local, "frontier").value;
  }

  /** Without a frontier channel the executor is substrate-only, so the frontier share is the advisor's. */
  lemma {:induction false} NoChannelIsSubstrateOnly(
    steps: seq<PlanStep>, local: nat -> Reply<Delegation>, model: string, reply: nat -> Reply<LeafCall>)
    requires forall i: nat :: reply(i)
               == if i < |steps| then RealLeaf(steps[i], None, local(i), model) else Threw("no step")
    ensures SubstrateOnly(Injected(reply))
  {
  }
}
