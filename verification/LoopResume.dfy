/**
 Resuming from a continuation, and when that run ends exactly as the uninterrupted one.
 */
module LoopResume {
  import opened Wrappers
  import opened Messages
  import opened TokenUsage
  import opened Continuations
  import opened AgentLoop
  import opened LoopInvariant
  import opened LoopLimits

  function StateOf(c: Continuation): State {
    State(c.messages, c.steps, c.usage, c.context, c.toolCallsUsed, c.nextTurn)
  }

  function LastThinking(ms: seq<Message>): string {
    if ms == [] then ""
    else if ms[|ms| - 1].role.Assistant? then ms[|ms| - 1].thinking
    else LastThinking(ms[..|ms| - 1])
  }

  /** The state before the step a boundary was observed in: its last message and step undone. */
  function Popped(c: Continuation): State
    requires c.messages != [] && c.steps != []
  {
    StateOf(c).(messages := c.messages[..|c.messages| - 1], steps := c.steps[..|c.steps| - 1])
  }

  function CarryOn(cfg: Config, pass: Pass, script: seq<Answers>): Outcome {
    if pass.outcome.Stopped? then pass.outcome else RunMessages(cfg, pass.outcome.s, script).outcome
  }

  predicate Resumable(c: Continuation) {
    match c.phase
    case Ready => true
    case ToolsComplete => c.steps != []
    case ModelComplete =>
      c.messages != [] && c.messages[|c.messages| - 1].toolCalls != [] && c.steps != [] && c.steps[|c.steps| - 1].call.Some?
    case ValidatingOutput => c.messages != [] && c.steps != [] && c.steps[|c.steps| - 1].call.Some?
    case UnknownPhase => false
  }

  /** `a` answers what is left of the interrupted turn, `script` the passes after it. */
  function ResumeLoop(cfg: Config, c: Continuation, a: Answers, script: seq<Answers>): Outcome
    requires Resumable(c)
  {
    match c.phase
    case Ready => RunMessages(cfg, StateOf(c), script).outcome
    case ModelComplete =>
      var assistant := c.messages[|c.messages| - 1];
      var operation := assistant.toolCalls[0].operation;
      var turn := if operation.Operation? then operation.turn else 0;
      CarryOn(cfg, ToolTurn(cfg, Popped(c), assistant, c.steps[|c.steps| - 1].call.value, turn, a), script)
    case ToolsComplete =>
      (match c.steps[|c.steps| - 1].decision
       case Finish => Stopped(Finished(Complete), |c.steps|, LastThinking(c.messages), StateOf(c))
       case Fail => Stopped(StepAborted, |c.steps|, LastThinking(c.messages), StateOf(c))
       case _ => RunMessages(cfg, StateOf(c), script).outcome)
    case ValidatingOutput =>
      CarryOn(cfg, AnswerTurn(cfg, Popped(c), c.messages[|c.messages| - 1], c.steps[|c.steps| - 1].call.value, a), script)
  }

  /* ---------- passes compose ---------- */

  /** The rest of a run after one of its passes. */
  lemma RunUnfolds(cfg: Config, s: State, a: Answers, script: seq<Answers>)
    requires IterationAllowed(cfg, |s.steps|)
    ensures var pass := OnePass(cfg, s, a);
      Run(cfg, s, [a] + script).outcome == (if pass.outcome.Stopped? then pass.outcome else Run(cfg, pass.outcome.s, script).outcome)
  {
    hide OnePass;
    assert ([a] + script)[1..] == script;
  }

  /** A good state runs on as it is: entering the loop changes nothing. */
  lemma EntersUnchanged(cfg: Config, s: State, script: seq<Answers>)
    requires Good(s)
    ensures RunMessages(cfg, s, script) == Run(Normalize(cfg), s, script)
  {
    hide Good;
    EnterKeeps(s);
  }

  /* ---------- after the model answered ---------- */

  lemma TracesSame(calls: seq<ToolCall>, numbered: seq<ToolCall>, results: seq<ToolResult>)
    requires |numbered| == |calls| && forall k :: 0 <= k < |calls| ==> numbered[k] == calls[k].(operation := numbered[k].operation)
    ensures TracesOf(numbered, results) == TracesOf(calls, results)
  {
  }

  lemma TerminalSame(cfg: Config, calls: seq<ToolCall>, numbered: seq<ToolCall>, results: seq<ToolResult>)
    requires |numbered| == |calls| && forall k :: 0 <= k < |calls| ==> numbered[k].name == calls[k].name
    ensures TerminalSucceeded(cfg, numbered, results) == TerminalSucceeded(cfg, calls, results)
  {
    if TerminalSucceeded(cfg, numbered, results) {
      var k :| 0 <= k < |numbered| && k < |results| && !results[k].isError && cfg.terminal(numbered[k].name);
      assert cfg.terminal(calls[k].name);
    }
    if TerminalSucceeded(cfg, calls, results) {
      var k :| 0 <= k < |calls| && k < |results| && !results[k].isError && cfg.terminal(calls[k].name);
      assert cfg.terminal(numbered[k].name);
    }
  }

  /** Numbering the calls of a turn twice is numbering them once. */
  lemma ToolTurnRenumbered(cfg: Config, s: State, assistant: Message, call: ModelCall, turn: int, a: Answers)
    ensures ToolTurn(cfg, s, assistant.(toolCalls := NumberCalls(assistant.toolCalls, turn)), call, turn, a)
      == ToolTurn(cfg, s, assistant, call, turn, a)
  {
    hide ValidContinuation, Add, PreDispatchBlock, TracesOf, TerminalSucceeded;
    var calls, numbered := assistant.toolCalls, NumberCalls(assistant.toolCalls, turn);
    assert NumberCalls(numbered, turn) == numbered;
    TracesSame(calls, numbered, a.tools.results);
    TerminalSame(cfg, calls, numbered, a.tools.results);
  }

  /** A tool turn does not look at the turn allowance. */
  lemma ToolTurnNormalized(cfg: Config, s: State, assistant: Message, call: ModelCall, turn: int, a: Answers)
    ensures ToolTurn(Normalize(cfg), s, assistant, call, turn, a) == ToolTurn(cfg, s, assistant, call, turn, a)
  {
    hide ValidContinuation, Add, TracesOf;
  }

  lemma PoppedTools(s: State, assistant: Message, call: ModelCall, turn: int)
    requires assistant.toolCalls != []
    ensures var c := Snapshot(StartTools(s, assistant, call, turn), ModelComplete);
      && Resumable(c) && Popped(c) == s
      && c.messages[|c.messages| - 1] == assistant.(toolCalls := NumberCalls(assistant.toolCalls, turn))
      && c.messages[|c.messages| - 1].toolCalls[0].operation == Operation(turn, 0)
      && c.steps[|c.steps| - 1].call == Some(call)
  {
  }

  /** From a model_complete boundary the interrupted tool turn is redone in full. */
  lemma ResumeModelComplete(cfg: Config, s: State, assistant: Message, call: ModelCall, turn: int, a: Answers, script: seq<Answers>)
    requires assistant.toolCalls != []
    ensures var c := Snapshot(StartTools(s, assistant, call, turn), ModelComplete);
      Resumable(c) && ResumeLoop(cfg, c, a, script) == CarryOn(cfg, ToolTurn(Normalize(cfg), s, assistant, call, turn, a), script)
  {
    hide ToolTurn, CarryOn;
    PoppedTools(s, assistant, call, turn);
    ToolTurnRenumbered(cfg, s, assistant, call, turn, a);
    ToolTurnNormalized(cfg, s, assistant, call, turn, a);
  }

  /* ---------- after a final answer ---------- */

  /** The one answer whose outcome depends on the turn allowance being filled in: a
      guardrail retry, which a resumed run checks against an allowance left unset. */
  predicate AllowanceMatters(cfg: Config, steps: nat, a: Answers) {
    a.verdict.Retry? && a.verdict.messages != [] && !cfg.unlimited && cfg.maxIterations <= 0 && steps < DEFAULT_ITERATIONS
  }

  lemma SettleNormalized(cfg: Config, s: State, base: seq<Message>, assistant: Message, stop: StopReason, a: Answers)
    requires s.steps != []
    ensures AllowanceMatters(cfg, |s.steps|, a) ==>
      Settle(cfg, s, base, assistant, stop, a).Stopped? && Settle(Normalize(cfg), s, base, assistant, stop, a).Running?
    ensures !AllowanceMatters(cfg, |s.steps|, a) ==>
      Settle(cfg, s, base, assistant, stop, a) == Settle(Normalize(cfg), s, base, assistant, stop, a)
  {
    hide RecoveryCount;
  }

  lemma PoppedAnswer(s: State, assistant: Message, call: ModelCall)
    requires assistant.text != "" || assistant.thinking != ""
    ensures var next := s.(messages := AppendFinal(s.messages, assistant), steps := s.steps + [NewStep(s, call, Finish)]);
      var c := Snapshot(next, ValidatingOutput);
      && Resumable(c) && Popped(c) == s && c.messages[|c.messages| - 1] == assistant && c.steps[|c.steps| - 1].call == Some(call)
  {
  }

  function AnswerSnapshot(s: State, assistant: Message, call: ModelCall): Continuation {
    Snapshot(s.(messages := AppendFinal(s.messages, assistant), steps := s.steps + [NewStep(s, call, Finish)]), ValidatingOutput)
  }

  lemma AnswerTurnNormalized(cfg: Config, s: State, assistant: Message, call: ModelCall, a: Answers)
    requires !AllowanceMatters(cfg, |s.steps| + 1, a)
    ensures AnswerTurn(Normalize(cfg), s, assistant, call, a) == AnswerTurn(cfg, s, assistant, call, a)
  {
    hide ValidContinuation, Settle, ConsecutivePauses;
    var next := s.(messages := AppendFinal(s.messages, assistant), steps := s.steps + [NewStep(s, call, Finish)]);
    SettleNormalized(cfg, next, s.messages, assistant, call.stop, a);
  }

  /** From a validating_output boundary the answer is judged again. */
  lemma ResumeValidatingOutput(cfg: Config, s: State, assistant: Message, call: ModelCall, a: Answers, script: seq<Answers>)
    requires assistant.text != "" || assistant.thinking != ""
    requires !AllowanceMatters(cfg, |s.steps| + 1, a)
    ensures var c := AnswerSnapshot(s, assistant, call);
      Resumable(c) && ResumeLoop(cfg, c, a, script) == CarryOn(cfg, AnswerTurn(Normalize(cfg), s, assistant, call, a), script)
  {
    hide AnswerTurn, CarryOn;
    PoppedAnswer(s, assistant, call);
    AnswerTurnNormalized(cfg, s, assistant, call, a);
  }

  /** With the allowance left unset, a guardrail retry that the uninterrupted run grants is
      refused after a resume: the resumed run stops where the other goes on. */
  lemma ResumedRetryRefused(cfg: Config, s: State, assistant: Message, call: ModelCall, a: Answers, script: seq<Answers>)
    requires (assistant.text != "" || assistant.thinking != "") && !call.stop.Pause?
    requires ValidContinuation(AnswerSnapshot(s, assistant, call))
    requires !(cfg.maxTokens > 0 && call.usage.total == 0)
    requires AllowanceMatters(cfg, |s.steps| + 1, a)
    ensures var c := AnswerSnapshot(s, assistant, call);
      && AnswerTurn(Normalize(cfg), s, assistant, call, a).outcome.Running?
      && Resumable(c) && ResumeLoop(cfg, c, a, script).Stopped? && ResumeLoop(cfg, c, a, script).reason.OutputBlocked?
  {
    hide ValidContinuation, RecoveryCount;
    PoppedAnswer(s, assistant, call);
  }

  /* ---------- after the tools ran ---------- */

  lemma {:induction false} ThinkingBehindResults(ms: seq<Message>, results: seq<ToolResult>)
    ensures LastThinking(ms + ResultMessages(results)) == LastThinking(ms)
  {
    if results == [] {
      assert ms + ResultMessages(results) == ms;
    } else {
      var n := |results| - 1;
      assert (ms + ResultMessages(results))[..|ms| + n] == ms + ResultMessages(results[..n]);
      ThinkingBehindResults(ms, results[..n]);
    }
  }

  /** From a tools_complete boundary a run continues, or reports the finished turn again; a
      turn the step decider failed reports its thinking as well, which the first run did not. */
  lemma ResumeToolsComplete(cfg: Config, s: State, assistant: Message, call: ModelCall, turn: int, a: Answers, script: seq<Answers>)
    requires assistant.role.Assistant?
    requires var r := ToolTurn(Normalize(cfg), s, assistant, call, turn, a); |r.observed| == 2
    ensures var r := ToolTurn(Normalize(cfg), s, assistant, call, turn, a);
      var c, expected := r.observed[1], CarryOn(cfg, r, script);
      && Resumable(c)
      && var resumed := ResumeLoop(cfg, c, a, script);
      if r.outcome.Stopped? && r.outcome.reason.StepAborted? then resumed == expected.(thinking := assistant.thinking)
      else resumed == expected
  {
    hide ValidContinuation, Add, PreDispatchBlock, TerminalSucceeded, TracesOf, RunMessages, LastThinking;
    var started := StartTools(s, assistant, call, turn);
    ThinkingBehindResults(started.messages, a.tools.results);
    assert LastThinking(started.messages) == assistant.thinking by { ThinkingLast(started.messages); }
  }

  lemma ThinkingLast(ms: seq<Message>)
    requires ms != [] && ms[|ms| - 1].role.Assistant?
    ensures LastThinking(ms) == ms[|ms| - 1].thinking
  {
  }

  /* ---------- from a ready boundary ---------- */

  lemma StateOfSnapshot(s: State, phase: Phase)
    ensures StateOf(Snapshot(s, phase)) == s && Snapshot(s, phase).phase == phase
  {
  }

  /** The ready boundary a paused turn leaves behind is followed by the next pass itself. */
  lemma ResumePaused(cfg: Config, s: State, assistant: Message, call: ModelCall, steer: bool, a: Answers, script: seq<Answers>)
    requires PauseTurn(Normalize(cfg), s, assistant, call, steer).outcome.Running?
    ensures var r := PauseTurn(Normalize(cfg), s, assistant, call, steer);
      |r.observed| == 1 && Resumable(r.observed[0]) && ResumeLoop(cfg, r.observed[0], a, script) == CarryOn(cfg, r, script)
  {
    hide ValidContinuation, ConsecutivePauses, RunMessages;
  }

  /** Compacting the prepared history again, with no fresh input, changes nothing. */
  predicate Prepared(cfg: Config, s: State) {
    (s.steps != [] || cfg.contextTarget > 0) && CompactionFor(cfg, s).Some? ==>
      Compress(s, CompactionFor(cfg, s).value, cfg.contextTarget, 0) == (true, s)
  }

  /** A resumed run checks the budget again before the prepared model call. */
  function Recheck(cfg: Config, s: State): Option<Dimension> {
    if s.steps != [] then BudgetRemaining(cfg, s.usage, s.toolCallsUsed, |s.steps|) else None
  }

  lemma AdmitNothing(s: State)
    ensures Admit(s, []) == s
  {
    assert s.messages + [] == s.messages;
  }

  lemma OpenPrepared(cfg: Config, s: State)
    requires Prepared(cfg, s) && ValidContinuation(Snapshot(s, Ready))
    ensures Open(cfg, s, []) ==
      if Recheck(cfg, s).Some? then Pass(Halt(Exhausted(Recheck(cfg, s).value), s), [])
      else Pass(Running(s), [Snapshot(s, Ready)])
  {
    hide ValidContinuation, Compress;
    AdmitNothing(s);
    assert s.messages[|s.messages|..] == [];
  }

  lemma OpenIsReady(cfg: Config, s: State, inputs: seq<Message>)
    requires Open(cfg, s, inputs).outcome.Running?
    ensures var s1 := Open(cfg, s, inputs).outcome.s;
      ValidContinuation(Snapshot(s1, Ready)) && Open(cfg, s, inputs).observed == [Snapshot(s1, Ready)]
  {
    hide ValidContinuation, MaybeCompact;
  }

  predicate Steered(a: Answers) {
    a.first.Interrupted? || a.first.InterruptedUnopened? || a.second.Interrupted? || a.second.InterruptedUnopened?
  }

  lemma ActAddsSteps(cfg: Config, s: State, a: Answers)
    ensures var r := Act(cfg, s, a).outcome;
      && |s.steps| <= |r.s.steps|
      && (!Steered(a) ==> |s.steps| < |r.s.steps| || (r.Stopped? && r.reason.ModelError?))
  {
    hide Ask, Reply, SameCounters, Add;
    AskCounters(cfg, s, a);
    assert |Ask(cfg, s, a).0.steps| == |s.steps| by { SameLength(s, Ask(cfg, s, a).0); }
    var (asked, answer) := Ask(cfg, s, a);
    AskAnswers(cfg, s, a);
    if answer.Replied? {
      ReplySteps(cfg, asked, answer.assistant, answer.usage, answer.stop, a);
    }
  }

  lemma SameLength(s: State, t: State)
    requires SameCounters(s, t)
    ensures |t.steps| == |s.steps|
  {
  }

  lemma AskAnswers(cfg: Config, s: State, a: Answers)
    ensures var answer := Ask(cfg, s, a).1; answer == a.first || answer == a.second || answer.Broken? || answer.BrokenUnopened?
  {
    hide Compress;
  }

  lemma {:induction false} RunAddsSteps(cfg: Config, s: State, script: seq<Answers>)
    ensures |s.steps| <= |Run(cfg, s, script).outcome.s.steps|
    decreases |script|
  {
    hide Open, Act, SameCounters;
    if IterationAllowed(cfg, |s.steps|) && script != [] {
      var a := script[0];
      var ready := Open(cfg, s, a.inputs).outcome;
      OpenCounters(cfg, s, a.inputs);
      SameLength(s, ready.s);
      if ready.Running? {
        ActAddsSteps(cfg, ready.s, a);
        if Act(cfg, ready.s, a).outcome.Running? {
          RunAddsSteps(cfg, Act(cfg, ready.s, a).outcome.s, script[1..]);
        }
      }
    }
  }

  lemma OpenAllowed(cfg: Config, s: State, inputs: seq<Message>)
    requires IterationAllowed(cfg, |s.steps|)
    ensures IterationAllowed(cfg, |Open(cfg, s, inputs).outcome.s.steps|)
  {
    hide Open, SameCounters;
    OpenCounters(cfg, s, inputs);
    SameLength(s, Open(cfg, s, inputs).outcome.s);
  }

  /** From the ready boundary at the top of a pass, the resumed run ends as the original
      exactly when the context work left some budget: the original makes its model call
      regardless, the resumed run stops before it. */
  lemma ResumeReady(cfg: Config, s: State, a: Answers, script: seq<Answers>)
    requires IterationAllowed(Normalize(cfg), |s.steps|) && a.inputs == []
    requires Open(Normalize(cfg), s, []).outcome.Running?
    requires var s1 := Open(Normalize(cfg), s, []).outcome.s; Good(s1) && Prepared(Normalize(cfg), s1)
    ensures var s1 := Open(Normalize(cfg), s, []).outcome.s;
      var resumed := ResumeLoop(cfg, Snapshot(s1, Ready), a, [a] + script);
      var original := Run(Normalize(cfg), s, [a] + script).outcome;
      && (Recheck(Normalize(cfg), s1).None? ==> resumed == original)
      && (Recheck(Normalize(cfg), s1).Some? ==> resumed == Halt(Exhausted(Recheck(Normalize(cfg), s1).value), s1))
      && (Recheck(Normalize(cfg), s1).Some? && !Steered(a) ==> resumed != original)
  {
    hide Good, Open, Act, Recheck, Prepared, Normalize, IterationAllowed, RunMessages, ValidContinuation, Steered;
    var policy := Normalize(cfg);
    var s1 := Open(policy, s, []).outcome.s;
    StateOfSnapshot(s1, Ready);
    EntersUnchanged(cfg, s1, [a] + script);
    OpenIsReady(policy, s, []);
    OpenPrepared(policy, s1);
    OpenAllowed(policy, s, []);
    RunUnfolds(policy, s, a, script);
    RunUnfolds(policy, s1, a, script);
    if Recheck(policy, s1).Some? && !Steered(a) {
      ActAddsSteps(policy, s1, a);
      var acted := Act(policy, s1, a).outcome;
      if acted.Running? {
        RunAddsSteps(policy, acted.s, script);
      }
    }
  }

  /** What opening a prepared pass once more does: the budget check, then one more compaction
      for which nothing is fresh. */
  function Reopened(cfg: Config, s: State): Outcome {
    if Recheck(cfg, s).Some? then Halt(Exhausted(Recheck(cfg, s).value), s)
    else if (s.steps == [] && cfg.contextTarget <= 0) || CompactionFor(cfg, s).None? then Running(s)
    else
      var (ok, next) := Compress(s, CompactionFor(cfg, s).value, cfg.contextTarget, 0);
      if !ok then Halt(CompactionError, next)
      else if !ValidContinuation(Snapshot(next, Ready)) then Halt(BoundaryRejected, next)
      else Running(next)
  }

  lemma OpenAgain(cfg: Config, s: State)
    requires ValidContinuation(Snapshot(s, Ready))
    ensures Open(cfg, s, []).outcome == Reopened(cfg, s)
  {
    hide ValidContinuation, Compress;
    AdmitNothing(s);
    assert forall ms: seq<Message> :: ms[|ms|..] == [];
  }

  /** With any compactor: the original run acts on the prepared state, the resumed run on the
      same state opened again. */
  lemma ResumeReadyAgain(cfg: Config, s: State, a: Answers, script: seq<Answers>)
    requires IterationAllowed(Normalize(cfg), |s.steps|) && a.inputs == []
    requires Open(Normalize(cfg), s, []).outcome.Running? && Good(Open(Normalize(cfg), s, []).outcome.s)
    ensures var policy, s1 := Normalize(cfg), Open(Normalize(cfg), s, []).outcome.s;
      var again := Reopened(policy, s1);
      && Run(policy, s, [a] + script).outcome == RunOn(policy, Act(policy, s1, a).outcome, script)
      && ResumeLoop(cfg, Snapshot(s1, Ready), a, [a] + script)
         == if again.Stopped? then again else RunOn(policy, Act(policy, again.s, a).outcome, script)
  {
    hide Good, Open, Act, Reopened, Normalize, IterationAllowed, RunMessages, ValidContinuation, Run;
    var policy := Normalize(cfg);
    var s1 := Open(policy, s, []).outcome.s;
    StateOfSnapshot(s1, Ready);
    EntersUnchanged(cfg, s1, [a] + script);
    OpenIsReady(policy, s, []);
    OpenAgain(policy, s1);
    OpenAllowed(policy, s, []);
    RunUnfolds(policy, s, a, script);
    RunUnfolds(policy, s1, a, script);
  }

  function RunOn(cfg: Config, r: Outcome, script: seq<Answers>): Outcome {
    if r.Stopped? then r else Run(cfg, r.s, script).outcome
  }

  /* ---------- from any boundary of a run ---------- */

  /** Equal ends; a run whose step decider failed it may differ in the thinking it reports. */
  predicate SameEnd(resumed: Outcome, original: Outcome) {
    || resumed == original
    || (resumed.Stopped? && original.Stopped? && original.reason.StepAborted? && resumed == original.(thinking := resumed.thinking))
  }

  lemma AnswerObserved(cfg: Config, s: State, assistant: Message, call: ModelCall, a: Answers)
    requires !call.stop.Pause?
    ensures var r := AnswerTurn(cfg, s, assistant, call, a).observed;
      |r| <= 1 && (r != [] ==> r[0] == AnswerSnapshot(s, assistant, call))
  {
    hide ValidContinuation, Settle;
  }

  lemma ToolObserved(cfg: Config, s: State, assistant: Message, call: ModelCall, turn: int, a: Answers)
    ensures var r := ToolTurn(cfg, s, assistant, call, turn, a).observed;
      && |r| <= 2 && (r != [] ==> r[0] == Snapshot(StartTools(s, assistant, call, turn), ModelComplete))
      && (|r| == 2 ==> r[1].phase == ToolsComplete)
  {
    hide ValidContinuation, Add, PreDispatchBlock, TracesOf, TerminalSucceeded;
  }

  lemma PauseObserved(cfg: Config, s: State, assistant: Message, call: ModelCall, a: Answers)
    requires call.stop.Pause? && AnswerTurn(cfg, s, assistant, call, a).observed != []
    ensures var r := AnswerTurn(cfg, s, assistant, call, a);
      r == PauseTurn(cfg, s, assistant, call, a.steer) && r.outcome.Running? && |r.observed| == 1 && r.observed[0].phase == Ready
  {
    hide ValidContinuation, ConsecutivePauses;
  }

  lemma ResumeReply(cfg: Config, s: State, assistant: Message, usage: Usage, stop: StopReason, a: Answers, script: seq<Answers>, i: nat)
    requires AnswerOk(Replied(assistant, usage, stop))
    requires var r := Reply(Normalize(cfg), s, assistant, usage, stop, a);
      i < |r.observed| && (r.observed[i].phase == ValidatingOutput ==> !AllowanceMatters(cfg, |s.steps| + 1, a))
    ensures var r := Reply(Normalize(cfg), s, assistant, usage, stop, a);
      Resumable(r.observed[i]) && SameEnd(ResumeLoop(cfg, r.observed[i], a, script), CarryOn(cfg, r, script))
  {
    hide AnswerTurn, ToolTurn, CarryOn, ResumeLoop, Resumable, Add, AllowanceMatters, Normalize, StartTools, AnswerSnapshot, ToolTurn;
    var counted, call := s.(turn := s.turn + 1, usage := Add(s.usage, usage)), ModelCall(usage, stop);
    if assistant.toolCalls != [] {
      ToolObserved(Normalize(cfg), counted, assistant, call, s.turn, a);
      if i == 0 {
        ResumeModelComplete(cfg, counted, assistant, call, s.turn, a, script);
      } else {
        ResumeToolsComplete(cfg, counted, assistant, call, s.turn, a, script);
        if ToolTurn(Normalize(cfg), counted, assistant, call, s.turn, a).outcome.Stopped? {
          CarryAborted(cfg, ToolTurn(Normalize(cfg), counted, assistant, call, s.turn, a), script);
        }
      }
    } else if stop.Pause? {
      PauseObserved(Normalize(cfg), counted, assistant, call, a);
      ResumePaused(cfg, counted, assistant, call, a.steer, a, script);
    } else {
      AnswerObserved(Normalize(cfg), counted, assistant, call, a);
      AnswerSnapshotPhase(counted, assistant, call);
      ResumeValidatingOutput(cfg, counted, assistant, call, a, script);
    }
  }

  lemma AnswerSnapshotPhase(s: State, assistant: Message, call: ModelCall)
    ensures AnswerSnapshot(s, assistant, call).phase == ValidatingOutput
  {
  }

  lemma CarryAborted(cfg: Config, pass: Pass, script: seq<Answers>)
    requires pass.outcome.Stopped?
    ensures CarryOn(cfg, pass, script) == pass.outcome
  {
  }

  lemma AskOk(cfg: Config, s: State, a: Answers)
    requires AnswersOk(a)
    ensures AnswerOk(Ask(cfg, s, a).1)
  {
    hide Compress;
  }

  lemma ResumeWithinPass(cfg: Config, s: State, a: Answers, script: seq<Answers>, i: nat)
    requires AnswersOk(a)
    requires var r := Act(Normalize(cfg), s, a);
      i < |r.observed| && (r.observed[i].phase == ValidatingOutput ==> !AllowanceMatters(cfg, |s.steps| + 1, a))
    ensures var r := Act(Normalize(cfg), s, a);
      Resumable(r.observed[i]) && SameEnd(ResumeLoop(cfg, r.observed[i], a, script), CarryOn(cfg, r, script))
  {
    hide AnswersOk, AnswerOk, Ask, Reply, CarryOn, ResumeLoop, Resumable, AllowanceMatters, Normalize, SameEnd, SameCounters;
    AskOk(Normalize(cfg), s, a);
    AskCounters(Normalize(cfg), s, a);
    var (asked, answer) := Ask(Normalize(cfg), s, a);
    SameLength(s, asked);
    assert answer.Replied?;
    ResumeReply(cfg, asked, answer.assistant, answer.usage, answer.stop, a, script, i);
  }

  /** What an observed boundary needs for the resumed run to end as the original: at the top
      of a pass, context work that is done and left some budget; while an answer is being
      judged, a turn allowance that is set unless no retry asks for it. */
  predicate Faithful(cfg: Config, s: State, a: Answers, i: nat)
    requires i < |OnePass(Normalize(cfg), s, a).observed|
  {
    var policy := Normalize(cfg);
    var s1 := Open(policy, s, a.inputs).outcome.s;
    if i == 0 then a.inputs == [] && Prepared(policy, s1) && Recheck(policy, s1).None?
    else OnePass(policy, s, a).observed[i].phase == ValidatingOutput ==> !AllowanceMatters(cfg, |s.steps| + 1, a)
  }

  lemma OpenSteps(cfg: Config, s: State, inputs: seq<Message>)
    ensures |Open(cfg, s, inputs).outcome.s.steps| == |s.steps|
  {
    hide Open, SameCounters;
    OpenCounters(cfg, s, inputs);
    SameLength(s, Open(cfg, s, inputs).outcome.s);
  }

  lemma CarryOnRuns(cfg: Config, s: State, a: Answers, script: seq<Answers>)
    requires IterationAllowed(Normalize(cfg), |s.steps|)
    requires OnePass(Normalize(cfg), s, a).outcome.Running? ==> Good(OnePass(Normalize(cfg), s, a).outcome.s)
    ensures CarryOn(cfg, OnePass(Normalize(cfg), s, a), script) == Run(Normalize(cfg), s, [a] + script).outcome
  {
    hide OnePass, Good, RunMessages, Run, Normalize;
    var pass := OnePass(Normalize(cfg), s, a);
    RunUnfolds(Normalize(cfg), s, a, script);
    if pass.outcome.Running? {
      EntersUnchanged(cfg, pass.outcome.s, script);
    }
  }

  lemma CarryOnActs(cfg: Config, s: State, a: Answers, script: seq<Answers>)
    requires Open(Normalize(cfg), s, a.inputs).outcome.Running?
    ensures CarryOn(cfg, Act(Normalize(cfg), Open(Normalize(cfg), s, a.inputs).outcome.s, a), script)
      == CarryOn(cfg, OnePass(Normalize(cfg), s, a), script)
  {
    hide Open, Act, RunMessages;
  }

  /** A pass observes its ready boundary first, then those of the turn it takes. */
  lemma PassObserved(cfg: Config, s: State, a: Answers, i: nat)
    requires i < |OnePass(cfg, s, a).observed|
    ensures var ready := Open(cfg, s, a.inputs);
      && ready.outcome.Running?
      && OnePass(cfg, s, a).outcome == Act(cfg, ready.outcome.s, a).outcome
      && (i == 0 ==> OnePass(cfg, s, a).observed[0] == Snapshot(ready.outcome.s, Ready))
      && (0 < i ==>
            && i - 1 < |Act(cfg, ready.outcome.s, a).observed|
            && OnePass(cfg, s, a).observed[i] == Act(cfg, ready.outcome.s, a).observed[i - 1])
  {
    hide Open, Act;
    ObservedRunning(cfg, s, a);
    OpenIsReady(cfg, s, a.inputs);
  }

  lemma PassResumesReady(cfg: Config, s: State, a: Answers, script: seq<Answers>)
    requires Good(s) && PassOk(Normalize(cfg), s, a) && Unsaturated(OnePass(Normalize(cfg), s, a).outcome.s)
    requires IterationAllowed(Normalize(cfg), |s.steps|)
    requires OnePass(Normalize(cfg), s, a).observed != [] && Faithful(cfg, s, a, 0)
    ensures var c := OnePass(Normalize(cfg), s, a).observed[0];
      Resumable(c) && ResumeLoop(cfg, c, a, [a] + script) == Run(Normalize(cfg), s, [a] + script).outcome
  {
    UsageConsistent(s);
    ReadyUnsaturated(cfg, s, a);
    hide Good, PassOk, OnePass, Consistent, Open, ResumeLoop, Recheck, Prepared, Normalize, IterationAllowed, Run, Unsaturated;
    PassObserved(Normalize(cfg), s, a, 0);
    OpenSound(Normalize(cfg), s, a);
    ResumeReady(cfg, s, a, script);
    ReadyResumable(Open(Normalize(cfg), s, a.inputs).outcome.s);
  }

  lemma PassResumesLater(cfg: Config, s: State, a: Answers, script: seq<Answers>, i: nat)
    requires Good(s) && PassOk(Normalize(cfg), s, a) && Unsaturated(OnePass(Normalize(cfg), s, a).outcome.s)
    requires IterationAllowed(Normalize(cfg), |s.steps|)
    requires 0 < i < |OnePass(Normalize(cfg), s, a).observed| && Faithful(cfg, s, a, i)
    ensures var c := OnePass(Normalize(cfg), s, a).observed[i];
      Resumable(c) && SameEnd(ResumeLoop(cfg, c, a, script), Run(Normalize(cfg), s, [a] + script).outcome)
  {
    hide Good, PassOk, OnePass, Consistent, Open, Act, AnswersOk, ResumeLoop, Resumable, Normalize, IterationAllowed, CarryOn, SameEnd, Run, AllowanceMatters, Unsaturated;
    PassAnswersOk(Normalize(cfg), s, a);
    OnePassSound(Normalize(cfg), s, a);
    PassObserved(Normalize(cfg), s, a, i);
    OpenSteps(Normalize(cfg), s, a.inputs);
    ResumeWithinPass(cfg, Open(Normalize(cfg), s, a.inputs).outcome.s, a, script, i - 1);
    CarryOnActs(cfg, s, a, script);
    CarryOnRuns(cfg, s, a, script);
  }

  /** Boundary `i` of the pass that `a` drives from `s` is observed and can be resumed faithfully. */
  predicate Interruptible(cfg: Config, s: State, a: Answers, i: nat) {
    && IterationAllowed(Normalize(cfg), |s.steps|)
    && i < |OnePass(Normalize(cfg), s, a).observed|
    && Faithful(cfg, s, a, i)
  }

  /** Resumed from boundary `i` of that pass, a run given the answers still to come ends as
      `original`; at the top of the pass the pass's own answers are still to come. */
  predicate Resumes(cfg: Config, s: State, a: Answers, script: seq<Answers>, i: nat, original: Outcome) {
    && i < |OnePass(Normalize(cfg), s, a).observed|
    && var c := OnePass(Normalize(cfg), s, a).observed[i];
    && Resumable(c)
    && SameEnd(ResumeLoop(cfg, c, a, if i == 0 then [a] + script else script), original)
  }

  /** Any boundary observed in a pass from a good state. */
  lemma PassResumes(cfg: Config, s: State, a: Answers, script: seq<Answers>, i: nat)
    requires Good(s) && PassOk(Normalize(cfg), s, a) && Unsaturated(OnePass(Normalize(cfg), s, a).outcome.s)
    requires Interruptible(cfg, s, a, i)
    ensures Resumes(cfg, s, a, script, i, Run(Normalize(cfg), s, [a] + script).outcome)
  {
    hide Good, PassOk, OnePass, ResumeLoop, Resumable, Normalize, IterationAllowed, Run, Faithful, Unsaturated;
    if i == 0 {
      PassResumesReady(cfg, s, a, script);
    } else {
      PassResumesLater(cfg, s, a, script, i);
    }
  }

  lemma ReadyResumable(s: State)
    ensures Resumable(Snapshot(s, Ready))
  {
  }

  lemma PassAnswersOk(cfg: Config, s: State, a: Answers)
    requires PassOk(cfg, s, a)
    ensures AnswersOk(a)
  {
  }

  lemma ObservedRunning(cfg: Config, s: State, a: Answers)
    requires OnePass(cfg, s, a).observed != []
    ensures Open(cfg, s, a.inputs).outcome.Running?
  {
    hide ValidContinuation, MaybeCompact, Act;
  }

  lemma ReadyUnsaturated(cfg: Config, s: State, a: Answers)
    requires Consistent(s.usage) && Unsaturated(OnePass(Normalize(cfg), s, a).outcome.s)
    ensures Unsaturated(Open(Normalize(cfg), s, a.inputs).outcome.s)
  {
    hide Open, Act, Consistent;
    OpenGrows(Normalize(cfg), s, a.inputs);
    var ready := Open(Normalize(cfg), s, a.inputs).outcome;
    if ready.Running? {
      ActGrows(Normalize(cfg), ready.s, a);
    }
  }

  /** The state after `k` passes. */
  function After(cfg: Config, s: State, script: seq<Answers>, k: nat): State
    requires k <= |script|
    decreases k
  {
    if k == 0 then s else OnePass(cfg, After(cfg, s, script, k - 1), script[k - 1]).outcome.s
  }

  /** The run goes through `k` whole passes. */
  predicate Reaches(cfg: Config, s: State, script: seq<Answers>, k: nat)
    requires k <= |script|
    decreases k
  {
    k == 0 || (
      var last := After(cfg, s, script, k - 1);
      && Reaches(cfg, s, script, k - 1)
      && IterationAllowed(cfg, |last.steps|)
      && OnePass(cfg, last, script[k - 1]).outcome.Running?)
  }

  /** A run that goes through `k` passes goes on from a good state to the same end. */
  lemma {:induction false} RunFrom(cfg: Config, s: State, script: seq<Answers>, k: nat)
    requires Good(s) && ScriptOk(cfg, s, script) && Unsaturated(Run(cfg, s, script).outcome.s)
    requires k < |script| && Reaches(cfg, s, script, k)
    ensures var sk := After(cfg, s, script, k);
      && Good(sk) && ScriptOk(cfg, sk, script[k..])
      && Run(cfg, sk, script[k..]).outcome == Run(cfg, s, script).outcome
    decreases k
  {
    hide Good, PassOk, Consistent, OnePass, Unsaturated, Run, ScriptOk;
    if k == 0 {
      assert script[0..] == script;
    } else {
      var last, rest := After(cfg, s, script, k - 1), script[k - 1..];
      RunFrom(cfg, s, script, k - 1);
      UsageConsistent(last);
      FirstPass(cfg, last, rest);
      OnePassSound(cfg, last, rest[0]);
      assert rest[1..] == script[k..];
    }
  }

  /** Resuming from any boundary of a run, with the answers still to come, ends exactly as
      the uninterrupted run: same messages, steps, usage, tool calls used and next turn. */
  lemma RunResumes(cfg: Config, s: State, script: seq<Answers>, k: nat, i: nat)
    requires Good(s) && ScriptOk(Normalize(cfg), s, script) && Unsaturated(Run(Normalize(cfg), s, script).outcome.s)
    requires k < |script| && Reaches(Normalize(cfg), s, script, k)
    requires Interruptible(cfg, After(Normalize(cfg), s, script, k), script[k], i)
    ensures Resumes(cfg, After(Normalize(cfg), s, script, k), script[k], script[k + 1..], i, Run(Normalize(cfg), s, script).outcome)
  {
    hide Good, PassOk, Consistent, OnePass, Normalize, Interruptible, Resumes, Unsaturated, Run, ScriptOk, After, Reaches;
    var sk := After(Normalize(cfg), s, script, k);
    RunFrom(Normalize(cfg), s, script, k);
    UsageConsistent(sk);
    InterruptibleAllowed(cfg, sk, script[k], i);
    assert script[k..][0] == script[k];
    FirstPass(Normalize(cfg), sk, script[k..]);
    assert script[k..] == [script[k]] + script[k + 1..];
    PassResumes(cfg, sk, script[k], script[k + 1..], i);
  }

  lemma InterruptibleAllowed(cfg: Config, s: State, a: Answers, i: nat)
    requires Interruptible(cfg, s, a, i)
    ensures IterationAllowed(Normalize(cfg), |s.steps|)
  {
  }

  lemma FirstPass(cfg: Config, s: State, script: seq<Answers>)
    requires script != [] && IterationAllowed(cfg, |s.steps|) && Consistent(s.usage)
    requires ScriptOk(cfg, s, script) && Unsaturated(Run(cfg, s, script).outcome.s)
    ensures PassOk(cfg, s, script[0]) && Unsaturated(OnePass(cfg, s, script[0]).outcome.s)
    ensures var pass := OnePass(cfg, s, script[0]);
      pass.outcome.Running? ==>
        && ScriptOk(cfg, pass.outcome.s, script[1..])
        && Run(cfg, s, script).outcome == Run(cfg, pass.outcome.s, script[1..]).outcome
        && Unsaturated(Run(cfg, pass.outcome.s, script[1..]).outcome.s)
  {
    hide PassOk, OnePass, Consistent;
    OnePassGrows(cfg, s, script[0]);
    var pass := OnePass(cfg, s, script[0]);
    if pass.outcome.Running? {
      RunGrows(cfg, pass.outcome.s, script[1..]);
    }
  }
}
