/**
 The loop as the program runs it: one object whose fields every step updates in place.
 Each method is proved equal to the function of `AgentLoop` that specifies it, so all
 that is proved of runs there holds of this loop.
 */
module LoopEngine {
  import opened Wrappers
  import opened Messages
  import opened TokenUsage
  import opened Continuations
  import opened AgentLoop
  import History
  import LoopResume

  /** `s` with the latest step's context usage brought up to date, as every boundary but a
      ready one does. */
  function Noted(s: State, phase: Phase): State {
    if phase == Ready || s.steps == [] then s
    else s.(steps := MapLast(s.steps, LastStep(s).(context := s.context)))
  }

  class Engine {
    var messages: seq<Message>
    var steps: seq<Step>
    var usage: Usage
    var context: Usage
    var toolCallsUsed: int
    var turn: int
    /** Everything the boundary observer has been handed. */
    var observed: seq<Continuation>

    constructor (s: State)
      ensures Now() == s && observed == []
    {
      messages, steps, usage, context := s.messages, s.steps, s.usage, s.context;
      toolCallsUsed, turn, observed := s.toolCallsUsed, s.turn, [];
    }

    function Now(): State
      reads this
    {
      State(messages, steps, usage, context, toolCallsUsed, turn)
    }

    /** The whole effect of a method whose specification is `p`. */
    twostate predicate Did(p: Pass, r: Outcome)
      reads this
    {
      r == p.outcome && Now() == r.s && observed == old(observed) + p.observed
    }

    method ObserveBoundary(phase: Phase) returns (ok: bool)
      modifies `steps, `observed
      ensures Now() == Noted(old(Now()), phase)
      ensures ok == ValidContinuation(Snapshot(Now(), phase))
      ensures observed == old(observed) + (if ok then [Snapshot(Now(), phase)] else [])
    {
      hide ValidContinuation;
      if phase != Ready && steps != [] {
        var latest := steps[|steps| - 1];
        steps := MapLast(steps, latest.(context := context));
      }
      var continuation := Snapshot(Now(), phase);
      ok := ValidateContinuation(continuation);
      if ok {
        observed := observed + [continuation];
      }
    }

    method SetDecision(decision: Decision)
      requires steps != []
      modifies `steps
      ensures Now() == Decide(old(Now()), decision)
    {
      var latest := steps[|steps| - 1];
      steps := MapLast(steps, latest.(decision := decision));
    }

    /* ---------- context preparation ---------- */

    method ResetPauseForInput(inputs: nat)
      modifies `steps
      ensures steps == ResetPause(old(steps), inputs)
    {
      if inputs == 0 || steps == [] || !HasPause(steps[|steps| - 1]) {
        return;
      }
      var latest := steps[|steps| - 1];
      steps := MapLast(steps, latest.(observations := latest.observations + [PauseInputProgress]));
    }

    /** The working-memory observer: summaries are paid for as they happen. */
    method ObserveWorkingMemory(summary: Usage)
      modifies `context, `usage, `steps
      ensures Now() == AccountContext(old(Now()), summary)
    {
      hide Add;
      context := Add(context, summary);
      usage := Add(usage, summary);
      if steps != [] {
        var latest := steps[|steps| - 1];
        steps := MapLast(steps, latest.(context := context, tokens := usage.total));
      }
    }

    method RunCompactor(compactor: Compactor, target: int, freshInputs: nat) returns (ok: bool)
      modifies `messages, `context, `usage, `steps
      ensures (ok, Now()) == Compress(old(Now()), compactor, target, freshInputs)
    {
      hide Add, AccountContext, History.CachePrefix;
      var complete := History.ValidateCompleteTurns(messages);
      if !complete {
        return false;
      }
      var result := compactor(messages, target, freshInputs);
      ObserveWorkingMemory(result.summary);
      if result.CompactionFailed? {
        return false;
      }
      complete := History.ValidateCompleteTurns(result.messages);
      if !complete || !PrefixKept(messages, result.messages) {
        return false;
      }
      messages := result.messages;
      ok := true;
    }

    method PrepareIteration(cfg: Config, inputs: seq<Message>) returns (r: Outcome)
      modifies this
      ensures Did(Open(cfg, old(Now()), inputs), r)
    {
      hide ValidContinuation, Compress;
      var iteration := |steps|;
      messages := messages + inputs;
      ResetPauseForInput(|inputs|);
      if iteration > 0 {
        var blocked := BudgetRemaining(cfg, usage, toolCallsUsed, iteration);
        if blocked.Some? {
          return Halt(Exhausted(blocked.value), Now());
        }
      }
      if iteration > 0 || cfg.contextTarget > 0 {
        var compactor := CompactionFor(cfg, Now());
        if compactor.Some? {
          var ok := RunCompactor(compactor.value, cfg.contextTarget, |inputs|);
          if !ok {
            return Halt(CompactionError, Now());
          }
        }
      }
      if !EndsWith(messages, inputs) {
        return Halt(InputChanged, Now());
      }
      var valid := ObserveBoundary(Ready);
      r := if valid then Running(Now()) else Halt(BoundaryRejected, Now());
    }

    /* ---------- the model call ---------- */

    method RunTurnWithContextRecovery(cfg: Config, a: Answers) returns (answer: ModelAnswer)
      modifies `messages, `context, `usage, `steps
      ensures (Now(), answer) == Ask(cfg, old(Now()), a)
    {
      hide Compress;
      answer := a.first;
      if !answer.Overflowed? {
        return;
      }
      var compactor := OverflowCompactor(cfg);
      if compactor.None? {
        return BrokenBy(answer);
      }
      var before := messages;
      var ok := RunCompactor(compactor.value, Max(1, cfg.contextTarget * 3 / 4), |a.inputs|);
      if !ok || messages == before {
        return BrokenBy(answer);
      }
      answer := if a.second.Overflowed? then BrokenBy(a.second) else a.second;
    }

    /** A partial response stays in the history with its usage, unless it is empty. */
    method RecordIncompleteTurn(assistant: Message, spent: Usage) returns (recorded: bool)
      modifies `messages, `usage
      ensures recorded == !Empty(assistant, spent)
      ensures Now() == if recorded then old(Now()).(messages := old(messages) + [assistant], usage := Add(old(usage), spent)) else old(Now())
    {
      hide Add;
      recorded := !Empty(assistant, spent);
      if recorded {
        messages := messages + [assistant];
        usage := Add(usage, spent);
      }
    }

    method RecordFailureStep(call: ModelCall, decision: Decision)
      modifies `steps
      ensures Now() == old(Now()).(steps := old(steps) + [NewStep(old(Now()), call, decision)])
    {
      steps := steps + [Step(|steps|, Some(call), [], [], decision, context, usage.total, toolCallsUsed)];
    }

    method RecordInterruptedTurn(assistant: Message, spent: Usage, stop: StopReason)
      modifies `messages, `usage, `turn, `steps
      ensures Now() == RecordInterrupted(old(Now()), assistant, spent, stop)
    {
      hide Add;
      turn := turn + 1;
      var factual := assistant.(toolCalls := []);
      var recorded := RecordIncompleteTurn(factual, spent);
      if !recorded {
        messages := messages + [BLANK];
      }
      var latest := |messages| - 1;
      messages := messages[latest := messages[latest].(archived := true)];
      RecordFailureStep(ModelCall(spent, stop), Continue);
    }

    method HandleTurnFailure(assistant: Message, spent: Usage, stop: StopReason)
      modifies `messages, `usage, `steps
      ensures Now() == RecordBroken(old(Now()), assistant, spent, stop)
    {
      hide Add;
      var recorded := RecordIncompleteTurn(assistant, spent);
      RecordFailureStep(ModelCall(spent, stop), Fail);
    }

    /* ---------- a turn without tool calls ---------- */

    method FinishPausedTurn(cfg: Config, assistant: Message, call: ModelCall, steer: bool) returns (r: Outcome)
      modifies this
      ensures Did(PauseTurn(cfg, old(Now()), assistant, call, steer), r)
    {
      hide ValidContinuation;
      messages := messages + [assistant];
      var pauses := CountPauses(steps);
      var consecutive := pauses + 1;
      steps := steps + [Step(|steps|, Some(call), [], [PauseContinuation], Continue, context, usage.total, toolCallsUsed)];
      if cfg.maxTokens > 0 && call.usage.total == 0 {
        SetDecision(Fail);
        return Halt(Exhausted(Tokens), Now());
      }
      if consecutive > MAX_PAUSES && !steer {
        SetDecision(Fail);
        return Halt(PauseLimit, Now());
      }
      var valid := ObserveBoundary(Ready);
      r := if valid then Running(Now()) else Halt(BoundaryRejected, Now());
    }

    /** What the guardrails, the recovery policy and the control make of a final answer. */
    method JudgeOutput(cfg: Config, base: seq<Message>, assistant: Message, stop: StopReason, a: Answers) returns (r: Outcome)
      requires steps != []
      modifies `messages, `steps
      ensures r == Settle(cfg, old(Now()), base, assistant, stop, a) && Now() == r.s
    {
      match a.verdict {
        case Block =>
          SetDecision(Fail);
          r := Halt(OutputBlocked, Now());
        case Retry(includeRejected, replacement, retries) =>
          if retries == [] || !IterationAllowed(cfg, |steps|) {
            SetDecision(Fail);
            return Halt(OutputBlocked, Now());
          }
          SetDecision(Continue);
          messages := base;
          if includeRejected {
            messages := AppendFinal(messages, assistant);
          }
          messages := messages + replacement;
          messages := messages + retries;
          r := Running(Now());
        case Accept(output) =>
          if output.recovery != "" {
            var recoveries := CountRecoveries(steps);
            if recoveries >= MAX_RECOVERIES {
              SetDecision(Fail);
              return Halt(RecoveryLimit, Now());
            }
            var latest := steps[|steps| - 1];
            steps := MapLast(steps, latest.(decision := Continue, observations := latest.observations + [ResponseRecovery]));
            messages := AppendFinal(base, output) + [NewText(User, cfg.correction(output.recovery))];
            return Running(Now());
          }
          messages := AppendFinal(base, output);
          if a.followUp {
            SetDecision(Continue);
            return Running(Now());
          }
          r := Stopped(Finished(stop), |steps|, output.thinking, Now());
      }
    }

    method FinalizeNoToolStep(cfg: Config, assistant: Message, call: ModelCall, a: Answers) returns (r: Outcome)
      modifies this
      ensures Did(AnswerTurn(cfg, old(Now()), assistant, call, a), r)
    {
      hide ValidContinuation, PauseTurn, Settle;
      if call.stop.Pause? {
        r := FinishPausedTurn(cfg, assistant, call, a.steer);
        return;
      }
      var base := messages;
      messages := AppendFinal(messages, assistant);
      steps := steps + [Step(|steps|, Some(call), [], [], Finish, ZERO, usage.total, toolCallsUsed)];
      var valid := ObserveBoundary(ValidatingOutput);
      assert Now().steps == old(steps) + [NewStep(old(Now()), call, Finish)];
      if !valid {
        return Halt(BoundaryRejected, Now());
      }
      if cfg.maxTokens > 0 && call.usage.total == 0 {
        SetDecision(Fail);
        return Halt(Exhausted(Tokens), Now());
      }
      r := JudgeOutput(cfg, base, assistant, call.stop, a);
    }

    /* ---------- a turn with tool calls ---------- */

    method FinalizeToolStep(cfg: Config, assistant: Message, results: seq<ToolResult>, a: Answers) returns (r: Outcome)
      requires steps != []
      modifies this
      ensures Did(FinishTools(cfg, old(Now()), assistant, results, a), r)
    {
      hide ValidContinuation, TracesOf;
      var terminal := AnyTerminalSucceeded(cfg, assistant.toolCalls, results);
      if terminal && a.followUp {
        terminal := false;
      }
      var latest := steps[|steps| - 1].(traces := TracesOf(assistant.toolCalls, results));
      latest := latest.(decision := if terminal then Finish else Continue);
      if !terminal && (a.decision.Finish? || a.decision.Fail?) {
        latest := latest.(decision := a.decision);
      }
      steps := MapLast(steps, latest);
      var valid := ObserveBoundary(ToolsComplete);
      assert Now().steps == MapLast(old(steps), latest.(context := context));
      if !valid {
        return Halt(BoundaryRejected, Now());
      }
      match latest.decision {
        case Fail => r := Halt(StepAborted, Now());
        case Finish => r := Stopped(Finished(Complete), |steps|, assistant.thinking, Now());
        case _ => r := Running(Now());
      }
    }

    /** A batch and the usage of the agents it called are paid for when its results come in. */
    method AccountToolResults(batch: nat, results: seq<ToolResult>, childUsage: Usage)
      requires steps != []
      modifies `toolCallsUsed, `usage, `steps, `messages
      ensures steps != [] && Now() == RecordResults(old(Now()), batch, results, childUsage)
    {
      hide Add;
      toolCallsUsed := toolCallsUsed + batch;
      usage := Add(usage, childUsage);
      var latest := steps[|steps| - 1];
      steps := MapLast(steps, latest.(tokens := usage.total, toolCalls := toolCallsUsed));
      messages := messages + ResultMessages(results);
    }

    method RunToolStep(cfg: Config, assistant: Message, call: ModelCall, operationTurn: int, a: Answers) returns (r: Outcome)
      modifies this
      ensures Did(ToolTurn(cfg, old(Now()), assistant, call, operationTurn, a), r)
    {
      hide ValidContinuation, Add, FinishTools, PreDispatchBlock, RecordResults;
      var calls := NumberOperations(assistant.toolCalls, operationTurn);
      messages := messages + [assistant.(toolCalls := calls)];
      steps := steps + [Step(|steps|, Some(call), [], [], Continue, ZERO, usage.total, toolCallsUsed)];
      var valid := ObserveBoundary(ModelComplete);
      assert Now().steps == old(steps) + [NewStep(old(Now()), call, Continue)];
      if !valid {
        return Halt(BoundaryRejected, Now());
      }
      if cfg.maxTokens > 0 && call.usage.total == 0 {
        SetDecision(Fail);
        return Halt(Exhausted(Tokens), Now());
      }
      var blocked := PreDispatchBlock(cfg, Now(), |calls|);
      if blocked.Some? {
        SetDecision(Fail);
        return Halt(Exhausted(blocked.value), Now());
      }
      AccountToolResults(|calls|, a.tools.results, a.tools.childUsage);
      if a.tools.ToolsFailed? {
        return Halt(ToolError, Now());
      }
      r := FinalizeToolStep(cfg, assistant, a.tools.results, a);
    }

    /* ---------- the loop ---------- */

    method RunIteration(cfg: Config, a: Answers) returns (r: Outcome)
      modifies this
      ensures Did(OnePass(cfg, old(Now()), a), r)
    {
      hide Open, Ask, Add, AnswerTurn, ToolTurn, RecordInterrupted, RecordBroken;
      r := PrepareIteration(cfg, a.inputs);
      if r.Stopped? {
        return;
      }
      var answer := RunTurnWithContextRecovery(cfg, a);
      match answer {
        case InterruptedUnopened =>
          if steps != [] {
            var latest := steps[|steps| - 1];
            steps := MapLast(steps, latest.(context := context, tokens := usage.total));
          }
          r := Running(Now());
        case Interrupted(assistant, spent, stop) =>
          RecordInterruptedTurn(assistant, spent, stop);
          r := Running(Now());
        case BrokenUnopened =>
          r := Halt(ModelError, Now());
        case Broken(assistant, spent, stop) =>
          HandleTurnFailure(assistant, spent, stop);
          r := Halt(ModelError, Now());
        case Replied(assistant, spent, stop) =>
          var operationTurn := turn;
          turn := turn + 1;
          usage := Add(usage, spent);
          if assistant.toolCalls == [] {
            r := FinalizeNoToolStep(cfg, assistant, ModelCall(spent, stop), a);
          } else {
            r := RunToolStep(cfg, assistant, ModelCall(spent, stop), operationTurn, a);
          }
      }
    }

    method RunMessages(cfg: Config, script: seq<Answers>) returns (r: Outcome)
      modifies this
      ensures Did(AgentLoop.RunMessages(cfg, old(Now()), script), r)
    {
      hide OnePass, NextToolTurn, ConsecutivePauses, RecoveryCount, IterationAllowed;
      var policy := Normalize(cfg);
      var next := NextToolOperationTurn(messages);
      turn := Max(turn, next);
      ghost var start, whole := Now(), Run(policy, Now(), script);
      var i := 0;
      assert script[0..] == script;
      while IterationAllowed(policy, |steps|) && i < |script|
        invariant i <= |script|
        invariant whole.outcome == Run(policy, Now(), script[i..]).outcome
        invariant old(observed) + whole.observed == observed + Run(policy, Now(), script[i..]).observed
      {
        ghost var before := Now();
        assert script[i..][1..] == script[i + 1..];
        r := RunIteration(policy, script[i]);
        if r.Stopped? {
          return;
        }
        i := i + 1;
        assert Now() == OnePass(policy, before, script[i - 1]).outcome.s;
      }
      if IterationAllowed(policy, |steps|) {
        return Running(Now());
      }
      var pauses := CountPauses(steps);
      if pauses > 0 {
        return Halt(PauseLimit, Now());
      }
      var recoveries := 0;
      if steps != [] {
        recoveries := CountRecoveries(steps[|steps| - 1..]);
      }
      if recoveries > 0 {
        return Halt(RecoveryLimit, Now());
      }
      r := Stopped(TurnLimit, policy.maxIterations, "", Now());
    }

    /* ---------- resuming ---------- */

    method Restore(c: Continuation)
      modifies this
      ensures Now() == LoopResume.StateOf(c)
    {
      messages, steps, usage, context := c.messages, c.steps, c.usage, c.context;
      toolCallsUsed, turn := c.toolCallsUsed, c.nextTurn;
    }

    /** Takes the interrupted step and its message back. */
    method PopStep() returns (assistant: Message, call: ModelCall)
      requires messages != [] && steps != [] && steps[|steps| - 1].call.Some?
      modifies `messages, `steps
      ensures messages == old(messages[..|messages| - 1]) && steps == old(steps[..|steps| - 1])
      ensures assistant == old(messages[|messages| - 1]) && call == old(steps[|steps| - 1].call.value)
    {
      assistant, call := messages[|messages| - 1], steps[|steps| - 1].call.value;
      messages := messages[..|messages| - 1];
      steps := steps[..|steps| - 1];
    }

    method ResumeModelComplete(cfg: Config, c: Continuation, a: Answers, script: seq<Answers>) returns (r: Outcome)
      requires c.phase == ModelComplete && LoopResume.Resumable(c)
      modifies this
      ensures r == LoopResume.ResumeLoop(cfg, c, a, script)
    {
      hide AgentLoop.RunMessages, ToolTurn;
      Restore(c);
      var assistant, call := PopStep();
      var operation := assistant.toolCalls[0].operation;
      var operationTurn := if operation.Operation? then operation.turn else 0;
      assert Now() == LoopResume.Popped(c);
      r := RunToolStep(cfg, assistant, call, operationTurn, a);
      if r.Running? {
        r := RunMessages(cfg, script);
      }
    }

    method ResumeToolsComplete(cfg: Config, c: Continuation, a: Answers, script: seq<Answers>) returns (r: Outcome)
      requires c.phase == ToolsComplete && LoopResume.Resumable(c)
      modifies this
      ensures r == LoopResume.ResumeLoop(cfg, c, a, script)
    {
      hide AgentLoop.RunMessages, LoopResume.LastThinking;
      Restore(c);
      var thinking := ContinuationThinking(messages);
      match steps[|steps| - 1].decision {
        case Finish => r := Stopped(Finished(Complete), |steps|, thinking, Now());
        case Fail => r := Stopped(StepAborted, |steps|, thinking, Now());
        case _ => r := RunMessages(cfg, script);
      }
    }

    method ResumeValidatingOutput(cfg: Config, c: Continuation, a: Answers, script: seq<Answers>) returns (r: Outcome)
      requires c.phase == ValidatingOutput && LoopResume.Resumable(c)
      modifies this
      ensures r == LoopResume.ResumeLoop(cfg, c, a, script)
    {
      hide AgentLoop.RunMessages, AnswerTurn;
      Restore(c);
      var assistant, call := PopStep();
      assert Now() == LoopResume.Popped(c);
      r := FinalizeNoToolStep(cfg, assistant, call, a);
      if r.Running? {
        r := RunMessages(cfg, script);
      }
    }

    method ResumeLoop(cfg: Config, c: Continuation, a: Answers, script: seq<Answers>) returns (r: Outcome)
      requires LoopResume.Resumable(c)
      modifies this
      ensures r == LoopResume.ResumeLoop(cfg, c, a, script)
    {
      hide AgentLoop.RunMessages, AnswerTurn, ToolTurn;
      match c.phase {
        case Ready =>
          Restore(c);
          r := RunMessages(cfg, script);
        case ModelComplete => r := ResumeModelComplete(cfg, c, a, script);
        case ToolsComplete => r := ResumeToolsComplete(cfg, c, a, script);
        case ValidatingOutput => r := ResumeValidatingOutput(cfg, c, a, script);
      }
    }
  }

  method ContinuationThinking(messages: seq<Message>) returns (thinking: string)
    ensures thinking == LoopResume.LastThinking(messages)
  {
    var index := |messages|;
    assert messages[..|messages|] == messages;
    while index > 0
      invariant 0 <= index <= |messages|
      invariant LoopResume.LastThinking(messages) == LoopResume.LastThinking(messages[..index])
    {
      if messages[index - 1].role.Assistant? {
        return messages[index - 1].thinking;
      }
      assert messages[..index][..index - 1] == messages[..index - 1];
      index := index - 1;
    }
    thinking := "";
  }

  /* ---------- scans ---------- */

  method CountPauses(steps: seq<Step>) returns (count: nat)
    ensures count == ConsecutivePauses(steps)
  {
    count := 0;
    var index := |steps|;
    assert steps[..|steps|] == steps;
    while index > 0
      invariant 0 <= index <= |steps|
      invariant ConsecutivePauses(steps) == count + ConsecutivePauses(steps[..index])
    {
      var prefix := steps[..index];
      assert prefix[..index - 1] == steps[..index - 1];
      if !HasPause(steps[index - 1]) {
        break;
      }
      count, index := count + 1, index - 1;
    }
  }

  method CountRecoveries(steps: seq<Step>) returns (attempts: nat)
    ensures attempts == RecoveryCount(steps)
  {
    attempts := 0;
    for k := 0 to |steps|
      invariant attempts == RecoveryCount(steps[..k])
    {
      var observations := steps[k].observations;
      var before := attempts;
      for j := 0 to |observations|
        invariant attempts == before + multiset(observations[..j])[ResponseRecovery]
      {
        assert observations[..j + 1] == observations[..j] + [observations[j]];
        if observations[j] == ResponseRecovery {
          attempts := attempts + 1;
        }
      }
      assert observations[..|observations|] == observations;
      assert steps[..k + 1][..k] == steps[..k];
    }
    assert steps[..|steps|] == steps;
  }

  method NumberOperations(calls: seq<ToolCall>, operationTurn: int) returns (numbered: seq<ToolCall>)
    ensures numbered == NumberCalls(calls, operationTurn)
  {
    numbered := calls;
    for index := 0 to |calls|
      invariant |numbered| == |calls|
      invariant forall k :: 0 <= k < index ==> numbered[k] == calls[k].(operation := Operation(operationTurn, k))
      invariant forall k :: index <= k < |calls| ==> numbered[k] == calls[k]
    {
      numbered := numbered[index := numbered[index].(operation := Operation(operationTurn, index))];
    }
  }

  method AnyTerminalSucceeded(cfg: Config, calls: seq<ToolCall>, results: seq<ToolResult>) returns (terminal: bool)
    ensures terminal == TerminalSucceeded(cfg, calls, results)
  {
    var index := 0;
    while index < |calls| && index < |results|
      invariant index <= |calls| && index <= |results|
      invariant forall k :: 0 <= k < index ==> results[k].isError || !cfg.terminal(calls[k].name)
    {
      if !results[index].isError && cfg.terminal(calls[index].name) {
        return true;
      }
      index := index + 1;
    }
    terminal := false;
  }

  lemma LastTurnSnoc(calls: seq<ToolCall>, call: ToolCall)
    ensures LastTurn(calls + [call]) == Max(LastTurn(calls), TurnOf(call))
  {
    assert (calls + [call])[..|calls|] == calls;
  }

  method NextToolOperationTurn(messages: seq<Message>) returns (next: int)
    ensures next == NextToolTurn(messages)
  {
    hide LastTurn;
    next := 0;
    for m := 0 to |messages|
      invariant next == NextToolTurn(messages[..m])
    {
      var calls, before := messages[m].toolCalls, next;
      assert LastTurn(calls[..0]) == -1 by { LastTurnEmpty(); }
      for k := 0 to |calls|
        invariant next == Max(before, LastTurn(calls[..k]) + 1)
      {
        LastTurnSnoc(calls[..k], calls[k]);
        assert calls[..k + 1] == calls[..k] + [calls[k]];
        if calls[k].operation.Operation? && calls[k].operation.turn >= next {
          next := calls[k].operation.turn + 1;
        }
      }
      assert calls[..|calls|] == calls;
      assert messages[..m + 1][..m] == messages[..m];
    }
    assert messages[..|messages|] == messages;
  }
}
