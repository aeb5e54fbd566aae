/** Bounds every run keeps, whatever the model, the tools and the guardrails answer. */
module LoopLimits {
  import opened Wrappers
  import opened Messages
  import opened TokenUsage
  import opened Continuations
  import opened AgentLoop
  import opened LoopInvariant

  /* ---------- the counters ---------- */

  lemma PausesSnoc(steps: seq<Step>, step: Step)
    ensures ConsecutivePauses(steps + [step]) == if HasPause(step) then 1 + ConsecutivePauses(steps) else 0
  {
    assert (steps + [step])[..|steps|] == steps;
  }

  lemma RecoveriesSnoc(steps: seq<Step>, step: Step)
    ensures RecoveryCount(steps + [step]) == RecoveryCount(steps) + multiset(step.observations)[ResponseRecovery]
  {
    assert (steps + [step])[..|steps|] == steps;
  }

  lemma LastSplit(steps: seq<Step>, step: Step)
    requires steps != []
    ensures steps == steps[..|steps| - 1] + [steps[|steps| - 1]]
    ensures MapLast(steps, step) == steps[..|steps| - 1] + [step]
  {
  }

  /** Replacing the last step by one with observations of the same standing. */
  lemma CountsAfterMap(steps: seq<Step>, step: Step)
    requires steps != []
    ensures RecoveryCount(MapLast(steps, step)) == RecoveryCount(steps)
      - multiset(steps[|steps| - 1].observations)[ResponseRecovery] + multiset(step.observations)[ResponseRecovery]
    ensures HasPause(step) == HasPause(steps[|steps| - 1]) ==>
      ConsecutivePauses(MapLast(steps, step)) == ConsecutivePauses(steps)
    ensures !HasPause(step) ==> ConsecutivePauses(MapLast(steps, step)) == 0
  {
    LastSplit(steps, step);
    var before := steps[..|steps| - 1];
    PausesSnoc(before, step);
    PausesSnoc(before, steps[|steps| - 1]);
    RecoveriesSnoc(before, step);
    RecoveriesSnoc(before, steps[|steps| - 1]);
  }

  /** Budgeted calls, bounded recoveries, and no more continued pauses than allowed. */
  predicate Within(cfg: Config, s: State) {
    && (cfg.maxToolCalls > 0 ==> s.toolCallsUsed <= cfg.maxToolCalls)
    && RecoveryCount(s.steps) <= MAX_RECOVERIES
  }

  predicate PausesWithin(s: State) {
    ConsecutivePauses(s.steps) <= MAX_PAUSES
  }

  /** The counters of `t` are those of `s`. */
  predicate SameCounters(s: State, t: State) {
    && t.toolCallsUsed == s.toolCallsUsed && |t.steps| == |s.steps|
    && RecoveryCount(t.steps) == RecoveryCount(s.steps) && ConsecutivePauses(t.steps) <= ConsecutivePauses(s.steps)
  }

  lemma DecideCounters(s: State, decision: Decision)
    requires s.steps != []
    ensures SameCounters(s, Decide(s, decision))
  {
    CountsAfterMap(s.steps, LastStep(s).(decision := decision));
  }

  lemma AccountCounters(s: State, summary: Usage)
    ensures SameCounters(s, AccountContext(s, summary))
  {
    hide RecoveryCount, ConsecutivePauses, Add;
    if s.steps != [] {
      var next := AccountContext(s, summary);
      CountsAfterMap(s.steps, LastStep(s).(context := next.context, tokens := next.usage.total));
    }
  }

  lemma CompressCounters(s: State, compactor: Compactor, target: int, freshInputs: nat)
    ensures SameCounters(s, Compress(s, compactor, target, freshInputs).1)
  {
    AccountCounters(s, compactor(s.messages, target, freshInputs).summary);
    hide RecoveryCount, ConsecutivePauses, AccountContext;
  }

  lemma AdmitCounters(s: State, inputs: seq<Message>)
    ensures SameCounters(s, Admit(s, inputs))
  {
    hide RecoveryCount, ConsecutivePauses;
    if s.steps != [] {
      var last := LastStep(s);
      CountsAfterMap(s.steps, last.(observations := last.observations + [PauseInputProgress]));
    }
  }

  lemma OpenCounters(cfg: Config, s: State, inputs: seq<Message>)
    ensures SameCounters(s, Open(cfg, s, inputs).outcome.s)
  {
    hide RecoveryCount, ConsecutivePauses, Compress, ValidContinuation, Admit;
    AdmitCounters(s, inputs);
    var admitted := Admit(s, inputs);
    if CompactionFor(cfg, admitted).Some? {
      CompressCounters(admitted, CompactionFor(cfg, admitted).value, cfg.contextTarget, |inputs|);
    }
  }

  lemma AskCounters(cfg: Config, s: State, a: Answers)
    ensures SameCounters(s, Ask(cfg, s, a).0)
  {
    hide RecoveryCount, ConsecutivePauses, Compress;
    if OverflowCompactor(cfg).Some? {
      CompressCounters(s, OverflowCompactor(cfg).value, Max(1, cfg.contextTarget * 3 / 4), |a.inputs|);
    }
  }

  /** One more step without observations. */
  lemma QuietStep(s: State, steps: seq<Step>, step: Step)
    requires steps == s.steps + [step] && step.observations == []
    ensures RecoveryCount(steps) == RecoveryCount(s.steps) && ConsecutivePauses(steps) == 0
  {
    PausesSnoc(s.steps, step);
    RecoveriesSnoc(s.steps, step);
  }

  lemma PauseWithin(cfg: Config, s: State, assistant: Message, call: ModelCall, steer: bool)
    ensures var r := PauseTurn(cfg, s, assistant, call, steer).outcome;
      && (Within(cfg, s) ==> Within(cfg, r.s))
      && (r.Running? && !steer ==> PausesWithin(r.s))
      && (r.Stopped? && r.reason.PauseLimit? ==> ConsecutivePauses(r.s.steps) > MAX_PAUSES)
      && ConsecutivePauses(r.s.steps) <= ConsecutivePauses(s.steps) + 1
      && |r.s.steps| == |s.steps| + 1
  {
    hide RecoveryCount, ConsecutivePauses, ValidContinuation;
    var step := NewStep(s, call, Continue).(observations := [PauseContinuation]);
    var next := s.(messages := s.messages + [assistant], steps := s.steps + [step]);
    PausesSnoc(s.steps, step);
    RecoveriesSnoc(s.steps, step);
    LastSplit(next.steps, step.(decision := Fail));
    PausesSnoc(s.steps, step.(decision := Fail));
    RecoveriesSnoc(s.steps, step.(decision := Fail));
  }

  lemma SettleWithin(cfg: Config, s: State, base: seq<Message>, assistant: Message, stop: StopReason, a: Answers)
    requires s.steps != [] && ConsecutivePauses(s.steps) == 0
    ensures var r := Settle(cfg, s, base, assistant, stop, a).s;
      (Within(cfg, s) ==> Within(cfg, r)) && PausesWithin(r) && |r.steps| == |s.steps|
  {
    hide RecoveryCount, ConsecutivePauses, HasPause;
    DecideCounters(s, Fail);
    DecideCounters(s, Continue);
    assert !HasPause(LastStep(s)) by { NoPause(s); }
    var step := LastStep(s).(decision := Continue, observations := LastStep(s).observations + [ResponseRecovery]);
    assert !HasPause(step) by { RecoveryIsNoPause(LastStep(s), step); }
    CountsAfterMap(s.steps, step);
  }

  lemma NoPause(s: State)
    requires s.steps != [] && ConsecutivePauses(s.steps) == 0
    ensures !HasPause(LastStep(s))
  {
  }

  lemma RecoveryIsNoPause(step: Step, next: Step)
    requires !HasPause(step) && next.observations == step.observations + [ResponseRecovery]
    ensures !HasPause(next)
  {
    if PauseContinuation in next.observations {
      assert PauseContinuation in step.observations;
    }
  }

  lemma AnswerWithin(cfg: Config, s: State, assistant: Message, call: ModelCall, a: Answers)
    ensures var r := AnswerTurn(cfg, s, assistant, call, a).outcome;
      && (Within(cfg, s) ==> Within(cfg, r.s))
      && (r.Running? && !a.steer ==> PausesWithin(r.s))
      && (PausesWithin(s) ==> ConsecutivePauses(r.s.steps) <= MAX_PAUSES + 1)
      && |r.s.steps| == |s.steps| + 1
  {
    hide RecoveryCount, ConsecutivePauses, ValidContinuation, Settle, PauseTurn;
    PauseWithin(cfg, s, assistant, call, a.steer);
    var next := s.(messages := AppendFinal(s.messages, assistant), steps := s.steps + [NewStep(s, call, Finish)]);
    QuietStep(s, next.steps, NewStep(s, call, Finish));
    DecideCounters(next, Fail);
    SettleWithin(cfg, next, s.messages, assistant, call.stop, a);
  }

  lemma FinishToolsWithin(cfg: Config, s: State, assistant: Message, results: seq<ToolResult>, a: Answers)
    requires s.steps != [] && PausesWithin(s)
    ensures var r := FinishTools(cfg, s, assistant, results, a).outcome.s;
      (Within(cfg, s) ==> Within(cfg, r)) && PausesWithin(r) && |r.steps| == |s.steps|
  {
    hide RecoveryCount, ConsecutivePauses, ValidContinuation, TerminalSucceeded;
    var r := FinishTools(cfg, s, assistant, results, a).outcome.s;
    CountsAfterMap(s.steps, LastStep(r));
  }

  /** A batch runs only when it fits what is left of the call budget. */
  lemma ToolWithin(cfg: Config, s: State, assistant: Message, call: ModelCall, turn: int, a: Answers)
    ensures var r := ToolTurn(cfg, s, assistant, call, turn, a).outcome.s;
      (Within(cfg, s) ==> Within(cfg, r)) && PausesWithin(r) && |r.steps| == |s.steps| + 1
  {
    hide RecoveryCount, ConsecutivePauses, ValidContinuation, FinishTools, Add;
    var started := StartTools(s, assistant, call, turn);
    QuietStep(s, started.steps, NewStep(s, call, Continue));
    DecideCounters(started, Fail);
    var recorded := RecordResults(started, |assistant.toolCalls|, a.tools.results, a.tools.childUsage);
    CountsAfterMap(started.steps, LastStep(recorded));
    FinishToolsWithin(cfg, recorded, assistant, a.tools.results, a);
  }

  lemma ActWithin(cfg: Config, s: State, a: Answers)
    ensures var r := Act(cfg, s, a).outcome;
      && (Within(cfg, s) ==> Within(cfg, r.s))
      && (PausesWithin(s) && r.Running? && !a.steer ==> PausesWithin(r.s))
      && (PausesWithin(s) ==> ConsecutivePauses(r.s.steps) <= MAX_PAUSES + 1)
      && |r.s.steps| <= |s.steps| + 1
  {
    hide RecoveryCount, ConsecutivePauses, AnswerTurn, ToolTurn, Add, Ask;
    AskCounters(cfg, s, a);
    var (asked, answer) := Ask(cfg, s, a);
    match answer
    case Replied(assistant, usage, stop) =>
      var counted := asked.(turn := asked.turn + 1, usage := Add(asked.usage, usage));
      AnswerWithin(cfg, counted, assistant, ModelCall(usage, stop), a);
      ToolWithin(cfg, counted, assistant, ModelCall(usage, stop), asked.turn, a);
    case Interrupted(assistant, usage, stop) =>
      var next := RecordInterrupted(asked, assistant, usage, stop);
      QuietStep(asked, next.steps, LastStep(next));
    case Broken(assistant, usage, stop) =>
      var next := RecordBroken(asked, assistant, usage, stop);
      QuietStep(asked, next.steps, LastStep(next));
    case InterruptedUnopened =>
      if asked.steps != [] {
        CountsAfterMap(asked.steps, LastStep(asked).(context := asked.context, tokens := asked.usage.total));
      }
    case BrokenUnopened =>
  }

  /** Over every run, tool calls stay within their budget and recoveries within theirs; with
      no corrections queued, a run never continues past its allowance of pauses in a row. */
  lemma {:induction false} RunWithin(cfg: Config, s: State, script: seq<Answers>)
    requires Within(cfg, s) && PausesWithin(s)
    ensures var r := Run(cfg, s, script).outcome;
      && Within(cfg, r.s)
      && (r.Running? && (forall a | a in script :: !a.steer) ==> PausesWithin(r.s))
    decreases |script|
  {
    hide Within, PausesWithin, Open, Act;
    if IterationAllowed(cfg, |s.steps|) && script != [] {
      var a := script[0];
      var ready := Open(cfg, s, a.inputs).outcome;
      OpenCounters(cfg, s, a.inputs);
      SameCountersWithin(cfg, s, ready.s);
      if ready.Running? {
        ActWithin(cfg, ready.s, a);
        var next := Act(cfg, ready.s, a).outcome;
        if next.Running? {
          if PausesWithin(next.s) {
            RunWithin(cfg, next.s, script[1..]);
          } else {
            RunWithinCalls(cfg, next.s, script[1..]);
          }
        }
      }
    }
  }

  lemma SameCountersWithin(cfg: Config, s: State, t: State)
    requires Within(cfg, s) && SameCounters(s, t)
    ensures Within(cfg, t) && (PausesWithin(s) ==> PausesWithin(t))
  {
  }

  lemma {:induction false} RunWithinCalls(cfg: Config, s: State, script: seq<Answers>)
    requires Within(cfg, s)
    ensures Within(cfg, Run(cfg, s, script).outcome.s)
    decreases |script|
  {
    hide Within, Open, Act;
    if IterationAllowed(cfg, |s.steps|) && script != [] {
      var a := script[0];
      var ready := Open(cfg, s, a.inputs).outcome;
      OpenCounters(cfg, s, a.inputs);
      SameCountersWithin(cfg, s, ready.s);
      if ready.Running? {
        ActWithin(cfg, ready.s, a);
        var next := Act(cfg, ready.s, a).outcome;
        if next.Running? {
          RunWithinCalls(cfg, next.s, script[1..]);
        }
      }
    }
  }

  /** Every queued correction that keeps a pausing run going reaches its next turn. */
  predicate Delivered(script: seq<Answers>) {
    forall i :: 0 <= i < |script| - 1 && script[i].steer ==> script[i + 1].inputs != []
  }

  lemma AdmitResets(s: State, inputs: seq<Message>)
    requires inputs != []
    ensures ConsecutivePauses(Admit(s, inputs).steps) == 0
  {
    if s.steps != [] && HasPause(LastStep(s)) {
      var last := LastStep(s);
      CountsAfterMap(s.steps, last.(observations := last.observations + [PauseInputProgress]));
    }
  }

  /** New input starts a new row of pauses. */
  lemma OpenResets(cfg: Config, s: State, inputs: seq<Message>)
    requires inputs != []
    ensures ConsecutivePauses(Open(cfg, s, inputs).outcome.s.steps) == 0
  {
    hide RecoveryCount, ConsecutivePauses, Compress, ValidContinuation, Admit;
    AdmitResets(s, inputs);
    var admitted := Admit(s, inputs);
    if CompactionFor(cfg, admitted).Some? {
      CompressCounters(admitted, CompactionFor(cfg, admitted).value, cfg.contextTarget, |inputs|);
    }
  }

  /** With corrections arriving, the row of pauses since the last input still stays within
      its allowance: only the pause a queued correction forgives may exceed it, by one. */
  lemma {:induction false} RunPausesWithin(cfg: Config, s: State, script: seq<Answers>)
    requires Delivered(script) && ConsecutivePauses(s.steps) <= MAX_PAUSES + 1
    requires PausesWithin(s) || script == [] || script[0].inputs != []
    ensures var r := Run(cfg, s, script).outcome;
      && ConsecutivePauses(r.s.steps) <= MAX_PAUSES + 1
      && (r.Running? && script != [] && !script[|script| - 1].steer ==> PausesWithin(r.s))
    decreases |script|
  {
    hide ConsecutivePauses, Open, Act;
    if IterationAllowed(cfg, |s.steps|) && script != [] {
      var a := script[0];
      var ready := Open(cfg, s, a.inputs).outcome;
      OpenCounters(cfg, s, a.inputs);
      if a.inputs != [] {
        OpenResets(cfg, s, a.inputs);
      }
      if ready.Running? {
        ActWithin(cfg, ready.s, a);
        var next := Act(cfg, ready.s, a).outcome;
        if next.Running? {
          assert a.steer && |script| > 1 ==> script[1].inputs != [];
          RunPausesWithin(cfg, next.s, script[1..]);
        }
      }
    }
  }

  /** A run never takes more steps than its ceiling allows. */
  lemma {:induction false} RunStepsWithin(cfg: Config, s: State, script: seq<Answers>)
    requires cfg.maxSteps > 0 && |s.steps| <= cfg.maxSteps
    ensures |Run(cfg, s, script).outcome.s.steps| <= cfg.maxSteps
    decreases |script|
  {
    hide Open, Act;
    if IterationAllowed(cfg, |s.steps|) && script != [] {
      var a := script[0];
      var ready := Open(cfg, s, a.inputs).outcome;
      OpenCounters(cfg, s, a.inputs);
      if ready.Running? {
        OpenBelowCeiling(cfg, s, a.inputs);
        ActWithin(cfg, ready.s, a);
        var next := Act(cfg, ready.s, a).outcome;
        if next.Running? {
          RunStepsWithin(cfg, next.s, script[1..]);
        }
      }
    }
  }

  lemma OpenBelowCeiling(cfg: Config, s: State, inputs: seq<Message>)
    requires cfg.maxSteps > 0 && Open(cfg, s, inputs).outcome.Running?
    ensures |s.steps| < cfg.maxSteps
  {
    hide ValidContinuation, MaybeCompact, Admit;
  }

  /* ---------- the step ceiling ---------- */

  /** The check before tools as its comment words it: against the steps before this turn's. */
  function BlockBeforeStep(cfg: Config, s: State, batch: nat): Option<Dimension> {
    var blocked := BudgetRemaining(cfg, s.usage, s.toolCallsUsed, |s.steps| - 1);
    if blocked.Some? then blocked
    else if cfg.maxToolCalls > 0 && s.toolCallsUsed + batch > cfg.maxToolCalls then Some(ToolCallCount)
    else None
  }

  /** Code and comment part exactly when this turn's step reaches the ceiling while tokens
      and tool calls are left; the code then blocks. */
  lemma StepCeilingIff(cfg: Config, s: State, batch: nat)
    ensures PreDispatchBlock(cfg, s, batch) != BlockBeforeStep(cfg, s, batch) <==>
      && cfg.maxSteps > 0 && |s.steps| == cfg.maxSteps
      && !(cfg.maxTokens > 0 && s.usage.total >= cfg.maxTokens)
      && !(cfg.maxToolCalls > 0 && s.toolCallsUsed >= cfg.maxToolCalls)
    ensures PreDispatchBlock(cfg, s, batch) != BlockBeforeStep(cfg, s, batch) ==>
      PreDispatchBlock(cfg, s, batch) == Some(StepCount)
  {
  }

  /** The dimension that refuses a tool turn of `batch` calls, given the state before it. */
  function RefusedBy(cfg: Config, s: State, usage: Usage, batch: nat): Option<Dimension> {
    if cfg.maxTokens > 0 && (usage.total == 0 || Add(s.usage, usage).total >= cfg.maxTokens) then Some(Tokens)
    else if cfg.maxToolCalls > 0 && s.toolCallsUsed >= cfg.maxToolCalls then Some(ToolCallCount)
    else if cfg.maxSteps > 0 && |s.steps| + 1 >= cfg.maxSteps then Some(StepCount)
    else if cfg.maxToolCalls > 0 && s.toolCallsUsed + batch > cfg.maxToolCalls then Some(ToolCallCount)
    else None
  }

  /** A tool turn is refused by a budget exactly in those cases, whatever its tools: none has
      run, and the turn's message and failed step are all that was added. The step ceiling
      refuses the turn that reaches it, terminal tools included. */
  lemma ToolTurnRefusedIff(cfg: Config, s: State, assistant: Message, usage: Usage, stop: StopReason, a: Answers)
    requires Good(s) && AnswerOk(Replied(assistant, usage, stop)) && assistant.toolCalls != []
    requires Add(s.usage, usage).total < MAX_INT
    ensures var r := Reply(cfg, s, assistant, usage, stop, a).outcome;
      var refused := RefusedBy(cfg, s, usage, |assistant.toolCalls|);
      && (r.Stopped? && r.reason.Exhausted? <==> refused.Some?)
      && (refused.Some? ==>
            && r.reason == Exhausted(refused.value) && r.s.toolCallsUsed == s.toolCallsUsed
            && r.s.messages == s.messages + [assistant.(toolCalls := NumberCalls(assistant.toolCalls, s.turn))]
            && |r.s.steps| == |s.steps| + 1 && LastStep(r.s).decision == Fail)
  {
    hide Good, AnswerOk, Add, ValidContinuation, ToolTurn, StartTools, Decide, RefusedBy, Blocked;
    StartToolsSound(s, assistant, usage, stop);
    var counted, call := s.(turn := s.turn + 1, usage := Add(s.usage, usage)), ModelCall(usage, stop);
    RepliesWithTools(cfg, s, assistant, usage, stop, a);
    ToolTurnBlocked(cfg, counted, assistant, call, s.turn, a);
    StartedShape(counted, assistant, call, s.turn);
    BlockedIs(cfg, s, StartTools(counted, assistant, call, s.turn), usage, |assistant.toolCalls|);
  }

  lemma RepliesWithTools(cfg: Config, s: State, assistant: Message, usage: Usage, stop: StopReason, a: Answers)
    requires assistant.toolCalls != []
    ensures var counted := s.(turn := s.turn + 1, usage := Add(s.usage, usage));
      Reply(cfg, s, assistant, usage, stop, a) == ToolTurn(cfg, counted, assistant, ModelCall(usage, stop), s.turn, a)
  {
    hide Add, ToolTurn, AnswerTurn;
  }

  /** What refuses the batch of a tool turn that has just been started. */
  function Blocked(cfg: Config, started: State, usage: Usage, batch: nat): Option<Dimension> {
    if cfg.maxTokens > 0 && usage.total == 0 then Some(Tokens) else PreDispatchBlock(cfg, started, batch)
  }

  lemma ToolTurnBlocked(cfg: Config, s: State, assistant: Message, call: ModelCall, turn: int, a: Answers)
    requires ValidContinuation(Snapshot(StartTools(s, assistant, call, turn), ModelComplete))
    ensures var started := StartTools(s, assistant, call, turn);
      var blocked, r := Blocked(cfg, started, call.usage, |assistant.toolCalls|), ToolTurn(cfg, s, assistant, call, turn, a).outcome;
      && started.steps != []
      && (if blocked.Some? then r == Halt(Exhausted(blocked.value), Decide(started, Fail)) else !(r.Stopped? && r.reason.Exhausted?))
  {
    hide ValidContinuation, FinishTools, PreDispatchBlock, RecordResults;
    var recorded := RecordResults(StartTools(s, assistant, call, turn), |assistant.toolCalls|, a.tools.results, a.tools.childUsage);
    RecordedHasSteps(StartTools(s, assistant, call, turn), |assistant.toolCalls|, a.tools.results, a.tools.childUsage);
    FinishIsNoBudget(cfg, recorded, assistant, a.tools.results, a);
  }

  lemma RecordedHasSteps(s: State, batch: nat, results: seq<ToolResult>, childUsage: Usage)
    requires s.steps != []
    ensures RecordResults(s, batch, results, childUsage).steps != []
  {
    hide Add;
  }

  lemma StartedShape(s: State, assistant: Message, call: ModelCall, turn: int)
    ensures var started := StartTools(s, assistant, call, turn);
      && started.steps != [] && |started.steps| == |s.steps| + 1 && started.usage == s.usage && started.toolCallsUsed == s.toolCallsUsed
      && var failed := Decide(started, Fail);
      && failed.toolCallsUsed == s.toolCallsUsed && |failed.steps| == |s.steps| + 1 && LastStep(failed).decision == Fail
      && failed.messages == s.messages + [assistant.(toolCalls := NumberCalls(assistant.toolCalls, turn))]
  {
  }

  lemma BlockedIs(cfg: Config, s: State, started: State, usage: Usage, batch: nat)
    requires started.usage == Add(s.usage, usage) && started.toolCallsUsed == s.toolCallsUsed && |started.steps| == |s.steps| + 1
    ensures Blocked(cfg, started, usage, batch) == RefusedBy(cfg, s, usage, batch)
  {
    hide Add;
  }

  lemma FinishIsNoBudget(cfg: Config, s: State, assistant: Message, results: seq<ToolResult>, a: Answers)
    requires s.steps != []
    ensures var r := FinishTools(cfg, s, assistant, results, a).outcome; !(r.Stopped? && r.reason.Exhausted?)
  {
    hide ValidContinuation, TerminalSucceeded;
  }

  /* ---------- termination ---------- */

  /** A stream of answers without live input: no interruptions, no negative token counts. */
  predicate Uncontrolled(a: Answers) {
    && !a.first.Interrupted? && !a.first.InterruptedUnopened? && !a.second.Interrupted? && !a.second.InterruptedUnopened?
    && (a.first.Replied? ==> 0 <= a.first.usage.total) && (a.second.Replied? ==> 0 <= a.second.usage.total)
  }

  lemma AddsAtLeast(u: Usage, v: Usage)
    requires Consistent(u) && 0 < v.total
    ensures Consistent(Add(u, v)) && Add(u, v).total >= Min(u.total + 1, MAX_INT)
  {
    NormalizedIffConsistent(u);
    AddClosed(u, v);
    assert NormalizedUsage(v).total >= v.total;
    SumTotal(u, NormalizedUsage(v));
  }

  lemma SumTotal(u: Usage, v: Usage)
    requires Consistent(u) && Consistent(v)
    ensures Sum(u, v).total == Min(u.total + v.total, MAX_INT)
  {
  }

  /** Under a token ceiling a turn that reported nothing never continues. */
  lemma ContinuingTurnReports(cfg: Config, s: State, assistant: Message, usage: Usage, stop: StopReason, a: Answers)
    requires cfg.maxTokens > 0 && Reply(cfg, s, assistant, usage, stop, a).outcome.Running?
    ensures usage.total != 0
  {
    hide ValidContinuation, FinishTools, Settle, Add, ConsecutivePauses, PreDispatchBlock, RecordResults;
  }

  lemma ReplySteps(cfg: Config, s: State, assistant: Message, usage: Usage, stop: StopReason, a: Answers)
    ensures |Reply(cfg, s, assistant, usage, stop, a).outcome.s.steps| == |s.steps| + 1
  {
    hide Within, AnswerTurn, ToolTurn, Add;
    var counted := s.(turn := s.turn + 1, usage := Add(s.usage, usage));
    AnswerWithin(cfg, counted, assistant, ModelCall(usage, stop), a);
    ToolWithin(cfg, counted, assistant, ModelCall(usage, stop), s.turn, a);
  }

  lemma ActProgress(cfg: Config, s: State, a: Answers)
    requires Consistent(s.usage) && Uncontrolled(a)
    requires Act(cfg, s, a).outcome.Running?
    ensures var r := Act(cfg, s, a).outcome.s;
      && Consistent(r.usage) && |r.steps| == |s.steps| + 1
      && (cfg.maxTokens > 0 ==> r.usage.total >= Min(s.usage.total + 1, MAX_INT))
  {
    hide Consistent, Within, Compress, Reply, Add, RecordInterrupted, RecordBroken;
    AskGrows(cfg, s, a);
    AskCounters(cfg, s, a);
    var (asked, answer) := Ask(cfg, s, a);
    var assistant, usage, stop := answer.assistant, answer.usage, answer.stop;
    ReplyGrows(cfg, asked, assistant, usage, stop, a);
    ReplySteps(cfg, asked, assistant, usage, stop, a);
    if cfg.maxTokens > 0 {
      ContinuingTurnReports(cfg, asked, assistant, usage, stop, a);
      AddsAtLeast(asked.usage, usage);
    }
  }

  lemma OpenProgress(cfg: Config, s: State, inputs: seq<Message>)
    requires s.steps != [] && cfg.maxTokens > 0 && Open(cfg, s, inputs).outcome.Running?
    ensures s.usage.total < cfg.maxTokens
  {
    hide ValidContinuation, MaybeCompact, Admit;
  }

  /** Every continuing pass adds a step and, under a token ceiling, spends tokens. */
  lemma PassProgress(cfg: Config, s: State, a: Answers)
    requires Consistent(s.usage) && Uncontrolled(a)
    requires OnePass(cfg, s, a).outcome.Running?
    ensures var r := OnePass(cfg, s, a).outcome.s;
      && Consistent(r.usage) && |r.steps| == |s.steps| + 1
      && (cfg.maxTokens > 0 ==> r.usage.total >= Min(s.usage.total + 1, MAX_INT))
      && (cfg.maxTokens > 0 && s.steps != [] ==> s.usage.total < cfg.maxTokens)
  {
    hide Consistent, Within, Open, Act, Uncontrolled;
    OpenGrows(cfg, s, a.inputs);
    OpenCounters(cfg, s, a.inputs);
    var ready := Open(cfg, s, a.inputs).outcome.s;
    ActProgress(cfg, ready, a);
    if s.steps != [] && cfg.maxTokens > 0 {
      OpenProgress(cfg, s, a.inputs);
    }
  }

  /** Without live input every pass is one model turn, so a run still going after a script
      has taken one step per answer; under a token ceiling the script cannot be longer than
      the tokens left (and one turn, when none has been taken). */
  lemma {:induction false} RunStops(cfg: Config, s: State, script: seq<Answers>)
    requires Consistent(s.usage) && cfg.maxTokens <= MAX_INT
    requires forall a | a in script :: Uncontrolled(a)
    requires Run(cfg, s, script).outcome.Running?
    ensures |Run(cfg, s, script).outcome.s.steps| == |s.steps| + |script|
    ensures !cfg.unlimited ==> |s.steps| + |script| < cfg.maxIterations
    ensures cfg.maxTokens > 0 ==> |script| <= Max(if s.steps == [] then 1 else 0, cfg.maxTokens - s.usage.total)
    decreases |script|
  {
    hide Consistent, Within, OnePass, Uncontrolled;
    if script != [] {
      assert script[0] in script;
      PassProgress(cfg, s, script[0]);
      RunStops(cfg, OnePass(cfg, s, script[0]).outcome.s, script[1..]);
    }
  }
}
