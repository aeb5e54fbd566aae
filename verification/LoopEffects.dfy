/**
 What a pass adds to the history, the totals and the steps of the boundary before its model
 call, and so what a run that ends hands back.
 */
module LoopEffects {
  import opened Wrappers
  import opened Messages
  import opened TokenUsage
  import opened Continuations
  import opened AgentLoop
  import opened LoopLimits
  import opened LoopResume
  import History

  /* ---------- one more turn ---------- */

  /** An answer, unless it says and thinks nothing. */
  function Told(m: Message): (ms: seq<Message>)
    ensures m in ms <==> m.text != "" || m.thinking != ""
  {
    if m.text == "" && m.thinking == "" then [] else [m]
  }

  /** One model turn without tools on top of `base`: these messages, one step, its usage. */
  predicate Turned(base: State, after: State, call: ModelCall, added: seq<Message>, decision: Decision, observations: seq<Observation>) {
    && after.messages == base.messages + added
    && after.usage == Add(base.usage, call.usage) && after.context == base.context
    && after.toolCallsUsed == base.toolCallsUsed && after.turn == base.turn + 1
    && after.steps == base.steps
      + [Step(|base.steps|, Some(call), [], observations, decision, base.context, after.usage.total, base.toolCallsUsed)]
  }

  /** The run stopped for this reason, having counted the turn, with this thinking to report. */
  predicate Ended(base: State, r: Outcome, reason: Reason, thinking: string) {
    r.Stopped? && r.reason == reason && r.iterations == |base.steps| + 1 && r.thinking == thinking
  }

  predicate RetryAllowed(cfg: Config, base: State) {
    cfg.unlimited || |base.steps| + 1 < cfg.maxIterations
  }

  /** What becomes of an answer that got past its boundary and reported its tokens. */
  predicate Judged(cfg: Config, base: State, assistant: Message, call: ModelCall, a: Answers, r: Outcome) {
    match a.verdict
    case Block => Ended(base, r, OutputBlocked, "") && Turned(base, r.s, call, Told(assistant), Fail, [])
    case Retry(includeRejected, replacement, messages) =>
      if messages != [] && RetryAllowed(cfg, base)
      then r.Running? && Turned(base, r.s, call, (if includeRejected then Told(assistant) else []) + replacement + messages, Continue, [])
      else Ended(base, r, OutputBlocked, "") && Turned(base, r.s, call, Told(assistant), Fail, [])
    case Accept(output) =>
      if output.recovery != "" then
        if RecoveryCount(base.steps) >= 3
        then Ended(base, r, RecoveryLimit, "") && Turned(base, r.s, call, Told(assistant), Fail, [])
        else r.Running? && Turned(base, r.s, call, Told(output) + [NewText(User, cfg.correction(output.recovery))], Continue, [ResponseRecovery])
      else if a.followUp
      then r.Running? && Turned(base, r.s, call, Told(output), Continue, [])
      else Ended(base, r, Finished(call.stop), output.thinking) && Turned(base, r.s, call, Told(output), Finish, [])
  }

  lemma AppendTold(ms: seq<Message>, output: Message)
    ensures AppendFinal(ms, output) == ms + Told(output)
  {
  }

  /** Changing the last of the steps. */
  lemma LastMapped(steps: seq<Step>, step: Step, next: Step)
    ensures MapLast(steps + [step], next) == steps + [next]
    ensures (steps + [step])[|steps + [step]| - 1] == step
  {
  }

  lemma QuietCount(steps: seq<Step>, step: Step)
    requires step.observations == []
    ensures RecoveryCount(steps + [step]) == RecoveryCount(steps)
  {
    RecoveriesSnoc(steps, step);
  }

  /** How a turn without tools ends: the answer is kept if the run stops before it is accepted; of the
      answers accepted, replaced or retried, what the verdict says is what the history gets. */
  predicate AnswerEnded(cfg: Config, base: State, assistant: Message, call: ModelCall, a: Answers, r: Outcome) {
    || (Ended(base, r, BoundaryRejected, "") && Turned(base, r.s, call, Told(assistant), Finish, []))
    || (if cfg.maxTokens > 0 && call.usage.total == 0
        then Ended(base, r, Exhausted(Tokens), "") && Turned(base, r.s, call, Told(assistant), Fail, [])
        else Judged(cfg, base, assistant, call, a, r))
  }

  lemma AnswerEnds(cfg: Config, base: State, assistant: Message, call: ModelCall, a: Answers)
    requires assistant.toolCalls == [] && !call.stop.Pause?
    ensures AnswerEnded(cfg, base, assistant, call, a, Reply(cfg, base, assistant, call.usage, call.stop, a).outcome)
  {
    hide Add, ValidContinuation, RecoveryCount, Settle, Told;
    var counted := base.(turn := base.turn + 1, usage := Add(base.usage, call.usage));
    var step := NewStep(counted, call, Finish);
    var next := counted.(messages := AppendFinal(base.messages, assistant), steps := base.steps + [step]);
    AppendTold(base.messages, assistant);
    LastMapped(base.steps, step, step.(decision := Fail));
    SettleEnds(cfg, base, next, step, assistant, call, a);
    assert call == ModelCall(call.usage, call.stop);
  }

  lemma SettleEnds(cfg: Config, base: State, next: State, step: Step, assistant: Message, call: ModelCall, a: Answers)
    requires next.steps == base.steps + [step] && step.observations == [] && Turned(base, next, call, Told(assistant), Finish, [])
    ensures Judged(cfg, base, assistant, call, a, Settle(cfg, next, base.messages, assistant, call.stop, a))
  {
    hide Add, RecoveryCount, Told;
    assert LastStep(next) == step by { LastMapped(base.steps, step, step); }
    LastMapped(base.steps, step, step.(decision := Fail));
    LastMapped(base.steps, step, step.(decision := Continue));
    LastMapped(base.steps, step, step.(decision := Continue, observations := step.observations + [ResponseRecovery]));
    QuietCount(base.steps, step);
    AppendTold(base.messages, assistant);
    match a.verdict
    case Block =>
    case Retry(includeRejected, replacement, messages) =>
      JoinRetry(base.messages, if includeRejected then Told(assistant) else [], replacement, messages);
    case Accept(output) =>
      AppendTold(base.messages, output);
      JoinRetry(base.messages, Told(output), [], [NewText(User, cfg.correction(output.recovery))]);
      assert step.observations + [ResponseRecovery] == [ResponseRecovery];
  }

  lemma JoinRetry(base: seq<Message>, a: seq<Message>, b: seq<Message>, c: seq<Message>)
    ensures base + (a + b + c) == ((base + a) + b) + c && base + [] == base
    ensures b == [] ==> base + (a + c) == (base + a) + c
  {
  }

  /** A paused turn is kept and the run goes on, unless its tokens are unreported against a
      budget, or it is the ninth in a row and no correction waits. */
  predicate PauseEnded(cfg: Config, base: State, assistant: Message, call: ModelCall, a: Answers, r: Outcome) {
    if cfg.maxTokens > 0 && call.usage.total == 0
    then Ended(base, r, Exhausted(Tokens), "") && Turned(base, r.s, call, [assistant], Fail, [PauseContinuation])
    else if ConsecutivePauses(base.steps) >= 8 && !a.steer
    then Ended(base, r, PauseLimit, "") && Turned(base, r.s, call, [assistant], Fail, [PauseContinuation])
    else
      && (r.Running? || Ended(base, r, BoundaryRejected, ""))
      && Turned(base, r.s, call, [assistant], Continue, [PauseContinuation])
      && ConsecutivePauses(r.s.steps) == ConsecutivePauses(base.steps) + 1
  }

  lemma PauseEnds(cfg: Config, base: State, assistant: Message, usage: Usage, a: Answers)
    requires assistant.toolCalls == []
    ensures PauseEnded(cfg, base, assistant, ModelCall(usage, Pause), a, Reply(cfg, base, assistant, usage, Pause, a).outcome)
  {
    hide Add, ValidContinuation, ConsecutivePauses;
    var counted, call := base.(turn := base.turn + 1, usage := Add(base.usage, usage)), ModelCall(usage, Pause);
    var step := NewStep(counted, call, Continue).(observations := [PauseContinuation]);
    LastMapped(base.steps, step, step.(decision := Fail));
    PausesSnoc(base.steps, step);
  }

  /** An interrupted turn that had begun is kept out of the model's sight and without its
      calls, as a turn that goes on. */
  predicate CutShort(base: State, after: State, assistant: Message, call: ModelCall) {
    var n, nothing := |base.messages|, assistant.text == "" && assistant.thinking == "" && call.usage == ZERO;
    && |after.messages| == n + 1 && after.messages[..n] == base.messages
    && var kept := after.messages[n];
    && kept.archived && kept.toolCalls == [] && kept.text == assistant.text && kept.thinking == assistant.thinking
    && kept.role == (if nothing then Assistant else assistant.role)
    && after == State(after.messages, after.steps, if nothing then base.usage else Add(base.usage, call.usage),
         base.context, base.toolCallsUsed, base.turn + 1)
    && after.steps == base.steps
      + [Step(|base.steps|, Some(call), [], [], Continue, base.context, after.usage.total, base.toolCallsUsed)]
  }

  /** A turn that broke is kept as it is, unless it brought nothing at all. */
  predicate BrokenOff(base: State, after: State, assistant: Message, call: ModelCall) {
    var nothing := assistant.text == "" && assistant.thinking == "" && assistant.toolCalls == [] && call.usage == ZERO;
    && after == State(base.messages + (if nothing then [] else [assistant]), after.steps,
         if nothing then base.usage else Add(base.usage, call.usage), base.context, base.toolCallsUsed, base.turn)
    && after.steps == base.steps
      + [Step(|base.steps|, Some(call), [], [], Fail, base.context, after.usage.total, base.toolCallsUsed)]
  }

  lemma IncompleteEnds(base: State, assistant: Message, usage: Usage, stop: StopReason)
    ensures CutShort(base, RecordInterrupted(base, assistant, usage, stop), assistant, ModelCall(usage, stop))
    ensures BrokenOff(base, RecordBroken(base, assistant, usage, stop), assistant, ModelCall(usage, stop))
  {
    hide Add;
  }

  /* ---------- a turn with tools ---------- */

  /** The turn's message with its calls numbered, on top of `base`. */
  predicate Asks(m: Message, assistant: Message, turn: int) {
    && |m.toolCalls| == |assistant.toolCalls| && m == assistant.(toolCalls := m.toolCalls)
    && forall k :: 0 <= k < |m.toolCalls| ==> m.toolCalls[k] == assistant.toolCalls[k].(operation := Operation(turn, k))
  }

  /** The results of a batch, as messages in the order they came back. */
  predicate Reports(ms: seq<Message>, results: seq<ToolResult>) {
    && |ms| == |results|
    && forall k :: 0 <= k < |ms| ==> ms[k] == NewText(Tool, "").(toolResult := Some(results[k]))
  }

  /** A step's record of its calls and of what they gave back. */
  predicate Traced(traces: seq<Trace>, calls: seq<ToolCall>, results: seq<ToolResult>) {
    && |traces| == |calls|
    && forall k :: 0 <= k < |calls| ==>
      traces[k] == Trace(calls[k].id, calls[k].name, calls[k].arguments, if k < |results| then results[k].structured else "")
  }

  /** A tool turn that was not dispatched. */
  predicate Undispatched(base: State, after: State, assistant: Message, call: ModelCall, decision: Decision) {
    && |after.messages| == |base.messages| + 1 && after.messages[..|base.messages|] == base.messages
    && Asks(after.messages[|base.messages|], assistant, base.turn)
    && Turned(base, after, call, [after.messages[|base.messages|]], decision, [])
  }

  /** A tool turn that ran: message, results, the usage of its children, its calls counted. */
  predicate Dispatched(base: State, after: State, assistant: Message, call: ModelCall, tools: ToolAnswer, traces: seq<Trace>, decision: Decision) {
    var n := |base.messages|;
    && n < |after.messages| && after.messages[..n] == base.messages
    && Asks(after.messages[n], assistant, base.turn) && Reports(after.messages[n + 1..], tools.results)
    && after.usage == Add(Add(base.usage, call.usage), tools.childUsage) && after.context == base.context
    && after.toolCallsUsed == base.toolCallsUsed + |assistant.toolCalls| && after.turn == base.turn + 1
    && after.steps == base.steps
      + [Step(|base.steps|, Some(call), traces, [], decision, base.context, after.usage.total, after.toolCallsUsed)]
  }

  /** A call of a terminal tool succeeded. */
  predicate TerminalDone(cfg: Config, assistant: Message, results: seq<ToolResult>) {
    exists k :: 0 <= k < |assistant.toolCalls| && k < |results| && !results[k].isError && cfg.terminal(assistant.toolCalls[k].name)
  }

  /** The batch finds no budget: none is left, or too few calls for it. */
  function NoBudget(cfg: Config, base: State, assistant: Message, call: ModelCall): Option<Dimension> {
    if cfg.maxTokens > 0 && (call.usage.total == 0 || cfg.maxTokens <= Add(base.usage, call.usage).total) then Some(Tokens)
    else if cfg.maxToolCalls > 0 && cfg.maxToolCalls <= base.toolCallsUsed then Some(ToolCallCount)
    else if cfg.maxSteps > 0 && cfg.maxSteps <= |base.steps| + 1 then Some(StepCount)
    else if cfg.maxToolCalls > 0 && cfg.maxToolCalls < base.toolCallsUsed + |assistant.toolCalls| then Some(ToolCallCount)
    else None
  }

  /** How a tool turn that ran is decided: a terminal tool ends the run unless input waits. */
  function Decided(cfg: Config, assistant: Message, a: Answers): Decision {
    if TerminalDone(cfg, assistant, a.tools.results) && !a.followUp then Finish
    else if a.decision.Finish? || a.decision.Fail? then a.decision
    else Continue
  }

  predicate Worked(cfg: Config, base: State, assistant: Message, call: ModelCall, a: Answers, r: Outcome) {
    if a.tools.ToolsFailed? then Ended(base, r, ToolError, "") && Dispatched(base, r.s, assistant, call, a.tools, [], Continue)
    else
      && r.s.steps != [] && Traced(LastStep(r.s).traces, assistant.toolCalls, a.tools.results)
      && Dispatched(base, r.s, assistant, call, a.tools, LastStep(r.s).traces, Decided(cfg, assistant, a))
      && (|| Ended(base, r, BoundaryRejected, "")
          || match Decided(cfg, assistant, a)
             case Finish => Ended(base, r, Finished(Complete), assistant.thinking)
             case Fail => Ended(base, r, StepAborted, "")
             case _ => r.Running?)
  }

  predicate ToolsEnded(cfg: Config, base: State, assistant: Message, call: ModelCall, a: Answers, r: Outcome) {
    var refused := NoBudget(cfg, base, assistant, call);
    || (Ended(base, r, BoundaryRejected, "") && Undispatched(base, r.s, assistant, call, Continue))
    || (if refused.Some?
        then Ended(base, r, Exhausted(refused.value), "") && Undispatched(base, r.s, assistant, call, Fail)
        else Worked(cfg, base, assistant, call, a, r))
  }

  /** A turn with tools: refused without a trace but its message, or run and recorded. */
  lemma ToolsEnd(cfg: Config, base: State, assistant: Message, call: ModelCall, a: Answers)
    requires assistant.toolCalls != []
    ensures ToolsEnded(cfg, base, assistant, call, a, Reply(cfg, base, assistant, call.usage, call.stop, a).outcome)
  {
    hide Add, ValidContinuation, FinishTools, RecordResults, Worked;
    var counted := base.(turn := base.turn + 1, usage := Add(base.usage, call.usage));
    var started := StartTools(counted, assistant, call, base.turn);
    var step := NewStep(counted, call, Continue);
    LastMapped(base.steps, step, step.(decision := Fail));
    assert call == ModelCall(call.usage, call.stop);
    RecordEnds(cfg, base, started, assistant, call, a);
  }

  lemma RecordEnds(cfg: Config, base: State, started: State, assistant: Message, call: ModelCall, a: Answers)
    requires started == StartTools(base.(turn := base.turn + 1, usage := Add(base.usage, call.usage)), assistant, call, base.turn)
    ensures var recorded := RecordResults(started, |assistant.toolCalls|, a.tools.results, a.tools.childUsage);
      && (a.tools.ToolsFailed? ==> Worked(cfg, base, assistant, call, a, Halt(ToolError, recorded)))
      && (a.tools.ToolsRan? ==> Worked(cfg, base, assistant, call, a, FinishTools(cfg, recorded, assistant, a.tools.results, a).outcome))
  {
    hide Add, ValidContinuation, TracesOf, Traced, TerminalSucceeded, TerminalDone;
    var step := NewStep(base.(turn := base.turn + 1, usage := Add(base.usage, call.usage)), call, Continue);
    var recorded := RecordResults(started, |assistant.toolCalls|, a.tools.results, a.tools.childUsage);
    var counted := step.(tokens := recorded.usage.total, toolCalls := recorded.toolCallsUsed);
    LastMapped(base.steps, step, counted);
    var n := |base.messages|;
    assert recorded.messages[n + 1..] == ResultMessages(a.tools.results);
    TracedBy(assistant.toolCalls, a.tools.results);
    SameTerminal(cfg, assistant, a.tools.results);
    var traces := TracesOf(assistant.toolCalls, a.tools.results);
    LastMapped(base.steps, counted, counted.(traces := traces, decision := Decided(cfg, assistant, a), context := recorded.context));
  }

  lemma TracedBy(calls: seq<ToolCall>, results: seq<ToolResult>)
    ensures Traced(TracesOf(calls, results), calls, results)
  {
  }

  lemma SameTerminal(cfg: Config, assistant: Message, results: seq<ToolResult>)
    ensures TerminalSucceeded(cfg, assistant.toolCalls, results) <==> TerminalDone(cfg, assistant, results)
  {
  }

  /* ---------- opening a pass ---------- */

  /** The inputs joined the history; if there are any, a row of pauses ends with them. */
  predicate Joined(s: State, after: State, inputs: seq<Message>) {
    var n := |s.steps|;
    && after == s.(messages := s.messages + inputs, steps := after.steps)
    && |after.steps| == n && (n > 0 ==> after.steps[..n - 1] == s.steps[..n - 1])
    && (n > 0 ==> after.steps[n - 1] == s.steps[n - 1].(observations := s.steps[n - 1].observations
          + (if inputs != [] && HasPause(s.steps[n - 1]) then [PauseInputProgress] else [])))
    && (inputs != [] ==> ConsecutivePauses(after.steps) == 0)
  }

  /** A history in place of another, and what making it cost, on the totals and the last step. */
  predicate Squeezed(s: State, after: State, messages: seq<Message>, summary: Usage) {
    var n := |s.steps|;
    && after == State(messages, after.steps, Add(s.usage, summary), Add(s.context, summary), s.toolCallsUsed, s.turn)
    && |after.steps| == n && (n > 0 ==> after.steps[..n - 1] == s.steps[..n - 1])
    && (n > 0 ==> after.steps[n - 1] == s.steps[n - 1].(context := after.context, tokens := after.usage.total))
  }

  /** A compactor's history is taken if its turns are complete and the cache prefix stands. */
  predicate Usable(before: seq<Message>, c: Compaction) {
    && c.Compacted? && History.CompleteTurns(c.messages)
    && var k := History.CachePrefix(before); k <= |before| && k <= |c.messages| && c.messages[..k] == before[..k]
  }

  lemma CompressEnds(s: State, compactor: Compactor, target: int, freshInputs: nat)
    ensures var (ok, next) := Compress(s, compactor, target, freshInputs);
      var c := compactor(s.messages, target, freshInputs);
      && (!History.CompleteTurns(s.messages) ==> !ok && next == s)
      && (History.CompleteTurns(s.messages) ==>
            && (ok <==> Usable(s.messages, c))
            && Squeezed(s, next, if ok then c.messages else s.messages, c.summary))
  {
    hide Add, History.CompleteTurns, History.CachePrefix;
    PrefixWithin(s.messages);
  }

  lemma PrefixWithin(ms: seq<Message>)
    ensures History.CachePrefix(ms) <= |ms|
  {
  }

  lemma AdmitEnds(s: State, inputs: seq<Message>)
    ensures Joined(s, Admit(s, inputs), inputs)
  {
    if inputs != [] {
      AdmitResets(s, inputs);
    }
    hide ConsecutivePauses, HasPause;
    if s.steps != [] {
      assert LastStep(s).observations + [] == LastStep(s).observations;
    }
  }

  /** The first budget that is spent. */
  function Spent(cfg: Config, s: State): Option<Dimension> {
    if cfg.maxTokens > 0 && cfg.maxTokens <= s.usage.total then Some(Tokens)
    else if cfg.maxToolCalls > 0 && cfg.maxToolCalls <= s.toolCallsUsed then Some(ToolCallCount)
    else if cfg.maxSteps > 0 && cfg.maxSteps <= |s.steps| then Some(StepCount)
    else None
  }

  /** The compactor a pass starts with: always with a context target, otherwise once a step
      is there and no more than a fifth of the tokens is left. */
  function Due(cfg: Config, s: State): Option<Compactor> {
    if cfg.contextTarget > 0 then if cfg.compactTo.Some? then cfg.compactTo else cfg.compact
    else if s.steps != [] && cfg.maxTokens > 0 && 5 * (cfg.maxTokens - s.usage.total) <= cfg.maxTokens then cfg.compact
    else None
  }

  predicate StoppedFor(r: Outcome, reason: Reason) {
    r.Stopped? && r.reason == reason && r.iterations == |r.s.steps| && r.thinking == ""
  }

  predicate Opened(cfg: Config, s: State, joined: State, inputs: seq<Message>, r: Outcome) {
    if s.steps != [] && Spent(cfg, s).Some? then StoppedFor(r, Exhausted(Spent(cfg, s).value)) && r.s == joined
    else if Due(cfg, s).None? then (r.Running? || StoppedFor(r, BoundaryRejected)) && r.s == joined
    else if !History.CompleteTurns(joined.messages) then StoppedFor(r, CompactionError) && r.s == joined
    else
      var c := Due(cfg, s).value(joined.messages, cfg.contextTarget, |inputs|);
      if !Usable(joined.messages, c) then StoppedFor(r, CompactionError) && Squeezed(joined, r.s, joined.messages, c.summary)
      else
        && Squeezed(joined, r.s, c.messages, c.summary)
        && (if |inputs| <= |c.messages| && c.messages[|c.messages| - |inputs|..] == inputs
            then r.Running? || StoppedFor(r, BoundaryRejected)
            else StoppedFor(r, InputChanged))
  }

  /** How a pass opens: the inputs join, a spent budget ends the run, a history to compact is
      compacted, and the inputs must still be at its end. */
  lemma OpenEnds(cfg: Config, s: State, inputs: seq<Message>)
    ensures var joined := Admit(s, inputs);
      Joined(s, joined, inputs) && Opened(cfg, s, joined, inputs, Open(cfg, s, inputs).outcome)
  {
    hide Joined, Compress, ValidContinuation, Squeezed, History.CompleteTurns, History.CachePrefix;
    var joined := Admit(s, inputs);
    AdmitEnds(s, inputs);
    assert joined.messages[|s.messages|..] == inputs;
    DueIs(cfg, s, joined);
    assert Spent(cfg, s) == BudgetRemaining(cfg, s.usage, s.toolCallsUsed, |s.steps|);
    if Due(cfg, s).Some? {
      CompressEnds(joined, Due(cfg, s).value, cfg.contextTarget, |inputs|);
      var c := Due(cfg, s).value(joined.messages, cfg.contextTarget, |inputs|);
      if c.Compacted? {
        SqueezedTo(joined, Compress(joined, Due(cfg, s).value, cfg.contextTarget, |inputs|).1, c.messages, c.summary);
      }
    }
    assert EndsWith(s.messages + inputs, inputs);
  }

  lemma SqueezedTo(s: State, after: State, ms: seq<Message>, summary: Usage)
    ensures Squeezed(s, after, ms, summary) ==> after.messages == ms
  {
  }

  lemma DueIs(cfg: Config, s: State, joined: State)
    requires |s.messages| <= |joined.messages| && joined == Admit(s, joined.messages[|s.messages|..])
    ensures Due(cfg, s) == if s.steps != [] || cfg.contextTarget > 0 then CompactionFor(cfg, joined) else None
  {
    assert cfg.maxTokens - s.usage.total > cfg.maxTokens / 5 <==> 5 * (cfg.maxTokens - s.usage.total) > cfg.maxTokens;
  }

  /* ---------- the model call ---------- */

  /** An overflow that nothing helps breaks the turn. */
  predicate GaveUp(overflow: ModelAnswer, answer: ModelAnswer)
    requires overflow.Overflowed?
  {
    if overflow.streamOpen then answer == Broken(NewText(Assistant, ""), overflow.usage, Error) else answer == BrokenUnopened
  }

  /** The compactor that is tried on an overflow. */
  function Rescue(cfg: Config): Option<Compactor> {
    if cfg.contextTarget > 1 && cfg.compactTo.Some? then cfg.compactTo
    else if cfg.compact.Some? then cfg.compact
    else if cfg.contextTarget > 1 then Some(cfg.fitContext)
    else None
  }

  /** Three quarters of the target, and no less than one token. */
  predicate Reduced(target: int, reduced: int) {
    reduced == 1 >= 3 * target / 4 || 4 * reduced <= 3 * target < 4 * reduced + 4
  }

  predicate Asked(cfg: Config, s: State, a: Answers, reduced: int, asked: State, answer: ModelAnswer) {
    if !a.first.Overflowed? then asked == s && answer == a.first
    else if Rescue(cfg).None? || !History.CompleteTurns(s.messages) then asked == s && GaveUp(a.first, answer)
    else
      var c := Rescue(cfg).value(s.messages, reduced, |a.inputs|);
      && Squeezed(s, asked, if Usable(s.messages, c) then c.messages else s.messages, c.summary)
      && (if !Usable(s.messages, c) || c.messages == s.messages then GaveUp(a.first, answer)
          else if a.second.Overflowed? then GaveUp(a.second, answer)
          else answer == a.second)
  }

  /** The request is made as the boundary left it; an overflow is answered by one more request
      on a compacted history, if there is a way to compact it and that changes it. */
  lemma AskEnds(cfg: Config, s: State, a: Answers) returns (reduced: int)
    ensures Reduced(cfg.contextTarget, reduced)
    ensures Asked(cfg, s, a, reduced, Ask(cfg, s, a).0, Ask(cfg, s, a).1)
  {
    hide Compress, Squeezed, History.CompleteTurns, History.CachePrefix;
    reduced := Max(1, cfg.contextTarget * 3 / 4);
    assert Rescue(cfg) == OverflowCompactor(cfg);
    if a.first.Overflowed? && Rescue(cfg).Some? {
      CompressEnds(s, Rescue(cfg).value, reduced, |a.inputs|);
      var c := Rescue(cfg).value(s.messages, reduced, |a.inputs|);
      if c.Compacted? {
        SqueezedTo(s, Compress(s, Rescue(cfg).value, reduced, |a.inputs|).1, c.messages, c.summary);
      }
    }
  }

  /* ---------- the whole pass ---------- */

  /** Nothing but the last step's snapshot of the totals has changed. */
  predicate Refreshed(s: State, after: State) {
    var n := |s.steps|;
    && after == s.(steps := after.steps) && |after.steps| == n
    && (n > 0 ==> after.steps[..n - 1] == s.steps[..n - 1])
    && (n > 0 ==> after.steps[n - 1] == s.steps[n - 1].(context := s.context, tokens := s.usage.total))
  }

  /** What the pass leaves, from the state its request was made from and the answer to it. */
  predicate Acted(cfg: Config, asked: State, answer: ModelAnswer, a: Answers, r: Outcome) {
    match answer
    case Replied(assistant, usage, stop) =>
      var call := ModelCall(usage, stop);
      if assistant.toolCalls != [] then ToolsEnded(cfg, asked, assistant, call, a, r)
      else if stop.Pause? then PauseEnded(cfg, asked, assistant, call, a, r)
      else AnswerEnded(cfg, asked, assistant, call, a, r)
    case Interrupted(assistant, usage, stop) => r.Running? && CutShort(asked, r.s, assistant, ModelCall(usage, stop))
    case InterruptedUnopened => r.Running? && Refreshed(asked, r.s)
    case Broken(assistant, usage, stop) => StoppedFor(r, ModelError) && BrokenOff(asked, r.s, assistant, ModelCall(usage, stop))
    case BrokenUnopened => StoppedFor(r, ModelError) && r.s == asked
    case Overflowed(_, _) => false
  }

  /** Every pass: it opens, makes its request and ends as the three predicates say. */
  lemma PassEnds(cfg: Config, s: State, a: Answers) returns (reduced: int)
    ensures Reduced(cfg.contextTarget, reduced)
    ensures var joined, ready := Admit(s, a.inputs), Open(cfg, s, a.inputs).outcome;
      && Joined(s, joined, a.inputs) && Opened(cfg, s, joined, a.inputs, ready)
      && (ready.Stopped? ==> OnePass(cfg, s, a).outcome == ready)
      && (ready.Running? ==>
            var (asked, answer) := Ask(cfg, ready.s, a);
            Asked(cfg, ready.s, a, reduced, asked, answer) && Acted(cfg, asked, answer, a, OnePass(cfg, s, a).outcome))
  {
    hide Joined, Opened, Open, Ask, Asked, Acted, Act;
    OpenEnds(cfg, s, a.inputs);
    var ready := Open(cfg, s, a.inputs).outcome;
    if ready.Running? {
      reduced := AskEnds(cfg, ready.s, a);
      ActEnds(cfg, ready.s, a);
    } else {
      reduced := AskEnds(cfg, s, a);
    }
  }

  lemma ActEnds(cfg: Config, ready: State, a: Answers)
    ensures var (asked, answer) := Ask(cfg, ready, a); Acted(cfg, asked, answer, a, Act(cfg, ready, a).outcome)
  {
    hide Ask, Add, Reply, ToolsEnded, PauseEnded, AnswerEnded, CutShort, BrokenOff, RecordInterrupted, RecordBroken;
    var (asked, answer) := Ask(cfg, ready, a);
    match answer
    case Replied(assistant, usage, stop) =>
      if assistant.toolCalls != [] {
        ToolsEnd(cfg, asked, assistant, ModelCall(usage, stop), a);
      } else if stop.Pause? {
        PauseEnds(cfg, asked, assistant, usage, a);
      } else {
        AnswerEnds(cfg, asked, assistant, ModelCall(usage, stop), a);
      }
    case Interrupted(assistant, usage, stop) => IncompleteEnds(asked, assistant, usage, stop);
    case Broken(assistant, usage, stop) =>
      IncompleteEnds(asked, assistant, usage, stop);
      BrokenSteps(asked, assistant, usage, stop);
    case _ =>
  }

  lemma BrokenSteps(base: State, assistant: Message, usage: Usage, stop: StopReason)
    ensures RecordBroken(base, assistant, usage, stop).steps != []
  {
  }

  /* ---------- the end of a run ---------- */

  /** The rest of a run after its first `j` passes: it stops in a pass still to come, or
      because the turns are spent. */
  lemma {:induction false} StopsFrom(cfg: Config, s: State, script: seq<Answers>, j: nat) returns (k: nat, earlier: seq<Continuation>)
    requires j <= |script| && Reaches(cfg, s, script, j)
    requires Run(cfg, After(cfg, s, script, j), script[j..]).outcome.Stopped?
    ensures j <= k <= |script| && Reaches(cfg, s, script, k)
    ensures var r, last := Run(cfg, After(cfg, s, script, j), script[j..]), After(cfg, s, script, k);
      if IterationAllowed(cfg, |last.steps|)
      then
        && k < |script| && OnePass(cfg, last, script[k]).outcome == r.outcome
        && r.observed == earlier + OnePass(cfg, last, script[k]).observed
      else r.outcome == TurnsSpent(cfg, last)
    decreases |script| - j
  {
    hide OnePass, TurnsSpent;
    k, earlier := j, [];
    var sj := After(cfg, s, script, j);
    if IterationAllowed(cfg, |sj.steps|) && j < |script| {
      var pass := OnePass(cfg, sj, script[j]);
      assert script[j..][1..] == script[j + 1..];
      if pass.outcome.Running? {
        assert Reaches(cfg, s, script, j + 1);
        k, earlier := StopsFrom(cfg, s, script, j + 1);
        if IterationAllowed(cfg, |After(cfg, s, script, k).steps|) {
          assert pass.observed + (earlier + OnePass(cfg, After(cfg, s, script, k), script[k]).observed)
            == (pass.observed + earlier) + OnePass(cfg, After(cfg, s, script, k), script[k]).observed;
        }
        earlier := pass.observed + earlier;
      } else {
        assert [] + pass.observed == pass.observed;
      }
    }
  }

  /** A run that stops has gone through whole passes and stops in the next, on top of the
      ready boundary of that pass, or before it, or because its turns are spent. */
  lemma RunStopsAt(cfg: Config, s: State, script: seq<Answers>) returns (k: nat, earlier: seq<Continuation>)
    requires RunMessages(cfg, s, script).outcome.Stopped?
    ensures k <= |script| && Reaches(Normalize(cfg), Enter(s), script, k)
    ensures var r, last := RunMessages(cfg, s, script), After(Normalize(cfg), Enter(s), script, k);
      if IterationAllowed(Normalize(cfg), |last.steps|)
      then
        && k < |script|
        && var pass := OnePass(Normalize(cfg), last, script[k]); pass.outcome == r.outcome && r.observed == earlier + pass.observed
      else r.outcome == TurnsSpent(Normalize(cfg), last)
  {
    hide Run, OnePass, TurnsSpent, Normalize, Enter;
    assert script[0..] == script;
    k, earlier := StopsFrom(Normalize(cfg), Enter(s), script, 0);
  }

  /** The number of turns a run may take: what is set, or twelve, or any number. */
  lemma TurnsAllowed(cfg: Config, taken: int)
    ensures IterationAllowed(Normalize(cfg), taken) <==>
      cfg.unlimited || taken < (if cfg.maxIterations <= 0 then 12 else cfg.maxIterations)
  {
  }

  /** The turns are spent: what is reported tells what the last step was waiting for. */
  lemma TurnsSpentEnds(cfg: Config, s: State)
    ensures var r := TurnsSpent(cfg, s);
      && r.Stopped? && r.s == s && r.thinking == ""
      && (s.steps != [] && HasPause(LastStep(s)) ==> r.reason == PauseLimit && r.iterations == |s.steps|)
      && (s.steps != [] && !HasPause(LastStep(s)) && ResponseRecovery in LastStep(s).observations ==>
            r.reason == RecoveryLimit && r.iterations == |s.steps|)
      && (s.steps == [] || (!HasPause(LastStep(s)) && ResponseRecovery !in LastStep(s).observations) ==>
            r.reason == TurnLimit && r.iterations == cfg.maxIterations)
  {
    hide HasPause;
    if s.steps != [] {
      var last := s.steps[|s.steps| - 1..];
      assert last == [] + [LastStep(s)];
      RecoveriesSnoc([], LastStep(s));
      NoneCounted();
    }
  }

  lemma NoneCounted()
    ensures RecoveryCount([]) == 0 && ConsecutivePauses([]) == 0
  {
  }

  /** No boundary of the turn itself is a ready one, unless the turn paused. */
  lemma TurnObserves(cfg: Config, base: State, assistant: Message, usage: Usage, stop: StopReason, a: Answers)
    requires assistant.toolCalls != [] || !stop.Pause?
    ensures forall c | c in Reply(cfg, base, assistant, usage, stop, a).observed :: c.phase != Ready
  {
    hide AnswerTurn, ToolTurn, Add, AnswerSnapshot, StartTools;
    var counted, call := base.(turn := base.turn + 1, usage := Add(base.usage, usage)), ModelCall(usage, stop);
    if assistant.toolCalls == [] {
      AnswerObserved(cfg, counted, assistant, call, a);
      AnswerSnapshotPhase(counted, assistant, call);
    } else {
      ToolObserved(cfg, counted, assistant, call, base.turn, a);
    }
  }

  /** What a finished run hands back, in terms of the answer `answer` that finished it and of
      the state `asked` its request was made from. */
  predicate FinishedWith(cfg: Config, asked: State, answer: ModelAnswer, a: Answers, r: Outcome)
    requires answer.Replied?
  {
    var call := ModelCall(answer.usage, answer.stop);
    if answer.assistant.toolCalls == [] then
      && !answer.stop.Pause? && a.verdict.Accept? && a.verdict.output.recovery == "" && !a.followUp
      && var output := a.verdict.output;
      && Ended(asked, r, Finished(answer.stop), output.thinking)
      && Turned(asked, r.s, call, if output.text == "" && output.thinking == "" then [] else [output], Finish, [])
    else
      && a.tools.ToolsRan? && r.s.steps != [] && Traced(LastStep(r.s).traces, answer.assistant.toolCalls, a.tools.results)
      && Ended(asked, r, Finished(Complete), answer.assistant.thinking)
      && Dispatched(asked, r.s, answer.assistant, call, a.tools, LastStep(r.s).traces, Finish)
      && (a.decision.Finish? || (TerminalDone(cfg, answer.assistant, a.tools.results) && !a.followUp))
  }

  lemma ReplyFinishes(cfg: Config, asked: State, answer: ModelAnswer, a: Answers)
    requires answer.Replied?
    requires var r := Reply(cfg, asked, answer.assistant, answer.usage, answer.stop, a).outcome; r.Stopped? && r.reason.Finished?
    ensures FinishedWith(cfg, asked, answer, a, Reply(cfg, asked, answer.assistant, answer.usage, answer.stop, a).outcome)
    ensures answer.assistant.toolCalls != [] || !answer.stop.Pause?
  {
    hide Reply, Turned, Dispatched, Undispatched, Traced, TerminalDone, NoBudget, RetryAllowed;
    var call := ModelCall(answer.usage, answer.stop);
    if answer.assistant.toolCalls != [] {
      ToolsEnd(cfg, asked, answer.assistant, call, a);
    } else if answer.stop.Pause? {
      PauseEnds(cfg, asked, answer.assistant, answer.usage, a);
    } else {
      AnswerEnds(cfg, asked, answer.assistant, call, a);
    }
  }

  lemma ActFinishes(cfg: Config, ready: State, a: Answers)
    requires Act(cfg, ready, a).outcome.Stopped? && Act(cfg, ready, a).outcome.reason.Finished?
    ensures var (asked, answer) := Ask(cfg, ready, a);
      answer.Replied? && FinishedWith(cfg, asked, answer, a, Act(cfg, ready, a).outcome)
    ensures forall c | c in Act(cfg, ready, a).observed :: c.phase != Ready
  {
    hide Ask, Reply, FinishedWith;
    var (asked, answer) := Ask(cfg, ready, a);
    if answer.Replied? {
      ReplyFinishes(cfg, asked, answer, a);
      TurnObserves(cfg, asked, answer.assistant, answer.usage, answer.stop, a);
    }
  }

  lemma OpenNeverFinishes(cfg: Config, s: State, inputs: seq<Message>)
    ensures var r := Open(cfg, s, inputs);
      if r.outcome.Running? then r.observed == [Snapshot(r.outcome.s, Ready)] else !r.outcome.reason.Finished?
  {
    hide ValidContinuation, MaybeCompact, Admit;
  }

  /** The last ready boundary among the continuations observed. */
  predicate LastReady(observed: seq<Continuation>, i: nat, ready: State) {
    && i < |observed| && observed[i] == Snapshot(ready, Ready)
    && forall j :: i < j < |observed| ==> observed[j].phase != Ready
  }

  /** A run that finishes hands back the history of its last ready boundary, as overflow
      recovery left it, and its last turn on top: after an answer exactly the output that was
      accepted, after tools the message with its calls and their results; with the thinking
      of that output or message. What the guardrails rejected or replaced is not in it. */
  lemma FinishedRun(cfg: Config, s: State, script: seq<Answers>) returns (i: nat, ready: State, a: Answers)
    requires RunMessages(cfg, s, script).outcome.Stopped? && RunMessages(cfg, s, script).outcome.reason.Finished?
    ensures a in script && LastReady(RunMessages(cfg, s, script).observed, i, ready)
    ensures var (asked, answer) := Ask(Normalize(cfg), ready, a);
      answer.Replied? && FinishedWith(Normalize(cfg), asked, answer, a, RunMessages(cfg, s, script).outcome)
  {
    hide RunMessages, Normalize, Enter, Open, Act, Ask, After, Reaches, FinishedWith, TurnsSpent, IterationAllowed;
    var k, earlier := RunStopsAt(cfg, s, script);
    var policy, last := Normalize(cfg), After(Normalize(cfg), Enter(s), script, k);
    TurnsSpentEnds(policy, last);
    a := script[k];
    OpenNeverFinishes(policy, last, a.inputs);
    ready := Open(policy, last, a.inputs).outcome.s;
    i := |earlier|;
    ActFinishes(policy, ready, a);
    LastReadyFirst(earlier, Snapshot(ready, Ready), Act(policy, ready, a).observed);
  }

  lemma LastReadyFirst(earlier: seq<Continuation>, c: Continuation, later: seq<Continuation>)
    requires forall d | d in later :: d.phase != Ready
    ensures var all := earlier + ([c] + later);
      |earlier| < |all| && all[|earlier|] == c && forall j :: |earlier| < j < |all| ==> all[j].phase != Ready
  {
    var all := earlier + ([c] + later);
    forall j | |earlier| < j < |all| ensures all[j].phase != Ready {
      assert all[j] == later[j - |earlier| - 1];
    }
  }
}
