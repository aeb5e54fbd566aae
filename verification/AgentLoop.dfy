/**
 The model/tool loop as a deterministic machine. One pass of the loop consumes one
 `Answers` record: everything the outside world says while that pass runs.
 */
module AgentLoop {
  import opened Wrappers
  import opened Messages
  import opened TokenUsage
  import opened Continuations
  import History

  /** The variables of a run between two passes; `turn` is the next operation turn. */
  datatype State = State(
    messages: seq<Message>, steps: seq<Step>, usage: Usage, context: Usage, toolCallsUsed: int, turn: int)

  /** What a history compactor returns, with the model usage it spent either way. */
  datatype Compaction = Compacted(messages: seq<Message>, summary: Usage) | CompactionFailed(summary: Usage)

  /** Compactors take the history, the token target and the number of fresh inputs at its end. */
  type Compactor = (seq<Message>, int, nat) -> Compaction

  datatype Config = Config(
    maxIterations: int, unlimited: bool, maxTokens: int, maxToolCalls: int, maxSteps: int,
    contextTarget: int, compactTo: Option<Compactor>, compact: Option<Compactor>, fitContext: Compactor,
    terminal: string -> bool, correction: string -> string)

  datatype ModelAnswer =
    | Replied(assistant: Message, usage: Usage, stop: StopReason)
    | Overflowed(streamOpen: bool, usage: Usage)
    | InterruptedUnopened
    | Interrupted(assistant: Message, usage: Usage, stop: StopReason)
    | BrokenUnopened
    | Broken(assistant: Message, usage: Usage, stop: StopReason)

  datatype ToolAnswer =
    | ToolsRan(results: seq<ToolResult>, childUsage: Usage)
    | ToolsFailed(results: seq<ToolResult>, childUsage: Usage)

  datatype Verdict =
    | Accept(output: Message)
    | Retry(includeRejected: bool, replacement: seq<Message>, messages: seq<Message>)
    | Block

  /** `second` answers the request repeated after a context overflow; `decision` is the step
      decider's; `followUp` tells whether live input keeps a finishing run going; `steer`
      whether a correction is queued. */
  datatype Answers = Answers(
    inputs: seq<Message>, first: ModelAnswer, second: ModelAnswer, tools: ToolAnswer,
    verdict: Verdict, decision: Decision, followUp: bool, steer: bool)

  datatype Dimension = Tokens | ToolCallCount | StepCount

  datatype Reason =
    | Finished(stop: StopReason) | Exhausted(dimension: Dimension) | TurnLimit
    | BoundaryRejected | CompactionError | InputChanged | ModelError | ToolError
    | OutputBlocked | RecoveryLimit | PauseLimit | StepAborted

  datatype Outcome =
    | Running(s: State)
    | Stopped(reason: Reason, iterations: int, thinking: string, s: State)

  /** A pass with the continuations its boundary observers received. */
  datatype Pass = Pass(outcome: Outcome, observed: seq<Continuation>)

  const MAX_PAUSES: nat := 8
  const MAX_RECOVERIES: nat := 3

  function Snapshot(s: State, phase: Phase): Continuation {
    Continuation(SCHEMA_VERSION, true, false, s.messages, s.usage, s.context, s.steps, s.toolCallsUsed, s.turn, phase)
  }

  function Halt(reason: Reason, s: State): Outcome {
    Stopped(reason, |s.steps|, "", s)
  }

  function MapLast(steps: seq<Step>, step: Step): seq<Step>
    requires steps != []
  {
    steps[|steps| - 1 := step]
  }

  function LastStep(s: State): Step
    requires s.steps != []
  {
    s.steps[|s.steps| - 1]
  }

  function Decide(s: State, decision: Decision): State
    requires s.steps != []
  {
    s.(steps := MapLast(s.steps, LastStep(s).(decision := decision)))
  }

  /* ---------- budgets ---------- */

  function BudgetRemaining(cfg: Config, usage: Usage, toolCallsUsed: int, steps: int): Option<Dimension> {
    if cfg.maxTokens > 0 && cfg.maxTokens - usage.total <= 0 then Some(Tokens)
    else if cfg.maxToolCalls > 0 && cfg.maxToolCalls - toolCallsUsed <= 0 then Some(ToolCallCount)
    else if cfg.maxSteps > 0 && cfg.maxSteps - steps <= 0 then Some(StepCount)
    else None
  }

  function PreDispatchBlock(cfg: Config, s: State, batch: nat): Option<Dimension> {
    var blocked := BudgetRemaining(cfg, s.usage, s.toolCallsUsed, |s.steps|);
    if blocked.Some? then blocked
    else if cfg.maxToolCalls > 0 && s.toolCallsUsed + batch > cfg.maxToolCalls then Some(ToolCallCount)
    else None
  }

  predicate IterationAllowed(cfg: Config, iteration: int) {
    cfg.unlimited || iteration < cfg.maxIterations
  }

  /* ---------- pauses and recoveries ---------- */

  predicate HasPause(step: Step) {
    PauseContinuation in step.observations && PauseInputProgress !in step.observations
  }

  function ConsecutivePauses(steps: seq<Step>): nat {
    if steps == [] || !HasPause(steps[|steps| - 1]) then 0 else 1 + ConsecutivePauses(steps[..|steps| - 1])
  }

  function RecoveryCount(steps: seq<Step>): nat {
    if steps == [] then 0
    else RecoveryCount(steps[..|steps| - 1]) + multiset(steps[|steps| - 1].observations)[ResponseRecovery]
  }

  function ResetPause(steps: seq<Step>, inputs: nat): seq<Step> {
    if inputs == 0 || steps == [] || !HasPause(steps[|steps| - 1]) then steps
    else
      var last := steps[|steps| - 1];
      MapLast(steps, last.(observations := last.observations + [PauseInputProgress]))
  }

  /* ---------- context preparation ---------- */

  /** Auxiliary model usage advances the totals and the latest step's snapshot. */
  function AccountContext(s: State, summary: Usage): State {
    var context, usage := Add(s.context, summary), Add(s.usage, summary);
    s.(context := context, usage := usage, steps := SnapshotContext(s.steps, usage, context))
  }

  function SnapshotContext(steps: seq<Step>, usage: Usage, context: Usage): seq<Step> {
    if steps == [] then steps
    else MapLast(steps, steps[|steps| - 1].(context := context, tokens := usage.total))
  }

  predicate PrefixKept(before: seq<Message>, after: seq<Message>) {
    var k := History.CachePrefix(before);
    k <= |after| && before[..k] == after[..k]
  }

  /** Runs a compactor and checks what it returns; `ok` tells whether the run may go on. */
  function Compress(s: State, compactor: Compactor, target: int, freshInputs: nat): (bool, State) {
    if !History.CompleteTurns(s.messages) then (false, s)
    else
      match compactor(s.messages, target, freshInputs)
      case CompactionFailed(summary) => (false, AccountContext(s, summary))
      case Compacted(messages, summary) =>
        var accounted := AccountContext(s, summary);
        if History.CompleteTurns(messages) && PrefixKept(s.messages, messages)
        then (true, accounted.(messages := messages))
        else (false, accounted)
  }

  function CompactionFor(cfg: Config, s: State): Option<Compactor> {
    if cfg.contextTarget > 0 then if cfg.compactTo.Some? then cfg.compactTo else cfg.compact
    else if cfg.maxTokens <= 0 || cfg.maxTokens - s.usage.total > cfg.maxTokens / 5 then None
    else cfg.compact
  }

  function MaybeCompact(cfg: Config, s: State, freshInputs: nat): (bool, State) {
    var compactor := CompactionFor(cfg, s);
    if compactor.None? then (true, s) else Compress(s, compactor.value, cfg.contextTarget, freshInputs)
  }

  predicate EndsWith(ms: seq<Message>, tail: seq<Message>) {
    |tail| <= |ms| && ms[|ms| - |tail|..] == tail
  }

  function Admit(s: State, inputs: seq<Message>): State {
    s.(messages := s.messages + inputs, steps := ResetPause(s.steps, |inputs|))
  }

  /** From the top of a pass to the ready boundary before its model call. */
  function Open(cfg: Config, s: State, inputs: seq<Message>): Pass {
    var admitted := Admit(s, inputs);
    var n := |s.steps|;
    var blocked := if n > 0 then BudgetRemaining(cfg, s.usage, s.toolCallsUsed, n) else None;
    if blocked.Some? then Pass(Halt(Exhausted(blocked.value), admitted), [])
    else
      var (ok, next) := if n > 0 || cfg.contextTarget > 0 then MaybeCompact(cfg, admitted, |inputs|) else (true, admitted);
      if !ok then Pass(Halt(CompactionError, next), [])
      else if !EndsWith(next.messages, inputs) then Pass(Halt(InputChanged, next), [])
      else if !ValidContinuation(Snapshot(next, Ready)) then Pass(Halt(BoundaryRejected, next), [])
      else Pass(Running(next), [Snapshot(next, Ready)])
  }

  /* ---------- the model call ---------- */

  const BLANK: Message := NewText(Assistant, "")

  function OverflowCompactor(cfg: Config): Option<Compactor> {
    if cfg.contextTarget <= 1 && cfg.compact.None? then None
    else if cfg.compactTo.Some? && cfg.contextTarget > 1 then cfg.compactTo
    else if cfg.compact.Some? then cfg.compact
    else Some(cfg.fitContext)
  }

  function BrokenBy(answer: ModelAnswer): ModelAnswer
    requires answer.Overflowed?
  {
    if answer.streamOpen then Broken(BLANK, answer.usage, Error) else BrokenUnopened
  }

  /** The answer the loop acts on: an overflow is retried once on a compacted history. */
  function Ask(cfg: Config, s: State, a: Answers): (r: (State, ModelAnswer))
    ensures !r.1.Overflowed?
  {
    if !a.first.Overflowed? then (s, a.first)
    else
      var compactor := OverflowCompactor(cfg);
      if compactor.None? then (s, BrokenBy(a.first))
      else
        var (ok, next) := Compress(s, compactor.value, Max(1, cfg.contextTarget * 3 / 4), |a.inputs|);
        if !ok || next.messages == s.messages then (next, BrokenBy(a.first))
        else if a.second.Overflowed? then (next, BrokenBy(a.second))
        else (next, a.second)
  }

  predicate Empty(m: Message, usage: Usage) {
    m.text == "" && m.thinking == "" && m.toolCalls == [] && usage == ZERO
  }

  function NewStep(s: State, call: ModelCall, decision: Decision): Step {
    Step(|s.steps|, Some(call), [], [], decision, s.context, s.usage.total, s.toolCallsUsed)
  }

  /** A steering interruption: the text and usage are kept, unmatched calls never are. */
  function RecordInterrupted(s: State, assistant: Message, usage: Usage, stop: StopReason): State {
    var factual := assistant.(toolCalls := []);
    var kept := if Empty(factual, usage) then BLANK else factual;
    var total := if Empty(factual, usage) then s.usage else Add(s.usage, usage);
    var next := s.(messages := s.messages + [kept.(archived := true)], usage := total, turn := s.turn + 1);
    next.(steps := s.steps + [NewStep(next, ModelCall(usage, stop), Continue)])
  }

  function RecordBroken(s: State, assistant: Message, usage: Usage, stop: StopReason): State {
    var next := if Empty(assistant, usage) then s else s.(messages := s.messages + [assistant], usage := Add(s.usage, usage));
    next.(steps := s.steps + [NewStep(next, ModelCall(usage, stop), Fail)])
  }

  /* ---------- a turn without tool calls ---------- */

  function AppendFinal(ms: seq<Message>, output: Message): seq<Message> {
    if output.text != "" || output.thinking != "" then ms + [output] else ms
  }

  function PauseTurn(cfg: Config, s: State, assistant: Message, call: ModelCall, steer: bool): Pass {
    var pauses := ConsecutivePauses(s.steps) + 1;
    var step := NewStep(s, call, Continue).(observations := [PauseContinuation]);
    var next := s.(messages := s.messages + [assistant], steps := s.steps + [step]);
    if cfg.maxTokens > 0 && call.usage.total == 0 then Pass(Halt(Exhausted(Tokens), Decide(next, Fail)), [])
    else if pauses > MAX_PAUSES && !steer then Pass(Halt(PauseLimit, Decide(next, Fail)), [])
    else if !ValidContinuation(Snapshot(next, Ready)) then Pass(Halt(BoundaryRejected, next), [])
    else Pass(Running(next), [Snapshot(next, Ready)])
  }

  /** The history a guardrail retry goes on with. */
  function Retried(base: seq<Message>, assistant: Message, verdict: Verdict): seq<Message>
    requires verdict.Retry?
  {
    (if verdict.includeRejected then AppendFinal(base, assistant) else base) + verdict.replacement + verdict.messages
  }

  /** What becomes of a final answer once the guardrails have spoken. `base` is the history
      before the answer, `s` the state whose last step is the answer's. */
  function Settle(cfg: Config, s: State, base: seq<Message>, assistant: Message, stop: StopReason, a: Answers): Outcome
    requires s.steps != []
  {
    match a.verdict
    case Block => Halt(OutputBlocked, Decide(s, Fail))
    case Retry(includeRejected, replacement, messages) =>
      if messages == [] || !IterationAllowed(cfg, |s.steps|) then Halt(OutputBlocked, Decide(s, Fail))
      else Running(Decide(s, Continue).(messages := Retried(base, assistant, a.verdict)))
    case Accept(output) =>
      if output.recovery != "" then
        if RecoveryCount(s.steps) >= MAX_RECOVERIES then Halt(RecoveryLimit, Decide(s, Fail))
        else
          var step := LastStep(s).(decision := Continue, observations := LastStep(s).observations + [ResponseRecovery]);
          Running(s.(
            messages := AppendFinal(base, output) + [NewText(User, cfg.correction(output.recovery))],
            steps := MapLast(s.steps, step)))
      else
        var final := s.(messages := AppendFinal(base, output));
        if a.followUp then Running(Decide(final, Continue))
        else Stopped(Finished(stop), |s.steps|, output.thinking, final)
  }

  function AnswerTurn(cfg: Config, s: State, assistant: Message, call: ModelCall, a: Answers): Pass {
    if call.stop.Pause? then PauseTurn(cfg, s, assistant, call, a.steer)
    else
      var next := s.(messages := AppendFinal(s.messages, assistant), steps := s.steps + [NewStep(s, call, Finish)]);
      if !ValidContinuation(Snapshot(next, ValidatingOutput)) then Pass(Halt(BoundaryRejected, next), [])
      else
        var observed := [Snapshot(next, ValidatingOutput)];
        if cfg.maxTokens > 0 && call.usage.total == 0 then Pass(Halt(Exhausted(Tokens), Decide(next, Fail)), observed)
        else Pass(Settle(cfg, next, s.messages, assistant, call.stop, a), observed)
  }

  /* ---------- a turn with tool calls ---------- */

  function NumberCalls(calls: seq<ToolCall>, turn: int): (numbered: seq<ToolCall>)
    ensures |numbered| == |calls|
    ensures forall k :: 0 <= k < |calls| ==> numbered[k] == calls[k].(operation := Operation(turn, k))
  {
    seq(|calls|, k requires 0 <= k < |calls| => calls[k].(operation := Operation(turn, k)))
  }

  function ResultMessages(results: seq<ToolResult>): (ms: seq<Message>)
    ensures |ms| == |results| && forall k :: 0 <= k < |ms| ==> ms[k] == NewToolResult(results[k])
  {
    seq(|results|, k requires 0 <= k < |results| => NewToolResult(results[k]))
  }

  function TracesOf(calls: seq<ToolCall>, results: seq<ToolResult>): (traces: seq<Trace>)
    ensures TracesMatch(traces, calls)
  {
    seq(|calls|, k requires 0 <= k < |calls| =>
      Trace(calls[k].id, calls[k].name, calls[k].arguments, if k < |results| then results[k].structured else ""))
  }

  predicate TerminalSucceeded(cfg: Config, calls: seq<ToolCall>, results: seq<ToolResult>) {
    exists k :: 0 <= k < |calls| && k < |results| && !results[k].isError && cfg.terminal(calls[k].name)
  }

  function StartTools(s: State, assistant: Message, call: ModelCall, operationTurn: int): State {
    var numbered := assistant.(toolCalls := NumberCalls(assistant.toolCalls, operationTurn));
    s.(messages := s.messages + [numbered], steps := s.steps + [NewStep(s, call, Continue)])
  }

  function RecordResults(s: State, batch: nat, results: seq<ToolResult>, childUsage: Usage): State
    requires s.steps != []
  {
    var usage := Add(s.usage, childUsage);
    s.(usage := usage, toolCallsUsed := s.toolCallsUsed + batch,
       messages := s.messages + ResultMessages(results),
       steps := MapLast(s.steps, LastStep(s).(tokens := usage.total, toolCalls := s.toolCallsUsed + batch)))
  }

  function FinishTools(cfg: Config, s: State, assistant: Message, results: seq<ToolResult>, a: Answers): Pass
    requires s.steps != []
  {
    var terminal := TerminalSucceeded(cfg, assistant.toolCalls, results) && !a.followUp;
    var decision := if terminal then Finish else if a.decision.Finish? || a.decision.Fail? then a.decision else Continue;
    var step := LastStep(s).(traces := TracesOf(assistant.toolCalls, results), decision := decision, context := s.context);
    var next := s.(steps := MapLast(s.steps, step));
    if !ValidContinuation(Snapshot(next, ToolsComplete)) then Pass(Halt(BoundaryRejected, next), [])
    else
      var observed := [Snapshot(next, ToolsComplete)];
      if decision.Fail? then Pass(Halt(StepAborted, next), observed)
      else if decision.Finish? then Pass(Stopped(Finished(Complete), |s.steps|, assistant.thinking, next), observed)
      else Pass(Running(next), observed)
  }

  function ToolTurn(cfg: Config, s: State, assistant: Message, call: ModelCall, operationTurn: int, a: Answers): Pass {
    var calls := assistant.toolCalls;
    var started := StartTools(s, assistant, call, operationTurn);
    if !ValidContinuation(Snapshot(started, ModelComplete)) then Pass(Halt(BoundaryRejected, started), [])
    else
      var observed := [Snapshot(started, ModelComplete)];
      if cfg.maxTokens > 0 && call.usage.total == 0 then Pass(Halt(Exhausted(Tokens), Decide(started, Fail)), observed)
      else
        var blocked := PreDispatchBlock(cfg, started, |calls|);
        if blocked.Some? then Pass(Halt(Exhausted(blocked.value), Decide(started, Fail)), observed)
        else
          var recorded := RecordResults(started, |calls|, a.tools.results, a.tools.childUsage);
          if a.tools.ToolsFailed? then Pass(Halt(ToolError, recorded), observed)
          else
            var rest := FinishTools(cfg, recorded, assistant, a.tools.results, a);
            Pass(rest.outcome, observed + rest.observed)
  }

  /* ---------- passes and runs ---------- */

  /** A completed model turn takes the next operation turn and is paid for. */
  function Reply(cfg: Config, s: State, assistant: Message, usage: Usage, stop: StopReason, a: Answers): Pass {
    var counted := s.(turn := s.turn + 1, usage := Add(s.usage, usage));
    if assistant.toolCalls == [] then AnswerTurn(cfg, counted, assistant, ModelCall(usage, stop), a)
    else ToolTurn(cfg, counted, assistant, ModelCall(usage, stop), s.turn, a)
  }

  /** The part of a pass after its ready boundary. */
  function Act(cfg: Config, s: State, a: Answers): Pass {
    var (asked, answer) := Ask(cfg, s, a);
    match answer
    case InterruptedUnopened => Pass(Running(asked.(steps := SnapshotContext(asked.steps, asked.usage, asked.context))), [])
    case Interrupted(assistant, usage, stop) => Pass(Running(RecordInterrupted(asked, assistant, usage, stop)), [])
    case BrokenUnopened => Pass(Halt(ModelError, asked), [])
    case Broken(assistant, usage, stop) => Pass(Halt(ModelError, RecordBroken(asked, assistant, usage, stop)), [])
    case Replied(assistant, usage, stop) => Reply(cfg, asked, assistant, usage, stop, a)
  }

  function OnePass(cfg: Config, s: State, a: Answers): Pass {
    var ready := Open(cfg, s, a.inputs);
    if ready.outcome.Stopped? then ready
    else
      var acted := Act(cfg, ready.outcome.s, a);
      Pass(acted.outcome, ready.observed + acted.observed)
  }

  /** The loop is over: the turn allowance is spent. */
  function TurnsSpent(cfg: Config, s: State): Outcome {
    if ConsecutivePauses(s.steps) > 0 then Halt(PauseLimit, s)
    else if s.steps != [] && RecoveryCount(s.steps[|s.steps| - 1..]) > 0 then Halt(RecoveryLimit, s)
    else Stopped(TurnLimit, cfg.maxIterations, "", s)
  }

  /** The run on a finite script of answers; still `Running` when the script ends first. */
  function Run(cfg: Config, s: State, script: seq<Answers>): Pass
    decreases |script|
  {
    if !IterationAllowed(cfg, |s.steps|) then Pass(TurnsSpent(cfg, s), [])
    else if script == [] then Pass(Running(s), [])
    else
      var pass := OnePass(cfg, s, script[0]);
      if pass.outcome.Stopped? then pass
      else
        var rest := Run(cfg, pass.outcome.s, script[1..]);
        Pass(rest.outcome, pass.observed + rest.observed)
  }

  /** One past the largest operation turn any tool call carries. */
  function NextToolTurn(ms: seq<Message>): (turn: int)
    ensures 0 <= turn
    ensures forall m, c | m in ms && c in m.toolCalls :: TurnOf(c) < turn
  {
    if ms == [] then 0 else
      var n := |ms| - 1;
      assert ms == ms[..n] + [ms[n]];
      Max(NextToolTurn(ms[..n]), LastTurn(ms[n].toolCalls) + 1)
  }

  function Enter(s: State): State {
    s.(turn := Max(s.turn, NextToolTurn(s.messages)))
  }

  const DEFAULT_ITERATIONS: int := 12

  /** An unset turn allowance means the default one, unless turns are unlimited. */
  function Normalize(cfg: Config): Config {
    if !cfg.unlimited && cfg.maxIterations <= 0 then cfg.(maxIterations := DEFAULT_ITERATIONS) else cfg
  }

  function RunMessages(cfg: Config, s: State, script: seq<Answers>): Pass {
    Run(Normalize(cfg), Enter(s), script)
  }
}
