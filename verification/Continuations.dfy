/**
 Persisted loop state and the validator that decides whether it can be resumed.
 */
module Continuations {
  import opened Wrappers
  import opened Messages
  import opened TokenUsage

  datatype StopReason = Complete | ToolUse | Length | Pause | ContentFilter | MaxTurns | Aborted | Error | UnknownStop

  datatype Decision = Undecided | Continue | Finish | Fail

  datatype Observation = PauseContinuation | PauseInputProgress | ResponseRecovery | OtherObservation

  datatype ModelCall = ModelCall(usage: Usage, stop: StopReason)

  datatype Trace = Trace(id: string, name: string, arguments: string, output: string)

  /** `tokens` and `toolCalls` are the step's cumulative BudgetUsed snapshot. */
  datatype Step = Step(
    index: int, call: Option<ModelCall>, traces: seq<Trace>, observations: seq<Observation>,
    decision: Decision, context: Usage, tokens: int, toolCalls: int)

  datatype Phase = Ready | ModelComplete | ToolsComplete | ValidatingOutput | UnknownPhase

  /** `requestValid` and `needsVersion2` are the verdicts on the request and output policy,
      whose contents the loop never looks at. */
  datatype Continuation = Continuation(
    version: int, requestValid: bool, needsVersion2: bool,
    messages: seq<Message>, usage: Usage, context: Usage, steps: seq<Step>,
    toolCallsUsed: int, nextTurn: int, phase: Phase)

  const SCHEMA_VERSION: int := 2

  /* ---------- the transcript ---------- */

  /** `unanswered` are the calls of the open tool turn still without a result, `calls` the
      tool calls of every assistant message, `lastTurn` the largest operation turn seen. */
  datatype Scan = Scan(unanswered: seq<ToolCall>, endsWithResults: bool, calls: seq<seq<ToolCall>>, lastTurn: int)

  const START: Scan := Scan([], false, [], -1)

  /** A named call whose operation ID, if any, is well formed and names its own slot. */
  predicate GoodCall(c: ToolCall, slot: nat) {
    && c.id != "" && c.name != ""
    && (c.operation.Unset? || (c.operation.Operation? && c.operation.turn >= 0 && c.operation.slot == slot))
  }

  predicate WellNamed(calls: seq<ToolCall>) {
    && (forall k :: 0 <= k < |calls| ==> GoodCall(calls[k], k))
    && (forall i, j :: 0 <= i < j < |calls| ==> calls[i].id != calls[j].id)
  }

  function TurnOf(c: ToolCall): int {
    if c.operation.Operation? then c.operation.turn else -1
  }

  function LastTurn(calls: seq<ToolCall>): (t: int)
    ensures t >= -1 && forall c | c in calls :: TurnOf(c) <= t
  {
    if calls == [] then -1 else
      var n := |calls| - 1;
      assert calls == calls[..n] + [calls[n]];
      Max(LastTurn(calls[..n]), TurnOf(calls[n]))
  }

  function ScanStep(s: Scan, m: Message): Option<Scan> {
    if s.unanswered != [] then
      if m.role.Tool? && m.toolResult.Some? && m.toolResult.value.callId == s.unanswered[0].id
      then Some(s.(unanswered := s.unanswered[1..], endsWithResults := true))
      else None
    else if m.role.Tool? then None
    else if !m.role.Assistant? then Some(s.(endsWithResults := false))
    else if !WellNamed(m.toolCalls) then None
    else Some(Scan(m.toolCalls, false, s.calls + [m.toolCalls], Max(s.lastTurn, LastTurn(m.toolCalls))))
  }

  function ScanAll(s: Scan, ms: seq<Message>): Option<Scan>
    decreases |ms|
  {
    if ms == [] then Some(s)
    else
      var next := ScanStep(s, ms[0]);
      if next.None? then None else ScanAll(next.value, ms[1..])
  }

  function Analyze(ms: seq<Message>): Option<Scan> { ScanAll(START, ms) }

  lemma {:induction false} ScanConcat(s: Scan, a: seq<Message>, b: seq<Message>)
    ensures ScanAll(s, a + b) == (var mid := ScanAll(s, a); if mid.None? then None else ScanAll(mid.value, b))
    decreases |a|
  {
    if a == [] {
      assert a + b == b;
    } else {
      assert (a + b)[1..] == a[1..] + b;
      if ScanStep(s, a[0]).Some? {
        ScanConcat(ScanStep(s, a[0]).value, a[1..], b);
      }
    }
  }

  lemma AnalyzeAppend(ms: seq<Message>, m: Message)
    ensures Analyze(ms + [m]) == (var mid := Analyze(ms); if mid.None? then None else ScanStep(mid.value, m))
  {
    ScanConcat(START, ms, [m]);
    if Analyze(ms).Some? && ScanStep(Analyze(ms).value, m).Some? {
      assert [m][1..] == [];
      assert ScanAll(ScanStep(Analyze(ms).value, m).value, []) == ScanStep(Analyze(ms).value, m);
    }
  }

  /* ---------- the step ledger ---------- */

  /** Sum of the model usage of the first k steps. */
  function ModelUsage(steps: seq<Step>, k: nat): (u: Usage)
    requires k <= |steps|
    ensures Consistent(u)
  {
    if k == 0 then ZERO
    else if steps[k - 1].call.None? then ModelUsage(steps, k - 1)
    else
      AddClosed(ModelUsage(steps, k - 1), steps[k - 1].call.value.usage);
      Add(ModelUsage(steps, k - 1), steps[k - 1].call.value.usage)
  }

  /** Calls executed by the first k steps; the pending step's calls are not executed yet. */
  function CallsDone(calls: seq<seq<ToolCall>>, pending: int, k: nat): nat
    requires k <= |calls|
  {
    if k == 0 then 0 else CallsDone(calls, pending, k - 1) + (if k - 1 == pending then 0 else |calls[k - 1]|)
  }

  predicate ValidUsage(u: Usage) {
    && 0 <= u.cached <= u.input && 0 <= u.cacheWrite <= u.input && 0 <= u.reasoning <= u.output
    && u.input + u.output <= u.total
  }

  predicate TracesMatch(traces: seq<Trace>, calls: seq<ToolCall>) {
    && |traces| == |calls|
    && forall k :: 0 <= k < |calls| ==>
      traces[k].id == calls[k].id && traces[k].name == calls[k].name && traces[k].arguments == calls[k].arguments
  }

  predicate Numbered(calls: seq<ToolCall>, turn: int) {
    forall k :: 0 <= k < |calls| ==> calls[k].operation == Operation(turn, k)
  }

  function MinimumTokens(steps: seq<Step>, i: nat): int
    requires i < |steps| && steps[i].call.Some?
  {
    var spent := Add(ModelUsage(steps, i + 1), steps[i].context).total;
    if i == 0 then spent else Max(spent, steps[i - 1].tokens + steps[i].call.value.usage.total)
  }

  /** The token snapshot: exact on a step that ran no tools, a lower bound on one that did. */
  predicate TokensBalance(steps: seq<Step>, i: nat, exact: bool)
    requires i < |steps| && steps[i].call.Some?
  {
    if exact then steps[i].tokens == MinimumTokens(steps, i) else steps[i].tokens >= MinimumTokens(steps, i)
  }

  /** What a step must record whatever its turn did. */
  predicate EntryFacts(step: Step, i: nat, previousContext: Usage, last: bool) {
    && step.index == i
    && 0 <= step.tokens && 0 <= step.toolCalls
    && ValidUsage(step.context)
    && Contains(step.context, previousContext)
    && step.call.Some? && ValidUsage(step.call.value.usage)
    && (!last ==> step.decision == Continue)
  }

  function PreviousContext(steps: seq<Step>, i: nat): Usage
    requires i <= |steps|
  {
    if i == 0 then ZERO else steps[i - 1].context
  }

  /** `pending` is the index of the step whose tools have not run, or -1. */
  predicate StepValid(steps: seq<Step>, calls: seq<seq<ToolCall>>, firstTurn: int, pending: int, i: nat)
    requires |calls| == |steps| && i < |steps|
  {
    var step := steps[i];
    && EntryFacts(step, i, PreviousContext(steps, i), i == |steps| - 1)
    && Numbered(calls[i], firstTurn + i)
    && (if i == pending then step.traces == [] && step.decision == Continue else TracesMatch(step.traces, calls[i]))
    && step.toolCalls == CallsDone(calls, pending, i + 1)
    && TokensBalance(steps, i, i == pending || calls[i] == [])
  }

  function Last<T>(s: seq<T>, n: nat): (t: seq<T>)
    requires n <= |s|
    ensures |t| == n
  {
    s[|s| - n..]
  }

  function PendingStep(c: Continuation): int {
    if c.phase.ModelComplete? then |c.steps| - 1 else -1
  }

  predicate LedgerValid(steps: seq<Step>, calls: seq<seq<ToolCall>>, firstTurn: int, pending: int)
    requires |calls| == |steps|
  {
    forall i :: 0 <= i < |steps| ==> StepValid(steps, calls, firstTurn, pending, i)
  }

  /** The last assistant messages, one per step, are the ones the steps generated. */
  predicate StepsValid(c: Continuation, calls: seq<seq<ToolCall>>) {
    && |c.steps| <= c.nextTurn
    && |c.steps| <= |calls|
    && LedgerValid(c.steps, Last(calls, |c.steps|), c.nextTurn - |c.steps|, PendingStep(c))
  }

  predicate ScalarsValid(c: Continuation) {
    && c.requestValid
    && 0 <= c.toolCallsUsed && 0 <= c.nextTurn
    && ValidUsage(c.usage) && ValidUsage(c.context)
  }

  predicate VersionValid(c: Continuation) {
    || c.version == SCHEMA_VERSION
    || (c.version == 1 && !c.needsVersion2 && c.context == ZERO && forall step | step in c.steps :: step.context == ZERO)
  }

  predicate PhaseMatchesTranscript(c: Continuation, scan: Scan) {
    match c.phase
    case Ready => scan.unanswered == []
    case ModelComplete => scan.unanswered != []
    case ToolsComplete => scan.unanswered == [] && scan.endsWithResults
    case ValidatingOutput =>
      scan.unanswered == [] && c.messages != []
      && c.messages[|c.messages| - 1].role.Assistant? && c.messages[|c.messages| - 1].toolCalls == []
    case UnknownPhase => false
  }

  predicate TotalsValid(c: Continuation, scan: Scan)
    requires StepsValid(c, scan.calls)
  {
    var n := |c.steps|;
    && c.toolCallsUsed == CallsDone(Last(scan.calls, n), PendingStep(c), n)
    && (n > 0 ==> Contains(c.context, c.steps[n - 1].context))
    && c.usage.total == (if n > 0 then c.steps[n - 1].tokens else c.context.total)
    && Contains(c.usage, Add(ModelUsage(c.steps, n), c.context))
    && scan.lastTurn < c.nextTurn
  }

  predicate PhaseMatchesSteps(c: Continuation) {
    var n := |c.steps|;
    match c.phase
    case Ready => n > 0 ==> c.steps[n - 1].decision == Continue
    case ModelComplete => n > 0
    case ToolsComplete => n > 0 && c.steps[n - 1].traces != [] && !c.steps[n - 1].decision.Undecided?
    case ValidatingOutput => n > 0 && c.steps[n - 1].decision == Finish
    case UnknownPhase => false
  }

  /** What a continuation must satisfy to be resumed. */
  predicate ValidContinuation(c: Continuation) {
    && VersionValid(c)
    && ScalarsValid(c)
    && Analyze(c.messages).Some?
    && var scan := Analyze(c.messages).value;
    && PhaseMatchesTranscript(c, scan)
    && StepsValid(c, scan.calls)
    && TotalsValid(c, scan)
    && PhaseMatchesSteps(c)
  }

  /* ---------- the validation loops ---------- */

  datatype TranscriptAnalysis = TranscriptAnalysis(
    pending: bool, endsWithToolResults: bool, assistantIndices: seq<nat>, maxOperationTurn: int)

  predicate Locates(messages: seq<Message>, indices: seq<nat>, calls: seq<seq<ToolCall>>) {
    && |indices| == |calls|
    && forall i :: 0 <= i < |indices| ==> indices[i] < |messages| && messages[indices[i]].toolCalls == calls[i]
  }

  method CheckCalls(calls: seq<ToolCall>) returns (ok: bool, maxTurn: int)
    ensures ok <==> WellNamed(calls)
    ensures ok ==> maxTurn == LastTurn(calls)
  {
    hide GoodCall, LastTurn;
    var seen: map<string, nat> := map[];
    maxTurn := -1;
    assert LastTurn(calls[..0]) == -1 by { LastTurnEmpty(); }
    for k := 0 to |calls|
      invariant forall i :: 0 <= i < k ==> calls[i].id in seen
      invariant forall id :: id in seen ==> seen[id] < k && calls[seen[id]].id == id
      invariant forall i, j :: 0 <= i < j < k ==> calls[i].id != calls[j].id
      invariant forall i :: 0 <= i < k ==> GoodCall(calls[i], i)
      invariant maxTurn == LastTurn(calls[..k])
    {
      var call := calls[k];
      LastTurnStep(calls, k);
      if call.id in seen {
        assert calls[seen[call.id]].id == calls[k].id;
        return false, -1;
      }
      seen := seen[call.id := k];
      var good := CheckCall(call, k);
      if !good {
        assert !GoodCall(calls[k], k);
        return false, -1;
      }
      maxTurn := Max(maxTurn, TurnOf(call));
    }
    assert calls[..|calls|] == calls;
    ok := true;
  }

  lemma LastTurnEmpty()
    ensures LastTurn([]) == -1
  {
  }

  lemma LastTurnStep(calls: seq<ToolCall>, k: nat)
    requires k < |calls|
    ensures LastTurn(calls[..k + 1]) == Max(LastTurn(calls[..k]), TurnOf(calls[k]))
  {
    assert calls[..k + 1][..k] == calls[..k];
  }

  method CheckCall(call: ToolCall, slot: nat) returns (ok: bool)
    ensures ok <==> GoodCall(call, slot)
  {
    if call.id == "" || call.name == "" {
      return false;
    }
    ok := call.operation.Unset? || !(call.operation.Malformed? || call.operation.turn < 0 || call.operation.slot != slot);
  }

  method AnalyzeTranscript(messages: seq<Message>) returns (result: Option<TranscriptAnalysis>)
    ensures result.None? <==> Analyze(messages).None?
    ensures result.Some? ==>
      var scan := Analyze(messages).value;
      && result.value.pending == (scan.unanswered != [])
      && result.value.endsWithToolResults == scan.endsWithResults
      && result.value.maxOperationTurn == scan.lastTurn
      && Locates(messages, result.value.assistantIndices, scan.calls)
  {
    hide WellNamed;
    var pending, pendingIndex := [], 0;
    var analysis := TranscriptAnalysis(false, false, [], -1);
    ghost var scan := START;
    assert messages[0..] == messages;
    for index := 0 to |messages|
      invariant 0 <= pendingIndex <= |pending| && (pending != [] ==> pendingIndex < |pending|)
      invariant scan.unanswered == pending[pendingIndex..]
      invariant scan.endsWithResults == analysis.endsWithToolResults && scan.lastTurn == analysis.maxOperationTurn
      invariant Locates(messages, analysis.assistantIndices, scan.calls)
      invariant Analyze(messages) == ScanAll(scan, messages[index..])
    {
      var m := messages[index];
      assert messages[index..][0] == m && messages[index..][1..] == messages[index + 1..];
      if |pending| > 0 {
        if !m.role.Tool? || m.toolResult.None? || m.toolResult.value.callId != pending[pendingIndex].id {
          return None;
        }
        scan := ScanStep(scan, m).value;
        pendingIndex := pendingIndex + 1;
        analysis := analysis.(endsWithToolResults := true);
        if pendingIndex == |pending| {
          pending, pendingIndex := [], 0;
        }
        continue;
      }
      analysis := analysis.(endsWithToolResults := false);
      if m.role.Tool? {
        return None;
      }
      if !m.role.Assistant? {
        scan := ScanStep(scan, m).value;
        continue;
      }
      var ok, maxTurn := CheckCalls(m.toolCalls);
      if !ok {
        return None;
      }
      scan := ScanStep(scan, m).value;
      analysis := analysis.(
        assistantIndices := analysis.assistantIndices + [index],
        maxOperationTurn := Max(analysis.maxOperationTurn, maxTurn));
      pending := m.toolCalls;
    }
    result := Some(analysis.(pending := |pending| > 0));
  }

  method ValidateContinuationStep(c: Continuation, i: nat, calls: seq<ToolCall>, turn: int, completed: nat, cumulative: Usage, ghost all: seq<seq<ToolCall>>)
    returns (ok: bool, nextCompleted: nat, nextCumulative: Usage)
    requires |all| == |c.steps| && i < |c.steps| && calls == all[i]
    requires completed == CallsDone(all, PendingStep(c), i) && cumulative == ModelUsage(c.steps, i)
    ensures ok <==> StepValid(c.steps, all, turn - i, PendingStep(c), i)
    ensures ok ==> nextCompleted == CallsDone(all, PendingStep(c), i + 1) && nextCumulative == ModelUsage(c.steps, i + 1)
  {
    hide Add, ValidUsage, Contains, Numbered, TracesMatch;
    var step := c.steps[i];
    nextCompleted, nextCumulative := completed, cumulative;
    if step.index != i || step.tokens < 0 || step.toolCalls < 0 || !ValidUsage(step.context) {
      return false, nextCompleted, nextCumulative;
    }
    if !Contains(step.context, PreviousContext(c.steps, i)) {
      return false, nextCompleted, nextCumulative;
    }
    if step.call.None? || !ValidUsage(step.call.value.usage) || (i < |c.steps| - 1 && step.decision != Continue) {
      return false, nextCompleted, nextCumulative;
    }
    if !Numbered(calls, turn) {
      return false, nextCompleted, nextCumulative;
    }
    var pending := c.phase.ModelComplete? && i == |c.steps| - 1;
    if pending {
      if step.traces != [] || step.decision != Continue {
        return false, nextCompleted, nextCumulative;
      }
    } else {
      if !TracesMatch(step.traces, calls) {
        return false, nextCompleted, nextCumulative;
      }
      nextCompleted := nextCompleted + |calls|;
    }
    nextCumulative := Add(cumulative, step.call.value.usage);
    var least := Add(nextCumulative, step.context).total;
    if i > 0 {
      least := Max(least, c.steps[i - 1].tokens + step.call.value.usage.total);
    }
    ok := step.toolCalls == nextCompleted
      && (if pending || |calls| == 0 then step.tokens == least else step.tokens >= least);
  }

  lemma NothingSpent(steps: seq<Step>, calls: seq<seq<ToolCall>>, pending: int)
    ensures ModelUsage(steps, 0) == ZERO && CallsDone(calls, pending, 0) == 0
  {
  }

  /** The k-th message from the end that an assistant wrote. */
  lemma LocatedFromEnd(messages: seq<Message>, indices: seq<nat>, calls: seq<seq<ToolCall>>, n: nat, i: nat)
    requires Locates(messages, indices, calls) && i < n <= |calls|
    ensures indices[|indices| - n + i] < |messages|
    ensures messages[indices[|indices| - n + i]].toolCalls == Last(calls, n)[i]
  {
  }

  method ValidateContinuationSteps(c: Continuation, analysis: TranscriptAnalysis, ghost scan: Scan)
    returns (ok: bool, completed: nat, cumulative: Usage)
    requires Locates(c.messages, analysis.assistantIndices, scan.calls) && |analysis.assistantIndices| == |scan.calls|
    ensures ok <==> StepsValid(c, scan.calls)
    ensures ok ==> completed == CallsDone(Last(scan.calls, |c.steps|), PendingStep(c), |c.steps|)
    ensures ok ==> cumulative == ModelUsage(c.steps, |c.steps|)
  {
    hide StepValid, ModelUsage, CallsDone, Locates, PendingStep, Last;
    completed, cumulative := 0, ZERO;
    if c.nextTurn < |c.steps| || |analysis.assistantIndices| < |c.steps| {
      return false, completed, cumulative;
    }
    NothingSpent(c.steps, Last(scan.calls, |c.steps|), PendingStep(c));
    var firstTurn := c.nextTurn - |c.steps|;
    var firstAssistant := |analysis.assistantIndices| - |c.steps|;
    ghost var generated := Last(scan.calls, |c.steps|);
    for i := 0 to |c.steps|
      invariant completed == CallsDone(generated, PendingStep(c), i) && cumulative == ModelUsage(c.steps, i)
      invariant forall j :: 0 <= j < i ==> StepValid(c.steps, generated, firstTurn, PendingStep(c), j)
    {
      LocatedFromEnd(c.messages, analysis.assistantIndices, scan.calls, |c.steps|, i);
      ok, completed, cumulative := ValidateContinuationStep(
        c, i, c.messages[analysis.assistantIndices[firstAssistant + i]].toolCalls, firstTurn + i, completed, cumulative, generated);
      if !ok {
        return;
      }
    }
    ok := true;
  }

  method ValidateContinuation(c: Continuation) returns (ok: bool)
    ensures ok <==> ValidContinuation(c)
  {
    hide Analyze, StepsValid, VersionValid, ScalarsValid, Contains, Add, ModelUsage, CallsDone, PhaseMatchesSteps;
    if !VersionValid(c) || !ScalarsValid(c) {
      return false;
    }
    var analysis := AnalyzeTranscript(c.messages);
    if analysis.None? {
      return false;
    }
    ghost var scan := Analyze(c.messages).value;
    var a := analysis.value;
    var phaseOk := match c.phase
      case Ready => !a.pending
      case ModelComplete => a.pending
      case ToolsComplete => !a.pending && a.endsWithToolResults
      case ValidatingOutput =>
        !a.pending && |c.messages| > 0
        && c.messages[|c.messages| - 1].role.Assistant? && |c.messages[|c.messages| - 1].toolCalls| == 0
      case UnknownPhase => false;
    if !phaseOk {
      return false;
    }
    var stepsOk, completed, cumulative := ValidateContinuationSteps(c, a, scan);
    if !stepsOk {
      return false;
    }
    var expectedTokens := c.context.total;
    if |c.steps| > 0 {
      var latest := c.steps[|c.steps| - 1];
      expectedTokens := latest.tokens;
      if !Contains(c.context, latest.context) {
        return false;
      }
    }
    if c.toolCallsUsed != completed || c.usage.total != expectedTokens
      || !Contains(c.usage, Add(cumulative, c.context)) || a.maxOperationTurn >= c.nextTurn {
      return false;
    }
    ok := PhaseMatchesSteps(c);
  }
}
