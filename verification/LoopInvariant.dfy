/**
 The invariant of the loop between passes, and the theorem that no run is ever stopped
 by its own boundary check.
 */
module LoopInvariant {
  import opened Wrappers
  import opened Messages
  import opened TokenUsage
  import opened Continuations
  import opened AgentLoop
  import opened LoopTranscript
  import opened LoopLedger
  import History

  function CallsOf(s: State): seq<seq<ToolCall>> {
    if Analyze(s.messages).Some? then Analyze(s.messages).value.calls else []
  }

  /** A state from which the loop may issue a model call. */
  predicate Good(s: State) {
    Settled(s.messages, CallsOf(s), s.turn) && Balanced(s, CallsOf(s)) && Continuing(s)
  }

  /* ---------- what is assumed of the outside world ---------- */

  predicate AnswerOk(answer: ModelAnswer) {
    match answer
    case Replied(assistant, usage, stop) =>
      && assistant.role.Assistant? && Consistent(usage)
      && (assistant.toolCalls == [] && !stop.Pause? ==> assistant.text != "" || assistant.thinking != "")
      && (forall c | c in assistant.toolCalls :: c.id != "" && c.name != "")
      && (forall i, j :: 0 <= i < j < |assistant.toolCalls| ==> assistant.toolCalls[i].id != assistant.toolCalls[j].id)
    case Interrupted(assistant, usage, _) => assistant.role.Assistant? && Consistent(usage)
    case _ => true
  }

  predicate ToolsOk(answer: ModelAnswer, tools: ToolAnswer) {
    answer.Replied? && answer.assistant.toolCalls != [] && tools.ToolsRan? ==>
      AnswersInOrder(answer.assistant.toolCalls, tools.results) && Consistent(tools.childUsage)
  }

  /** A transcript whose last n assistant messages made the calls that the last n of `calls`
      are, with no call open and none of a turn still to come. */
  predicate KeepsAnswers(ms: seq<Message>, calls: seq<seq<ToolCall>>, n: nat, turn: int) {
    var scan := Analyze(ms);
    && scan.Some? && scan.value.unanswered == [] && scan.value.lastTurn < turn
    && n <= |calls| && n <= |scan.value.calls| && Last(scan.value.calls, n) == Last(calls, n)
  }

  /** The same, with no message of any role that carries a call of a turn to come. */
  predicate Aligned(ms: seq<Message>, calls: seq<seq<ToolCall>>, n: nat, turn: int) {
    KeepsAnswers(ms, calls, n, turn) && NextToolTurn(ms) <= turn
  }

  /** What the guardrails leave of the history, if the run goes on after them. */
  function JudgedHistory(base: seq<Message>, assistant: Message, a: Answers): Option<seq<Message>> {
    match a.verdict
    case Accept(output) => if output.recovery != "" || a.followUp then Some(AppendFinal(base, output)) else None
    case Retry(_, _, messages) => if messages != [] then Some(Retried(base, assistant, a.verdict)) else None
    case Block => None
  }

  /** Where the run goes on, the answer kept, replaced or stood in for keeps step and answers
      aligned; `n` and `turn` count the answer's own step. */
  predicate VerdictFits(base: seq<Message>, calls: seq<seq<ToolCall>>, n: nat, turn: int, assistant: Message, a: Answers) {
    var left := JudgedHistory(base, assistant, a);
    left.Some? ==> Aligned(left.value, calls + [[]], n, turn)
  }

  /** The verdict on the answer that this pass reaches from `s`, if it reaches one. */
  predicate ReplyFits(cfg: Config, s: State, a: Answers) {
    var (asked, answer) := Ask(cfg, s, a);
    answer.Replied? && answer.assistant.toolCalls == [] && !answer.stop.Pause? ==>
      VerdictFits(asked.messages, CallsOf(asked), |asked.steps| + 1, asked.turn + 1, answer.assistant, a)
  }

  predicate AnswersOk(a: Answers) {
    && (forall m | m in a.inputs :: Plain(m))
    && AnswerOk(a.first) && AnswerOk(a.second)
    && ToolsOk(a.first, a.tools) && ToolsOk(a.second, a.tools)
  }

  /** Applied to the state's history, the compactor archives, or keeps the answers aligned in
      some other way, and its cost fits the ledger. */
  ghost predicate CompactorOk(s: State, compactor: Compactor, target: int, freshInputs: nat) {
    var r := compactor(s.messages, target, freshInputs);
    && Consistent(r.summary) && ContextWorkFits(s, CallsOf(s), r.summary)
    && (r.Compacted? ==>
          History.ArchivesTo(s.messages, r.messages) || Aligned(r.messages, CallsOf(s), |s.steps|, s.turn))
  }

  ghost predicate OpenOk(cfg: Config, s: State, a: Answers) {
    && AnswersOk(a)
    && var admitted := Admit(s, a.inputs);
    (CompactionFor(cfg, admitted).Some? ==>
      CompactorOk(admitted, CompactionFor(cfg, admitted).value, cfg.contextTarget, |a.inputs|))
  }

  ghost predicate PassOk(cfg: Config, s: State, a: Answers) {
    && OpenOk(cfg, s, a)
    && var ready := Open(cfg, s, a.inputs).outcome;
    && (ready.Running? && a.first.Overflowed? && OverflowCompactor(cfg).Some? ==>
          CompactorOk(ready.s, OverflowCompactor(cfg).value, Max(1, cfg.contextTarget * 3 / 4), |a.inputs|))
    && (ready.Running? ==> ReplyFits(cfg, ready.s, a))
  }

  ghost predicate ScriptOk(cfg: Config, s: State, script: seq<Answers>)
    decreases |script|
  {
    script != [] && IterationAllowed(cfg, |s.steps|) ==>
      && PassOk(cfg, s, script[0])
      && var pass := OnePass(cfg, s, script[0]);
      (pass.outcome.Running? ==> ScriptOk(cfg, pass.outcome.s, script[1..]))
  }

  /* ---------- boundaries ---------- */

  predicate Unsaturated(s: State) { s.usage.total < MAX_INT }

  /** A continuation that carries the fields of a state. */
  predicate Carries(c: Continuation, s: State) {
    && c.requestValid && c.version == SCHEMA_VERSION
    && c.messages == s.messages && c.steps == s.steps && c.usage == s.usage && c.context == s.context
    && c.toolCallsUsed == s.toolCallsUsed && c.nextTurn == s.turn
  }

  /** With a balanced ledger, being valid is a matter of the phase alone. */
  lemma BoundaryValidIff(s: State, c: Continuation)
    requires Carries(c, s)
    requires Analyze(c.messages).Some? && Analyze(c.messages).value.lastTurn < c.nextTurn
    requires BalancedWith(s, Analyze(c.messages).value.calls, PendingStep(c))
    ensures ValidContinuation(c) <==> PhaseMatchesTranscript(c, Analyze(c.messages).value) && PhaseMatchesSteps(c)
  {
    hide ScanAll, LedgerValid, CallsDone, ModelUsage, Add, Last;
    var calls := Analyze(c.messages).value.calls;
    ContextBelowTotal(s, calls, PendingStep(c));
    ContextCovered(s, calls, PendingStep(c));
  }

  lemma TurnsBelow(ms: seq<Message>, turn: int)
    requires Analyze(ms).Some? && NextToolTurn(ms) <= turn
    ensures Analyze(ms).value.lastTurn < turn
  {
    hide ScanAll;
    LastTurnBelowNext(START, ms);
  }

  lemma LedgerOfValid(c: Continuation)
    ensures ValidContinuation(c) ==>
      && Analyze(c.messages).Some? && |c.steps| <= |Analyze(c.messages).value.calls|
      && Analyze(c.messages).value.lastTurn < c.nextTurn
      && LedgerValid(c.steps, Last(Analyze(c.messages).value.calls, |c.steps|), c.nextTurn - |c.steps|, PendingStep(c))
  {
    hide ScanAll, LedgerValid;
  }

  lemma BalancedLedger(s: State, calls: seq<seq<ToolCall>>, pending: int)
    requires BalancedWith(s, calls, pending)
    ensures |s.steps| <= |calls| && LedgerValid(s.steps, Last(calls, |s.steps|), s.turn - |s.steps|, pending)
  {
    hide LedgerValid, CallsDone, ModelUsage, Add, Contains, Consistent;
  }

  /** With a ledger balanced for some calls, whatever has become of the transcript: the
      boundary is valid if and only if the transcript still ends in answers with those calls,
      and fits the phase. */
  lemma TranscriptValidIff(s: State, calls: seq<seq<ToolCall>>, c: Continuation)
    requires Carries(c, s) && BalancedWith(s, calls, PendingStep(c))
    ensures ValidContinuation(c) <==>
      var scan, n := Analyze(c.messages), |s.steps|;
      && scan.Some? && scan.value.lastTurn < s.turn
      && n <= |calls| && n <= |scan.value.calls|
      && SameTurns(Last(calls, n), Last(scan.value.calls, n), PendingStep(c), s.turn - n)
      && PhaseMatchesTranscript(c, scan.value) && PhaseMatchesSteps(c)
  {
    hide ScanAll, LedgerValid, BalancedWith, ValidContinuation, PhaseMatchesTranscript, PhaseMatchesSteps, Last, SameTurns;
    var scan, n := Analyze(c.messages), |s.steps|;
    LedgerOfValid(c);
    BalancedLedger(s, calls, PendingStep(c));
    if scan.Some? && scan.value.lastTurn < s.turn && n <= |scan.value.calls| {
      LedgerFitsIff(s.steps, Last(calls, n), Last(scan.value.calls, n), s.turn - n, PendingStep(c));
      if SameTurns(Last(calls, n), Last(scan.value.calls, n), PendingStep(c), s.turn - n) {
        BalancedByTurns(s, calls, scan.value.calls, PendingStep(c));
        BoundaryValidIff(s, c);
      }
    }
  }

  lemma SameTurnsIff(calls: seq<seq<ToolCall>>, other: seq<seq<ToolCall>>, first: int)
    requires |calls| == |other|
    ensures SameTurns(calls, other, -1, first) <==> other == calls
  {
  }

  /** At a ready boundary: exactly when the answers are kept. */
  lemma ReadyValidIff(s: State, calls: seq<seq<ToolCall>>, ms: seq<Message>)
    requires Balanced(s, calls) && Continuing(s)
    ensures ValidContinuation(Snapshot(s.(messages := ms), Ready)) <==> KeepsAnswers(ms, calls, |s.steps|, s.turn)
  {
    hide ScanAll, BalancedWith, ValidContinuation, Last, SameTurns;
    var next, n := s.(messages := ms), |s.steps|;
    BalancedIgnoresMessages(s, calls, next);
    TranscriptValidIff(next, calls, Snapshot(next, Ready));
    if Analyze(ms).Some? && n <= |calls| && n <= |Analyze(ms).value.calls| {
      SameTurnsIff(Last(calls, n), Last(Analyze(ms).value.calls, n), s.turn - n);
    }
  }

  /** And then the run goes on from a state with the invariant. */
  lemma AlignedGood(s: State, calls: seq<seq<ToolCall>>, ms: seq<Message>)
    requires Balanced(s, calls) && Continuing(s) && Aligned(ms, calls, |s.steps|, s.turn)
    ensures Good(s.(messages := ms))
  {
    hide ScanAll, BalancedWith, NextToolTurn, Last, SameTurns;
    var other, n := Analyze(ms).value.calls, |s.steps|;
    SameTurnsIff(Last(calls, n), Last(other, n), s.turn - n);
    BalancedByTurns(s, calls, other, -1);
    BalancedIgnoresMessages(s, other, s.(messages := ms));
  }

  lemma ContextCovered(s: State, calls: seq<seq<ToolCall>>, pending: int)
    requires BalancedWith(s, calls, pending)
    ensures |s.steps| > 0 ==> Contains(s.context, LastStep(s).context)
  {
  }

  lemma GoodIsValid(s: State)
    requires Good(s)
    ensures ValidContinuation(Snapshot(s, Ready))
  {
    hide Balanced, ScanAll;
    assert BalancedWith(s, CallsOf(s), -1) by { Unfold(s, CallsOf(s)); }
    TurnsBelow(s.messages, s.turn);
    BoundaryValidIff(s, Snapshot(s, Ready));
  }

  lemma Unfold(s: State, calls: seq<seq<ToolCall>>)
    requires Balanced(s, calls)
    ensures BalancedWith(s, calls, -1)
  {
  }

  lemma AddGrows(u: Usage, v: Usage)
    requires Consistent(u)
    ensures Consistent(Add(u, v)) && u.total <= Add(u, v).total
  {
    AddClosed(u, v);
    NormalizedIffConsistent(u);
  }

  /* ---------- opening a pass ---------- */

  lemma AdmitGood(s: State, inputs: seq<Message>)
    requires Good(s) && forall m | m in inputs :: Plain(m)
    ensures Good(Admit(s, inputs)) && CallsOf(Admit(s, inputs)) == CallsOf(s)
  {
    hide ScanAll, Balanced, NextToolTurn;
    AppendPlain(s.messages, CallsOf(s), s.turn, inputs);
    var admitted := Admit(s, inputs);
    if admitted.steps != s.steps {
      var step := LastStep(admitted);
      assert admitted.steps == MapLast(s.steps, step);
      AmendLast(s, CallsOf(s), step);
      assert s.(steps := admitted.steps).(messages := admitted.messages) == admitted;
    }
    BalancedIgnoresMessages(s.(steps := admitted.steps), CallsOf(s), admitted);
  }

  lemma BalancedIgnoresMessages(s: State, calls: seq<seq<ToolCall>>, next: State)
    requires Balanced(s, calls) && next == s.(messages := next.messages)
    ensures Balanced(next, calls)
  {
    hide LedgerValid, ModelUsage, CallsDone, Add, Contains, Consistent, Last;
  }

  lemma CompressGood(s: State, compactor: Compactor, target: int, freshInputs: nat)
    requires Good(s) && CompactorOk(s, compactor, target, freshInputs)
    requires var (ok, next) := Compress(s, compactor, target, freshInputs); Unsaturated(next)
    ensures var (ok, next) := Compress(s, compactor, target, freshInputs); ok ==> Good(next)
  {
    hide Balanced, ScanAll, NextToolTurn, ContextWorkFits, History.CompleteTurns, History.ArchivesTo, Aligned;
    var (ok, next) := Compress(s, compactor, target, freshInputs);
    if ok {
      var r := compactor(s.messages, target, freshInputs);
      var accounted := AccountContext(s, r.summary);
      AccountContextIff(s, CallsOf(s), r.summary);
      AccountShape(s, r.summary);
      if History.ArchivesTo(s.messages, r.messages) {
        ArchiveKeepsSettled(s.messages, r.messages, CallsOf(s), s.turn);
        BalancedIgnoresMessages(accounted, CallsOf(s), next);
      } else {
        AlignedGood(accounted, CallsOf(s), r.messages);
      }
    }
  }

  lemma AccountShape(s: State, summary: Usage)
    ensures var next := AccountContext(s, summary);
      && next.turn == s.turn && |next.steps| == |s.steps| && (Continuing(s) ==> Continuing(next))
      && (s.steps != [] ==> LastStep(next).traces == LastStep(s).traces)
  {
    hide Add;
  }

  lemma CompressGrows(s: State, compactor: Compactor, target: int, freshInputs: nat)
    requires Consistent(s.usage)
    ensures var (ok, next) := Compress(s, compactor, target, freshInputs);
      Consistent(next.usage) && s.usage.total <= next.usage.total && next.turn == s.turn && |next.steps| == |s.steps|
  {
    AddGrows(s.usage, compactor(s.messages, target, freshInputs).summary);
    hide Add;
  }

  lemma UsageConsistent(s: State)
    requires Good(s)
    ensures Consistent(s.usage) && Unsaturated(s)
  {
  }

  lemma OpenSound(cfg: Config, s: State, a: Answers)
    requires Good(s) && OpenOk(cfg, s, a) && Unsaturated(Open(cfg, s, a.inputs).outcome.s)
    ensures var ready := Open(cfg, s, a.inputs).outcome;
      && (ready.Running? ==> Good(ready.s))
      && !(ready.Stopped? && ready.reason.BoundaryRejected?)
  {
    hide Good, ValidContinuation, CompactorOk, AnswersOk, Compress, ReplyFits;
    assert forall m | m in a.inputs :: Plain(m) by { InputsPlain(a); }
    AdmitGood(s, a.inputs);
    var admitted := Admit(s, a.inputs);
    var compactor := CompactionFor(cfg, admitted);
    var next := if |s.steps| > 0 || cfg.contextTarget > 0 then MaybeCompact(cfg, admitted, |a.inputs|) else (true, admitted);
    if compactor.Some? && next.0 && Unsaturated(next.1) && next != (true, admitted) {
      CompressGood(admitted, compactor.value, cfg.contextTarget, |a.inputs|);
    }
    if next.0 && Unsaturated(next.1) {
      GoodIsValid(next.1);
    }
  }

  lemma InputsPlain(a: Answers)
    requires AnswersOk(a)
    ensures forall m | m in a.inputs :: Plain(m)
  {
  }

  /* ---------- the model call ---------- */

  lemma AskSound(cfg: Config, s: State, a: Answers)
    requires Good(s) && AnswersOk(a) && Unsaturated(Ask(cfg, s, a).0)
    requires a.first.Overflowed? && OverflowCompactor(cfg).Some? ==>
      CompactorOk(s, OverflowCompactor(cfg).value, Max(1, cfg.contextTarget * 3 / 4), |a.inputs|)
    ensures var (asked, answer) := Ask(cfg, s, a);
      && (answer.Replied? || answer.Interrupted? || answer.InterruptedUnopened? ==> Good(asked))
      && AnswerOk(answer) && ToolsOk(answer, a.tools)
  {
    hide Good, CompactorOk, Compress;
    if a.first.Overflowed? && OverflowCompactor(cfg).Some? {
      var compactor, target := OverflowCompactor(cfg).value, Max(1, cfg.contextTarget * 3 / 4);
      var (ok, next) := Compress(s, compactor, target, |a.inputs|);
      if ok && Unsaturated(next) {
        CompressGood(s, compactor, target, |a.inputs|);
      }
    }
  }

  lemma AskGrows(cfg: Config, s: State, a: Answers)
    requires Consistent(s.usage)
    ensures var asked := Ask(cfg, s, a).0;
      Consistent(asked.usage) && s.usage.total <= asked.usage.total && asked.turn == s.turn && |asked.steps| == |s.steps|
  {
    hide Compress, Consistent;
    if a.first.Overflowed? && OverflowCompactor(cfg).Some? {
      CompressGrows(s, OverflowCompactor(cfg).value, Max(1, cfg.contextTarget * 3 / 4), |a.inputs|);
    }
  }

  lemma SettledLater(ms: seq<Message>, calls: seq<seq<ToolCall>>, turn: int, later: int)
    requires Settled(ms, calls, turn) && turn <= later
    ensures Settled(ms, calls, later)
  {
  }

  lemma SettledCalls(s: State, calls: seq<seq<ToolCall>>)
    requires Settled(s.messages, calls, s.turn)
    ensures CallsOf(s) == calls
  {
  }

  /** A turn that ran no tools, recorded as one step and one assistant message. */
  lemma RecordAnswer(s: State, step: Step, u: Usage, m: Message, next: State)
    requires Good(s) && Consistent(u) && Add(s.usage, u).total < MAX_INT
    requires FreshEntry(s, step, u) && m.role.Assistant? && m.toolCalls == []
    requires next.steps == s.steps + [step] && next.usage == Add(s.usage, u) && next.context == s.context
    requires next.toolCallsUsed == s.toolCallsUsed && next.turn == s.turn + 1 && next.messages == s.messages + [m]
    ensures CallsOf(next) == CallsOf(s) + [[]]
    ensures Settled(next.messages, CallsOf(next), next.turn) && Balanced(next, CallsOf(next))
    ensures step.decision == Continue ==> Good(next)
  {
    hide Settled, BalancedWith, Add, Consistent, FreshEntry;
    var calls := CallsOf(s);
    AppendAnswer(s.messages, calls, s.turn, m);
    SettledLater(next.messages, calls + [[]], s.turn, next.turn);
    SettledCalls(next, calls + [[]]);
    RecordTurn(s, calls, step, u, [], next);
  }

  lemma InterruptedSound(s: State, assistant: Message, usage: Usage, stop: StopReason)
    requires Good(s) && assistant.role.Assistant? && Consistent(usage)
    requires Unsaturated(RecordInterrupted(s, assistant, usage, stop))
    ensures Good(RecordInterrupted(s, assistant, usage, stop))
  {
    if usage == ZERO {
      UsageConsistent(s);
      AddZero(s.usage);
    }
    hide Good, Add, Consistent;
    var next := RecordInterrupted(s, assistant, usage, stop);
    var step := LastStep(next);
    RecordAnswer(s, step, usage, next.messages[|s.messages|], next);
  }

  /** An interruption before the stream opened leaves the run as it was. */
  lemma UnopenedSound(s: State)
    requires Good(s)
    ensures s.(steps := SnapshotContext(s.steps, s.usage, s.context)) == s
  {
    hide LedgerValid, CallsDone, ModelUsage, Add;
    if s.steps != [] {
      assert MapLast(s.steps, LastStep(s)) == s.steps;
    }
  }

  /* ---------- turns without tools ---------- */

  lemma PauseSound(cfg: Config, s: State, assistant: Message, usage: Usage, steer: bool)
    requires Good(s) && assistant.role.Assistant? && assistant.toolCalls == [] && Consistent(usage)
    requires Add(s.usage, usage).total < MAX_INT
    ensures var counted := s.(turn := s.turn + 1, usage := Add(s.usage, usage));
      var r := PauseTurn(cfg, counted, assistant, ModelCall(usage, Pause), steer).outcome;
      && (r.Running? ==> Good(r.s))
      && !(r.Stopped? && r.reason.BoundaryRejected?)
  {
    hide Good, Add, Consistent, ValidContinuation, ConsecutivePauses;
    var counted := s.(turn := s.turn + 1, usage := Add(s.usage, usage));
    var step := NewStep(counted, ModelCall(usage, Pause), Continue).(observations := [PauseContinuation]);
    var next := counted.(messages := s.messages + [assistant], steps := s.steps + [step]);
    RecordAnswer(s, step, usage, assistant, next);
    GoodIsValid(next);
  }

  /** Appending `output` and plain messages to `base`, and settling the last step. */
  lemma ContinueWith(s: State, base: seq<Message>, calls: seq<seq<ToolCall>>, output: Message, more: seq<Message>, step: Step)
    requires Settled(base, calls, s.turn) && s.steps != [] && Balanced(s, calls + [[]])
    requires output.role.Assistant? && output.toolCalls == [] && forall m | m in more :: Plain(m)
    requires step == LastStep(s).(decision := Continue, observations := step.observations)
    ensures Good(s.(messages := base + [output] + more, steps := MapLast(s.steps, step)))
  {
    hide Settled, BalancedWith, Plain;
    AppendAnswer(base, calls, s.turn, output);
    AppendPlain(base + [output], calls + [[]], s.turn, more);
    AmendLast(s, calls + [[]], step);
    var next := s.(messages := base + [output] + more, steps := MapLast(s.steps, step));
    SettledCalls(next, calls + [[]]);
    hide Balanced;
    BalancedIgnoresMessages(s.(steps := MapLast(s.steps, step)), calls + [[]], next);
  }

  lemma SettleSound(cfg: Config, s: State, base: seq<Message>, calls: seq<seq<ToolCall>>, assistant: Message, stop: StopReason, a: Answers)
    requires s.steps != [] && Balanced(s, calls + [[]]) && VerdictFits(base, calls, |s.steps|, s.turn, assistant, a)
    ensures var r := Settle(cfg, s, base, assistant, stop, a);
      && (r.Running? ==> Good(r.s))
      && !(r.Stopped? && r.reason.BoundaryRejected?)
  {
    hide Balanced, Good, Aligned, RecoveryCount;
    var r := Settle(cfg, s, base, assistant, stop, a);
    if r.Running? {
      SettleStep(cfg, s, base, assistant, stop, a);
      AmendLast(s, calls + [[]], LastStep(r.s));
      var amended := s.(steps := r.s.steps);
      var left := JudgedHistory(base, assistant, a).value;
      if a.verdict.Accept? && a.verdict.output.recovery != "" {
        AlignedPlain(left, calls + [[]], |s.steps|, s.turn, NewText(User, cfg.correction(a.verdict.output.recovery)));
      }
      AlignedGood(amended, calls + [[]], r.s.messages);
    }
  }

  /** What a verdict that continues does to the last step. */
  lemma SettleStep(cfg: Config, s: State, base: seq<Message>, assistant: Message, stop: StopReason, a: Answers)
    requires s.steps != [] && Settle(cfg, s, base, assistant, stop, a).Running?
    ensures var r := Settle(cfg, s, base, assistant, stop, a).s;
      && r.steps != [] && r.steps == MapLast(s.steps, LastStep(r))
      && LastStep(r) == LastStep(s).(decision := Continue, observations := LastStep(r).observations)
      && r == s.(messages := r.messages, steps := r.steps) && JudgedHistory(base, assistant, a).Some?
  {
    hide RecoveryCount;
  }

  /* ---------- verdicts that fit whatever the state ---------- */

  /** One answer among instructions. */
  predicate StandsIn(context: seq<Message>) {
    exists k :: 0 <= k < |context| && context[k].role.Assistant? && context[k].toolCalls == []
      && forall i :: 0 <= i < |context| && i != k ==> Plain(context[i])
  }

  /** Replacements are real answers; a retry keeps the rejected answer, or puts one other in
      its place, and adds instructions only. */
  predicate VerdictOk(verdict: Verdict) {
    match verdict
    case Accept(output) => output.role.Assistant? && output.toolCalls == [] && (output.text != "" || output.thinking != "")
    case Retry(includeRejected, replacement, messages) =>
      if includeRejected then forall m | m in replacement + messages :: Plain(m) else StandsIn(replacement + messages)
    case Block => true
  }

  lemma SettledAligned(ms: seq<Message>, calls: seq<seq<ToolCall>>, n: nat, turn: int)
    requires Settled(ms, calls, turn) && n <= |calls|
    ensures Aligned(ms, calls, n, turn)
  {
    hide ScanAll, NextToolTurn;
    TurnsBelow(ms, turn);
  }

  lemma StandInSettles(base: seq<Message>, calls: seq<seq<ToolCall>>, turn: int, context: seq<Message>)
    requires Settled(base, calls, turn) && StandsIn(context)
    ensures Settled(base + context, calls + [[]], turn)
  {
    hide Settled;
    var k :| 0 <= k < |context| && context[k].role.Assistant? && context[k].toolCalls == []
      && forall i :: 0 <= i < |context| && i != k ==> Plain(context[i]);
    AppendPlain(base, calls, turn, context[..k]);
    AppendAnswer(base + context[..k], calls, turn, context[k]);
    AppendPlain(base + context[..k] + [context[k]], calls + [[]], turn, context[k + 1..]);
    assert base + context[..k] + [context[k]] + context[k + 1..] == base + context;
  }

  lemma VerdictOkFits(base: seq<Message>, calls: seq<seq<ToolCall>>, n: nat, turn: int, assistant: Message, a: Answers)
    requires Settled(base, calls, turn) && n <= |calls| + 1 && VerdictOk(a.verdict)
    requires assistant.role.Assistant? && assistant.toolCalls == [] && (assistant.text != "" || assistant.thinking != "")
    ensures VerdictFits(base, calls, n, turn, assistant, a)
  {
    hide Settled, Aligned, Plain, StandsIn;
    match a.verdict
    case Block =>
    case Accept(output) =>
      AppendAnswer(base, calls, turn, output);
      SettledAligned(base + [output], calls + [[]], n, turn);
    case Retry(includeRejected, replacement, messages) =>
      var context := replacement + messages;
      if includeRejected {
        AppendAnswer(base, calls, turn, assistant);
        AppendPlain(base + [assistant], calls + [[]], turn, context);
        assert base + [assistant] + context == base + [assistant] + replacement + messages;
      } else {
        StandInSettles(base, calls, turn, context);
        assert base + context == base + replacement + messages;
      }
      SettledAligned(Retried(base, assistant, a.verdict), calls + [[]], n, turn);
  }

  /** An instruction behind aligned answers. */
  lemma AlignedPlain(ms: seq<Message>, calls: seq<seq<ToolCall>>, n: nat, turn: int, m: Message)
    requires Aligned(ms, calls, n, turn) && Plain(m)
    ensures Aligned(ms + [m], calls, n, turn)
  {
    hide ScanAll, NextToolTurn, Last;
    AnalyzeAppend(ms, m);
    NextTurnConcat(ms, [m]);
    NoCallsNoTurn(m);
  }

  lemma AnswerSound(cfg: Config, s: State, assistant: Message, usage: Usage, stop: StopReason, a: Answers)
    requires Good(s) && AnswerOk(Replied(assistant, usage, stop)) && assistant.toolCalls == [] && !stop.Pause?
    requires VerdictFits(s.messages, CallsOf(s), |s.steps| + 1, s.turn + 1, assistant, a) && Add(s.usage, usage).total < MAX_INT
    ensures var counted := s.(turn := s.turn + 1, usage := Add(s.usage, usage));
      var r := AnswerTurn(cfg, counted, assistant, ModelCall(usage, stop), a).outcome;
      && (r.Running? ==> Good(r.s))
      && !(r.Stopped? && r.reason.BoundaryRejected?)
  {
    hide Add, Consistent, ValidContinuation, Settle, Settled, Balanced, VerdictFits, CallsOf;
    var counted := s.(turn := s.turn + 1, usage := Add(s.usage, usage));
    var call := ModelCall(usage, stop);
    var next := counted.(messages := s.messages + [assistant], steps := s.steps + [NewStep(counted, call, Finish)]);
    RecordAnswer(s, NewStep(counted, call, Finish), usage, assistant, next);
    AnswerBoundary(next, CallsOf(next), assistant);
    SettleSound(cfg, next, s.messages, CallsOf(s), assistant, stop, a);
    hide Good;
    assert AppendFinal(s.messages, assistant) == s.messages + [assistant];
  }

  lemma AnswerBoundary(s: State, calls: seq<seq<ToolCall>>, assistant: Message)
    requires Settled(s.messages, calls, s.turn) && Balanced(s, calls)
    requires s.steps != [] && LastStep(s).decision == Finish
    requires s.messages != [] && s.messages[|s.messages| - 1] == assistant && assistant.role.Assistant? && assistant.toolCalls == []
    ensures ValidContinuation(Snapshot(s, ValidatingOutput))
  {
    hide BalancedWith, ScanAll, NextToolTurn;
    TurnsBelow(s.messages, s.turn);
    BoundaryValidIff(s, Snapshot(s, ValidatingOutput));
  }

  /* ---------- turns with tools ---------- */

  lemma NumberedCallsNamed(calls: seq<ToolCall>, turn: int)
    requires 0 <= turn
    requires forall c | c in calls :: c.id != "" && c.name != ""
    requires forall i, j :: 0 <= i < j < |calls| ==> calls[i].id != calls[j].id
    ensures WellNamed(NumberCalls(calls, turn)) && Numbered(NumberCalls(calls, turn), turn)
  {
    var numbered := NumberCalls(calls, turn);
    forall k | 0 <= k < |numbered| ensures GoodCall(numbered[k], k) {
      assert calls[k] in calls;
    }
  }

  /** The last message opened a tool turn with these calls, and the last step waits for them. */
  predicate AwaitsResults(s: State, calls: seq<seq<ToolCall>>, numbered: seq<ToolCall>) {
    && s.steps != [] && BalancedWith(s, calls + [numbered], |s.steps| - 1)
    && Analyze(s.messages).Some? && Analyze(s.messages).value.unanswered == numbered
    && Analyze(s.messages).value.calls == calls + [numbered]
    && NextToolTurn(s.messages) <= s.turn
  }

  lemma StartToolsSound(s: State, assistant: Message, usage: Usage, stop: StopReason)
    requires Good(s) && AnswerOk(Replied(assistant, usage, stop)) && assistant.toolCalls != []
    requires Add(s.usage, usage).total < MAX_INT
    ensures var counted := s.(turn := s.turn + 1, usage := Add(s.usage, usage));
      var started, numbered := StartTools(counted, assistant, ModelCall(usage, stop), s.turn), NumberCalls(assistant.toolCalls, s.turn);
      AwaitsResults(started, CallsOf(s), numbered) && ValidContinuation(Snapshot(started, ModelComplete))
  {
    hide Add, Consistent, ScanAll, NextToolTurn, BalancedWith, WellNamed, Numbered, ValidContinuation;
    var counted := s.(turn := s.turn + 1, usage := Add(s.usage, usage));
    var call, numbered := ModelCall(usage, stop), NumberCalls(assistant.toolCalls, s.turn);
    var started := StartTools(counted, assistant, call, s.turn);
    TurnNonnegative(s);
    NumberedCallsNamed(assistant.toolCalls, s.turn);
    AppendCalls(s.messages, CallsOf(s), s.turn, assistant.(toolCalls := numbered));
    RecordTurn(s, CallsOf(s), NewStep(counted, call, Continue), usage, numbered, started);
    TurnsBelow(started.messages, started.turn);
    BoundaryValidIff(started, Snapshot(started, ModelComplete));
  }

  lemma TurnNonnegative(s: State)
    requires Good(s)
    ensures 0 <= s.turn
  {
  }

  lemma FinishToolsSound(cfg: Config, started: State, calls: seq<seq<ToolCall>>, assistant: Message, turn: int, a: Answers)
    requires started.steps != [] && AwaitsResults(started, calls, NumberCalls(assistant.toolCalls, turn))
    requires assistant.toolCalls != [] && AnswersInOrder(assistant.toolCalls, a.tools.results)
    requires Consistent(a.tools.childUsage) && Add(started.usage, a.tools.childUsage).total < MAX_INT
    ensures var recorded := RecordResults(started, |assistant.toolCalls|, a.tools.results, a.tools.childUsage);
      var r := FinishTools(cfg, recorded, assistant, a.tools.results, a).outcome;
      && (r.Running? ==> Good(r.s))
      && !(r.Stopped? && r.reason.BoundaryRejected?)
  {
    hide Add, Consistent, ScanAll, NextToolTurn, BalancedWith, ValidContinuation, TracesMatch;
    var numbered := NumberCalls(assistant.toolCalls, turn);
    var recorded := RecordResults(started, |assistant.toolCalls|, a.tools.results, a.tools.childUsage);
    var next := FinishTools(cfg, recorded, assistant, a.tools.results, a).outcome.s;
    TracesIgnoreNumbers(assistant.toolCalls, numbered, LastStep(next).traces);
    ToolsRecorded(started, calls, next, a.tools.childUsage, numbered);
    AppendResults(started.messages, next.turn, a.tools.results);
    TracesMade(LastStep(next).traces, numbered);
    SettledCalls(next, calls + [numbered]);
    Unfold(next, calls + [numbered]);
    TurnsBelow(next.messages, next.turn);
    BoundaryValidIff(next, Snapshot(next, ToolsComplete));
  }

  lemma TracesIgnoreNumbers(calls: seq<ToolCall>, numbered: seq<ToolCall>, traces: seq<Trace>)
    requires TracesMatch(traces, calls) && |numbered| == |calls|
    requires forall k :: 0 <= k < |calls| ==> numbered[k] == calls[k].(operation := numbered[k].operation)
    ensures TracesMatch(traces, numbered)
  {
  }

  lemma TracesMade(traces: seq<Trace>, calls: seq<ToolCall>)
    requires TracesMatch(traces, calls) && calls != []
    ensures traces != []
  {
  }

  lemma ToolsRecorded(started: State, calls: seq<seq<ToolCall>>, next: State, childUsage: Usage, numbered: seq<ToolCall>)
    requires started.steps != [] && BalancedWith(started, calls + [numbered], |started.steps| - 1) && numbered != []
    requires Consistent(childUsage) && Add(started.usage, childUsage).total < MAX_INT
    requires next.usage == Add(started.usage, childUsage) && next.toolCallsUsed == started.toolCallsUsed + |numbered|
    requires next.context == started.context && next.turn == started.turn
    requires next.steps != [] && next.steps == MapLast(started.steps, LastStep(next))
    requires LastStep(next) == LastStep(started).(
      traces := LastStep(next).traces, decision := LastStep(next).decision, observations := LastStep(next).observations,
      tokens := next.usage.total, toolCalls := next.toolCallsUsed, context := started.context)
    requires TracesMatch(LastStep(next).traces, numbered)
    ensures Balanced(next, calls + [numbered])
  {
    hide Add, Consistent, TracesMatch, LedgerValid, CallsDone, ModelUsage, Last;
    assert LastStep(started).context == started.context;
    hide BalancedWith;
    RecordTools(started, calls, numbered, childUsage, next);
  }

  lemma FinishKeepsUsage(cfg: Config, s: State, assistant: Message, results: seq<ToolResult>, a: Answers)
    requires s.steps != []
    ensures FinishTools(cfg, s, assistant, results, a).outcome.s.usage == s.usage
  {
    hide ValidContinuation, TerminalSucceeded;
  }

  lemma ToolTurnUsage(cfg: Config, s: State, assistant: Message, call: ModelCall, turn: int, a: Answers)
    requires Consistent(s.usage)
    ensures var usage := ToolTurn(cfg, s, assistant, call, turn, a).outcome.s.usage;
      usage == s.usage || usage == Add(s.usage, a.tools.childUsage)
  {
    hide ValidContinuation, FinishTools, Add, PreDispatchBlock;
    var started := StartTools(s, assistant, call, turn);
    FinishKeepsUsage(cfg, RecordResults(started, |assistant.toolCalls|, a.tools.results, a.tools.childUsage), assistant, a.tools.results, a);
  }

  /** A tool turn that got past its checks ends as its finalisation does. */
  lemma ToolTurnOutcome(cfg: Config, s: State, assistant: Message, call: ModelCall, turn: int, a: Answers)
    ensures var started := StartTools(s, assistant, call, turn);
      var recorded := RecordResults(started, |assistant.toolCalls|, a.tools.results, a.tools.childUsage);
      var r := ToolTurn(cfg, s, assistant, call, turn, a).outcome;
      || (r == FinishTools(cfg, recorded, assistant, a.tools.results, a).outcome && a.tools.ToolsRan?)
      || (r.Stopped? && (r.reason.BoundaryRejected? ==> !ValidContinuation(Snapshot(started, ModelComplete))))
  {
    hide ValidContinuation, FinishTools, Add, PreDispatchBlock;
  }

  lemma ToolSound(cfg: Config, s: State, assistant: Message, usage: Usage, stop: StopReason, a: Answers)
    requires Good(s) && AnswerOk(Replied(assistant, usage, stop)) && assistant.toolCalls != []
    requires ToolsOk(Replied(assistant, usage, stop), a.tools)
    requires Add(s.usage, usage).total < MAX_INT
    requires var counted := s.(turn := s.turn + 1, usage := Add(s.usage, usage));
      Unsaturated(ToolTurn(cfg, counted, assistant, ModelCall(usage, stop), s.turn, a).outcome.s)
    ensures var counted := s.(turn := s.turn + 1, usage := Add(s.usage, usage));
      var r := ToolTurn(cfg, counted, assistant, ModelCall(usage, stop), s.turn, a).outcome;
      && (r.Running? ==> Good(r.s))
      && !(r.Stopped? && r.reason.BoundaryRejected?)
  {
    hide Good, Add, Consistent, ValidContinuation, AnswerOk, BalancedWith, ScanAll, NextToolTurn, FinishTools, ToolTurn;
    var counted := s.(turn := s.turn + 1, usage := Add(s.usage, usage));
    var call := ModelCall(usage, stop);
    var started := StartTools(counted, assistant, call, s.turn);
    StartToolsSound(s, assistant, usage, stop);
    ToolTurnOutcome(cfg, counted, assistant, call, s.turn, a);
    FinishKeepsUsage(cfg, RecordResults(started, |assistant.toolCalls|, a.tools.results, a.tools.childUsage), assistant, a.tools.results, a);
    if a.tools.ToolsRan? && Add(started.usage, a.tools.childUsage).total < MAX_INT {
      FinishToolsSound(cfg, started, CallsOf(s), assistant, s.turn, a);
    }
  }

  /* ---------- passes and runs ---------- */

  lemma AnswerTurnUsage(cfg: Config, s: State, assistant: Message, call: ModelCall, a: Answers)
    ensures AnswerTurn(cfg, s, assistant, call, a).outcome.s.usage == s.usage
  {
    hide ValidContinuation, ConsecutivePauses, RecoveryCount;
  }

  lemma ReplyGrows(cfg: Config, s: State, assistant: Message, usage: Usage, stop: StopReason, a: Answers)
    requires Consistent(s.usage)
    ensures var r := Reply(cfg, s, assistant, usage, stop, a).outcome;
      Consistent(r.s.usage) && Add(s.usage, usage).total <= r.s.usage.total
  {
    var counted, call := s.(turn := s.turn + 1, usage := Add(s.usage, usage)), ModelCall(usage, stop);
    AddGrows(s.usage, usage);
    AddGrows(counted.usage, a.tools.childUsage);
    ToolTurnUsage(cfg, counted, assistant, call, s.turn, a);
    AnswerTurnUsage(cfg, counted, assistant, call, a);
  }

  /** Usage only grows within a pass. */
  lemma ActGrows(cfg: Config, s: State, a: Answers)
    requires Consistent(s.usage)
    ensures var (asked, answer) := Ask(cfg, s, a);
      var r := Act(cfg, s, a).outcome;
      && Consistent(r.s.usage)
      && s.usage.total <= asked.usage.total <= r.s.usage.total
      && (answer.Replied? ==> Add(asked.usage, answer.usage).total <= r.s.usage.total)
  {
    AskGrows(cfg, s, a);
    var (asked, answer) := Ask(cfg, s, a);
    hide Ask, Add, Consistent, Reply;
    match answer
    case Replied(assistant, usage, stop) =>
      AddGrows(asked.usage, usage);
      ReplyGrows(cfg, asked, assistant, usage, stop, a);
    case Interrupted(assistant, usage, stop) => AddGrows(asked.usage, usage);
    case Broken(assistant, usage, stop) => AddGrows(asked.usage, usage);
    case _ =>
  }

  lemma ReplySound(cfg: Config, s: State, assistant: Message, usage: Usage, stop: StopReason, a: Answers)
    requires Good(s) && AnswerOk(Replied(assistant, usage, stop)) && ToolsOk(Replied(assistant, usage, stop), a.tools)
    requires assistant.toolCalls == [] && !stop.Pause? ==>
      VerdictFits(s.messages, CallsOf(s), |s.steps| + 1, s.turn + 1, assistant, a)
    requires Add(s.usage, usage).total < MAX_INT && Unsaturated(Reply(cfg, s, assistant, usage, stop, a).outcome.s)
    ensures var r := Reply(cfg, s, assistant, usage, stop, a).outcome;
      && (r.Running? ==> Good(r.s))
      && !(r.Stopped? && r.reason.BoundaryRejected?)
  {
    hide Good, Add, Consistent, AnswerOk, ToolsOk, VerdictFits, CallsOf, ToolTurn, PauseTurn, AnswerTurn;
    ReplyFacts(assistant, usage, stop);
    if assistant.toolCalls != [] {
      ToolSound(cfg, s, assistant, usage, stop, a);
    } else if stop.Pause? {
      AnswerTurnPauses(cfg, s.(turn := s.turn + 1, usage := Add(s.usage, usage)), assistant, usage, a);
      PauseSound(cfg, s, assistant, usage, a.steer);
    } else {
      AnswerSound(cfg, s, assistant, usage, stop, a);
    }
  }

  lemma AnswerTurnPauses(cfg: Config, s: State, assistant: Message, usage: Usage, a: Answers)
    ensures AnswerTurn(cfg, s, assistant, ModelCall(usage, Pause), a) == PauseTurn(cfg, s, assistant, ModelCall(usage, Pause), a.steer)
  {
    hide PauseTurn, ValidContinuation, Settle;
  }

  lemma ReplyFacts(assistant: Message, usage: Usage, stop: StopReason)
    requires AnswerOk(Replied(assistant, usage, stop))
    ensures assistant.role.Assistant? && Consistent(usage)
  {
  }

  lemma ReplyFitsMeans(cfg: Config, s: State, a: Answers)
    requires ReplyFits(cfg, s, a)
    ensures var (asked, answer) := Ask(cfg, s, a);
      answer.Replied? && answer.assistant.toolCalls == [] && !answer.stop.Pause? ==>
        VerdictFits(asked.messages, CallsOf(asked), |asked.steps| + 1, asked.turn + 1, answer.assistant, a)
  {
    hide Ask, VerdictFits, CallsOf;
  }

  lemma ActSound(cfg: Config, s: State, a: Answers)
    requires Good(s) && AnswersOk(a) && ReplyFits(cfg, s, a) && Unsaturated(Act(cfg, s, a).outcome.s)
    requires a.first.Overflowed? && OverflowCompactor(cfg).Some? ==>
      CompactorOk(s, OverflowCompactor(cfg).value, Max(1, cfg.contextTarget * 3 / 4), |a.inputs|)
    ensures var r := Act(cfg, s, a).outcome;
      && (r.Running? ==> Good(r.s))
      && !(r.Stopped? && r.reason.BoundaryRejected?)
  {
    hide Good, CompactorOk, Ask, AnswersOk, Add, Consistent, VerdictFits, CallsOf, ReplyFits, Reply, ToolsOk, RecordInterrupted, RecordBroken;
    UsageConsistent(s);
    ActGrows(cfg, s, a);
    AskSound(cfg, s, a);
    ReplyFitsMeans(cfg, s, a);
    var (asked, answer) := Ask(cfg, s, a);
    match answer
    case Replied(assistant, usage, stop) => ReplySound(cfg, asked, assistant, usage, stop, a);
    case Interrupted(assistant, usage, stop) => InterruptedSound(asked, assistant, usage, stop);
    case InterruptedUnopened => UnopenedSound(asked);
    case _ =>
  }

  lemma OpenGrows(cfg: Config, s: State, inputs: seq<Message>)
    requires Consistent(s.usage)
    ensures var r := Open(cfg, s, inputs).outcome; Consistent(r.s.usage) && s.usage.total <= r.s.usage.total
  {
    hide Compress, Consistent, ValidContinuation;
    var admitted := Admit(s, inputs);
    if CompactionFor(cfg, admitted).Some? {
      CompressGrows(admitted, CompactionFor(cfg, admitted).value, cfg.contextTarget, |inputs|);
    }
  }

  /** One pass keeps the invariant and is never stopped by its own boundary check. */
  lemma OnePassSound(cfg: Config, s: State, a: Answers)
    requires Good(s) && PassOk(cfg, s, a) && Unsaturated(OnePass(cfg, s, a).outcome.s)
    ensures var r := OnePass(cfg, s, a).outcome;
      && (r.Running? ==> Good(r.s))
      && !(r.Stopped? && r.reason.BoundaryRejected?)
  {
    UsageConsistent(s);
    OpenGrows(cfg, s, a.inputs);
    hide Good, Open, Act, AnswersOk, Consistent, CompactorOk, ReplyFits;
    var ready := Open(cfg, s, a.inputs).outcome;
    if ready.Running? {
      ActGrows(cfg, ready.s, a);
    }
    OpenSound(cfg, s, a);
    if ready.Running? {
      ActSound(cfg, ready.s, a);
    }
  }

  lemma OnePassGrows(cfg: Config, s: State, a: Answers)
    requires Consistent(s.usage)
    ensures var r := OnePass(cfg, s, a).outcome; Consistent(r.s.usage) && s.usage.total <= r.s.usage.total
  {
    hide Open, Act, Consistent;
    OpenGrows(cfg, s, a.inputs);
    var ready := Open(cfg, s, a.inputs).outcome;
    if ready.Running? {
      ActGrows(cfg, ready.s, a);
    }
  }

  lemma {:induction false} RunGrows(cfg: Config, s: State, script: seq<Answers>)
    requires Consistent(s.usage)
    ensures s.usage.total <= Run(cfg, s, script).outcome.s.usage.total
    decreases |script|
  {
    hide OnePass, Consistent;
    if IterationAllowed(cfg, |s.steps|) && script != [] {
      OnePassGrows(cfg, s, script[0]);
      var pass := OnePass(cfg, s, script[0]);
      if pass.outcome.Running? {
        RunGrows(cfg, pass.outcome.s, script[1..]);
      }
    }
  }

  /** Over every run, every continuation handed to the boundary observers is valid and the
      run is never stopped because one is not; between passes the invariant holds. */
  lemma {:induction false} RunSound(cfg: Config, s: State, script: seq<Answers>)
    requires Good(s) && ScriptOk(cfg, s, script) && Unsaturated(Run(cfg, s, script).outcome.s)
    ensures var r := Run(cfg, s, script);
      && (r.outcome.Running? ==> Good(r.outcome.s))
      && !(r.outcome.Stopped? && r.outcome.reason.BoundaryRejected?)
      && forall c | c in r.observed :: ValidContinuation(c)
    decreases |script|
  {
    hide Good, OnePass, PassOk, ValidContinuation;
    if IterationAllowed(cfg, |s.steps|) && script != [] {
      UsageConsistent(s);
      OnePassGrows(cfg, s, script[0]);
      var pass := OnePass(cfg, s, script[0]);
      ObservedValid(cfg, s, script[0]);
      if pass.outcome.Running? {
        RunGrows(cfg, pass.outcome.s, script[1..]);
        OnePassSound(cfg, s, script[0]);
        RunSound(cfg, pass.outcome.s, script[1..]);
      } else {
        OnePassSound(cfg, s, script[0]);
      }
    }
  }

  lemma ObservedValid(cfg: Config, s: State, a: Answers)
    ensures forall c | c in OnePass(cfg, s, a).observed :: ValidContinuation(c)
  {
    hide ValidContinuation, Compress, ConsecutivePauses, Ask, TerminalSucceeded, PreDispatchBlock, Settle, RecordResults, RecordInterrupted, RecordBroken;
  }

  /** A new run starts from a good state: any settled history, no steps, nothing spent. */
  lemma EnterGood(messages: seq<Message>, turn: nat)
    requires Analyze(messages).Some? && Analyze(messages).value.unanswered == []
    ensures Good(Enter(State(messages, [], ZERO, ZERO, 0, turn)))
  {
    hide ScanAll;
    AddZero(ZERO);
  }

  /** Good states resume: re-entering the loop recomputes the same operation turn. */
  lemma EnterKeeps(s: State)
    requires Good(s)
    ensures Enter(s) == s
  {
  }

  /** Every tool turn numbers its calls with a turn no call of the transcript carries. */
  lemma OperationTurnIsFresh(s: State, m: Message, c: ToolCall)
    requires Good(s) && m in s.messages && c in m.toolCalls
    ensures TurnOf(c) < s.turn
  {
    assert forall m, c | m in s.messages && c in m.toolCalls :: TurnOf(c) < NextToolTurn(s.messages);
  }
}
