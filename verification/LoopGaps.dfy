/**
 Where the loop's own boundary check stops it: exactly where guardrails, context work or an
 empty answer leave a transcript that does not end in one answer for each step, with that
 step's calls.
 */
module LoopGaps {
  import opened Wrappers
  import opened Messages
  import opened TokenUsage
  import opened Continuations
  import opened AgentLoop
  import opened LoopTranscript
  import opened LoopLedger
  import opened LoopInvariant
  import History

  /* ---------- verdicts on an answer ---------- */

  /** An instruction behind the history decides nothing. */
  lemma KeepsPlainIff(ms: seq<Message>, calls: seq<seq<ToolCall>>, n: nat, turn: int, m: Message)
    requires Plain(m)
    ensures KeepsAnswers(ms + [m], calls, n, turn) <==> KeepsAnswers(ms, calls, n, turn)
  {
    hide ScanAll, Last;
    AnalyzeAppend(ms, m);
  }

  /** Whatever the guardrails made of an answer: where the run goes on, its next boundary is
      valid if and only if the history they left still ends in one answer for each step, with
      that step's calls. */
  lemma VerdictContinuesIff(cfg: Config, s: State, base: seq<Message>, calls: seq<seq<ToolCall>>, assistant: Message, stop: StopReason, a: Answers)
    requires s.steps != [] && Balanced(s, calls + [[]]) && Settle(cfg, s, base, assistant, stop, a).Running?
    ensures var r, left := Settle(cfg, s, base, assistant, stop, a), JudgedHistory(base, assistant, a);
      left.Some? && (ValidContinuation(Snapshot(r.s, Ready)) <==> KeepsAnswers(left.value, calls + [[]], |s.steps|, s.turn))
  {
    hide Balanced, KeepsAnswers, ValidContinuation, RecoveryCount, Retried, AppendFinal;
    var r := Settle(cfg, s, base, assistant, stop, a);
    SettleStep(cfg, s, base, assistant, stop, a);
    AmendLast(s, calls + [[]], LastStep(r.s));
    var amended := s.(steps := r.s.steps);
    ReadyValidIff(amended, calls + [[]], r.s.messages);
    if a.verdict.Accept? && a.verdict.output.recovery != "" {
      KeepsPlainIff(JudgedHistory(base, assistant, a).value, calls + [[]], |s.steps|, s.turn, NewText(User, cfg.correction(a.verdict.output.recovery)));
    }
  }

  /** A granted guardrail retry, with any replacement context. */
  lemma RetryContinuesIff(cfg: Config, s: State, base: seq<Message>, calls: seq<seq<ToolCall>>, assistant: Message, stop: StopReason, a: Answers)
    requires s.steps != [] && Balanced(s, calls + [[]])
    requires a.verdict.Retry? && a.verdict.messages != [] && IterationAllowed(cfg, |s.steps|)
    ensures var r := Settle(cfg, s, base, assistant, stop, a);
      r.Running? &&
      (ValidContinuation(Snapshot(r.s, Ready)) <==> KeepsAnswers(Retried(base, assistant, a.verdict), calls + [[]], |s.steps|, s.turn))
  {
    hide Balanced, KeepsAnswers, ValidContinuation, Retried;
    VerdictContinuesIff(cfg, s, base, calls, assistant, stop, a);
  }

  /* ---------- an answer that is missing ---------- */

  /** The last n assistant messages exist and made no tool calls. */
  predicate Silent(calls: seq<seq<ToolCall>>, n: nat) {
    n <= |calls| && forall i :: 0 <= i < n ==> Last(calls, n)[i] == []
  }

  lemma {:induction false} ShiftedIsSilent(own: seq<seq<ToolCall>>, i: nat)
    requires i < |own| && own == own[1..] + [[]]
    ensures own[i] == []
    decreases |own| - i
  {
    if i + 1 < |own| {
      ShiftedIsSilent(own, i + 1);
      assert own[i] == (own[1..] + [[]])[i] == own[i + 1];
    } else {
      assert own[i] == (own[1..] + [[]])[i];
    }
  }

  /** Turns shifted back by one are the same turns exactly when none of them made a call. */
  lemma ShiftIff(calls: seq<seq<ToolCall>>, n: nat)
    requires 0 < n <= |calls|
    ensures Last(calls + [[]], n) == Last(calls, n) <==> Silent(calls, n)
  {
    var own, shifted := Last(calls, n), Last(calls + [[]], n);
    assert shifted == own[1..] + [[]];
    if shifted == own {
      forall i | 0 <= i < n ensures own[i] == [] {
        ShiftedIsSilent(own, i);
      }
    }
  }

  /** The last step's answer is missing: the ledger fits the older answers exactly when all
      the turns it is then matched with are silent. */
  lemma MissingAnswerIff(s: State, calls: seq<seq<ToolCall>>)
    requires s.steps != [] && Balanced(s, calls + [[]]) && |s.steps| <= |calls|
    ensures LedgerValid(s.steps, Last(calls, |s.steps|), s.turn - |s.steps|, -1) <==> Silent(calls, |s.steps|)
  {
    hide LedgerValid, BalancedWith, Silent, SameTurns, Last;
    var n := |s.steps|;
    BalancedLedger(s, calls + [[]], -1);
    LedgerFitsIff(s.steps, Last(calls + [[]], n), Last(calls, n), s.turn - n, -1);
    SameTurnsIff(Last(calls + [[]], n), Last(calls, n), s.turn - n);
    ShiftIff(calls, n);
  }

  /** A state whose last answer is missing is valid when its phase is, the answers left are
      enough, and they are silent. */
  lemma MissingAnswerValidIff(s: State, c: Continuation)
    requires Carries(c, s) && !c.phase.ModelComplete? && s.steps != []
    requires Analyze(c.messages).Some? && NextToolTurn(c.messages) <= c.nextTurn
    requires Balanced(s, Analyze(c.messages).value.calls + [[]])
    ensures ValidContinuation(c) <==>
      && Silent(Analyze(c.messages).value.calls, |s.steps|)
      && PhaseMatchesTranscript(c, Analyze(c.messages).value) && PhaseMatchesSteps(c)
  {
    hide ScanAll, NextToolTurn, BalancedWith, Silent, SameTurns, Last, ValidContinuation, PhaseMatchesTranscript, PhaseMatchesSteps;
    var calls, n := Analyze(c.messages).value.calls, |s.steps|;
    TurnsBelow(c.messages, c.nextTurn);
    SilentFits(calls, n);
    BalancedLedger(s, calls + [[]], -1);
    TranscriptValidIff(s, calls + [[]], c);
    if n <= |calls| {
      SameTurnsIff(Last(calls + [[]], n), Last(calls, n), s.turn - n);
      ShiftIff(calls, n);
    }
  }

  lemma SilentFits(calls: seq<seq<ToolCall>>, n: nat)
    ensures Silent(calls, n) ==> n <= |calls|
  {
  }

  /** So a retry whose context holds instructions only goes on exactly when the rejected
      answer was kept in the transcript, or when every step of the run can be matched with an
      older answer that, like all of them, made no calls. */
  lemma InstructedRetryIff(cfg: Config, s: State, base: seq<Message>, assistant: Message, stop: StopReason, a: Answers)
    requires s.steps != [] && a.verdict.Retry? && a.verdict.messages != [] && IterationAllowed(cfg, |s.steps|)
    requires forall m | m in a.verdict.replacement + a.verdict.messages :: Plain(m)
    requires assistant.role.Assistant? && assistant.toolCalls == []
    requires Analyze(base).Some? && Settled(base, Analyze(base).value.calls, s.turn)
    requires Balanced(s, Analyze(base).value.calls + [[]])
    ensures var r, kept := Settle(cfg, s, base, assistant, stop, a), a.verdict.includeRejected && (assistant.text != "" || assistant.thinking != "");
      r.Running? && (ValidContinuation(Snapshot(r.s, Ready)) <==> kept || Silent(Analyze(base).value.calls, |s.steps|))
  {
    hide Settled, BalancedWith, Plain, ValidContinuation, ScanAll, Silent, KeepsAnswers, Settle;
    var calls, more, n := Analyze(base).value.calls, a.verdict.replacement + a.verdict.messages, |s.steps|;
    RetryContinuesIff(cfg, s, base, calls, assistant, stop, a);
    BalancedLedger(s, calls + [[]], -1);
    if a.verdict.includeRejected && (assistant.text != "" || assistant.thinking != "") {
      AppendAnswer(base, calls, s.turn, assistant);
      AppendPlain(base + [assistant], calls + [[]], s.turn, more);
      assert base + [assistant] + more == Retried(base, assistant, a.verdict);
      SettledAligned(base + [assistant] + more, calls + [[]], n, s.turn);
    } else {
      AppendPlain(base, calls, s.turn, more);
      assert base + more == Retried(base, assistant, a.verdict);
      MissingKeepsIff(base + more, calls, n, s.turn);
    }
  }

  lemma MissingKeepsIff(ms: seq<Message>, calls: seq<seq<ToolCall>>, n: nat, turn: int)
    requires Settled(ms, calls, turn) && 0 < n <= |calls| + 1
    ensures KeepsAnswers(ms, calls + [[]], n, turn) <==> Silent(calls, n)
  {
    hide ScanAll, NextToolTurn, Silent, Last;
    TurnsBelow(ms, turn);
    SilentFits(calls, n);
    if n <= |calls| {
      ShiftIff(calls, n);
    }
  }

  lemma GoodMeans(s: State)
    requires Good(s)
    ensures Analyze(s.messages).Some? && CallsOf(s) == Analyze(s.messages).value.calls
    ensures Analyze(s.messages).value.unanswered == [] && NextToolTurn(s.messages) <= s.turn
    ensures Settled(s.messages, CallsOf(s), s.turn)
    ensures Balanced(s, CallsOf(s)) && Continuing(s) && |s.steps| <= |CallsOf(s)|
  {
    hide ScanAll, NextToolTurn;
  }

  predicate EndsInAnswer(ms: seq<Message>) {
    ms != [] && ms[|ms| - 1].role.Assistant? && ms[|ms| - 1].toolCalls == []
  }

  /** A final answer is stopped at its boundary exactly when it is empty, so that it leaves
      no message, and no older silent answers stand in for it and all the steps before it. */
  lemma AnswerRejectedIff(cfg: Config, s: State, assistant: Message, usage: Usage, stop: StopReason, a: Answers)
    requires Good(s)
    requires assistant.role.Assistant? && assistant.toolCalls == [] && Consistent(usage) && !stop.Pause?
    requires Add(s.usage, usage).total < MAX_INT
    ensures var counted := s.(turn := s.turn + 1, usage := Add(s.usage, usage));
      var r := AnswerTurn(cfg, counted, assistant, ModelCall(usage, stop), a).outcome;
      (r.Stopped? && r.reason.BoundaryRejected?) <==>
        && assistant.text == "" && assistant.thinking == ""
        && !(EndsInAnswer(s.messages) && Silent(CallsOf(s), |s.steps| + 1))
  {
    hide Good, Add, Consistent, ValidContinuation, Settle, ScanAll, Silent, Settled, BalancedWith;
    var counted, call := s.(turn := s.turn + 1, usage := Add(s.usage, usage)), ModelCall(usage, stop);
    var step := NewStep(counted, call, Finish);
    var next := counted.(messages := AppendFinal(s.messages, assistant), steps := s.steps + [step]);
    SettleIsNoBoundary(cfg, next, s.messages, assistant, stop, a);
    if assistant.text != "" || assistant.thinking != "" {
      RecordAnswer(s, step, usage, assistant, next);
      AnswerBoundary(next, CallsOf(next), assistant);
    } else {
      GoodMeans(s);
      RecordTurn(s, CallsOf(s), step, usage, [], next);
      MissingAnswerValidIff(next, Snapshot(next, ValidatingOutput));
    }
  }

  lemma SettleIsNoBoundary(cfg: Config, s: State, base: seq<Message>, assistant: Message, stop: StopReason, a: Answers)
    requires s.steps != []
    ensures var r := Settle(cfg, s, base, assistant, stop, a); !(r.Stopped? && r.reason.BoundaryRejected?)
  {
  }

  /* ---------- context work ---------- */

  /** After context work of any kind, the ready boundary is valid if and only if what the work
      spent fits the ledger and the history it returned keeps the answers of all steps. */
  lemma CompactionBoundaryIff(s: State, summary: Usage, messages: seq<Message>)
    requires Good(s) && Consistent(summary) && Add(s.usage, summary).total < MAX_INT
    ensures ValidContinuation(Snapshot(AccountContext(s, summary).(messages := messages), Ready)) <==>
      ContextWorkFits(s, CallsOf(s), summary) && KeepsAnswers(messages, CallsOf(s), |s.steps|, s.turn)
  {
    hide Good, Consistent, ValidContinuation, ContextWorkFits, KeepsAnswers,
      AccountContext, Add, StepValid, BalancedWith, ScanAll, Last, ModelUsage, NextToolTurn;
    var calls := CallsOf(s);
    var accounted := AccountContext(s, summary);
    GoodMeans(s);
    AccountShape(s, summary);
    if ContextWorkFits(s, calls, summary) {
      AccountContextIff(s, calls, summary);
      ReadyValidIff(accounted, calls, messages);
    } else {
      UnfitHasSteps(s, calls, summary);
      AccountedEntryIff(s, calls, summary);
      BalancedLedger(s, calls, -1);
      LedgerBreaks(s, accounted.(messages := messages), calls);
    }
  }

  /** So for work that archives, exactly when its cost fits. */
  lemma ContextBoundaryIff(s: State, summary: Usage, messages: seq<Message>)
    requires Good(s) && Consistent(summary) && Add(s.usage, summary).total < MAX_INT
    requires History.CompleteTurns(s.messages) && History.ArchivesTo(s.messages, messages)
    ensures ValidContinuation(Snapshot(AccountContext(s, summary).(messages := messages), Ready)) <==>
      ContextWorkFits(s, CallsOf(s), summary)
  {
    hide Good, Consistent, ValidContinuation, History.ArchivesTo, History.CompleteTurns, ContextWorkFits,
      AccountContext, Add, Balanced, ScanAll, Last, NextToolTurn, CallsOf, Settled;
    GoodMeans(s);
    ArchiveKeepsSettled(s.messages, messages, CallsOf(s), s.turn);
    SettledAligned(messages, CallsOf(s), |s.steps|, s.turn);
    CompactionBoundaryIff(s, summary, messages);
  }

  lemma UnfitHasSteps(s: State, calls: seq<seq<ToolCall>>, summary: Usage)
    requires !ContextWorkFits(s, calls, summary)
    ensures s.steps != []
  {
  }

  /** A last step that does not fit its turn makes the boundary invalid. */
  lemma LedgerBreaks(s: State, next: State, calls: seq<seq<ToolCall>>)
    requires s.steps != [] && |s.steps| <= |calls| && |next.steps| == |s.steps| && next.turn == s.turn
    requires LedgerValid(s.steps, Last(calls, |s.steps|), s.turn - |s.steps|, -1)
    requires next.steps == MapLast(s.steps, LastStep(next)) && LastStep(next).traces == LastStep(s).traces
    requires !StepValid(next.steps, Last(calls, |s.steps|), s.turn - |s.steps|, -1, |s.steps| - 1)
    ensures !ValidContinuation(Snapshot(next, Ready))
  {
    hide ValidContinuation, ScanAll, StepValid, Last;
    LedgerOfValid(Snapshot(next, Ready));
    if ValidContinuation(Snapshot(next, Ready)) {
      SameTracesSameTurns(s.steps, next.steps, Last(calls, |s.steps|), Last(Analyze(next.messages).value.calls, |s.steps|), s.turn - |s.steps|);
    }
  }
}
