/**
 What the validator accepts, phase by phase: exactly the continuations whose last turn came
 on top of a state with the loop's invariant.
 */
module LoopBoundaries {
  import opened Wrappers
  import opened Messages
  import opened TokenUsage
  import opened Continuations
  import opened AgentLoop
  import opened LoopTranscript
  import opened LoopLedger
  import opened LoopInvariant
  import LoopResume

  /* ---------- the ready boundary ---------- */

  /** The context usage the validator only bounds from below by the last step's. */
  predicate ContextAgrees(s: State) {
    if s.steps == [] then s.usage == s.context else LastStep(s).context == s.context
  }

  /** For every state: the ready boundary is valid exactly when the invariant holds, given
      sound totals and an operation turn past all calls in the transcript. */
  lemma ReadyIff(s: State)
    ensures Good(s) <==>
      && ValidContinuation(Snapshot(s, Ready)) && ContextAgrees(s)
      && Consistent(s.usage) && Consistent(s.context) && s.usage.total < MAX_INT && NextToolTurn(s.messages) <= s.turn
  {
    hide ScanAll, LedgerValid, CallsDone, ModelUsage, Add, NextToolTurn, Last;
    if Good(s) {
      GoodIsValid(s);
    }
  }

  /** A context total ahead of what any step recorded is accepted all the same. */
  lemma ContextAheadAccepted()
    ensures var context := Usage(0, 0, false, 0, false, 0, 0, 1);
      var s := State([], [], Usage(1, 0, false, 0, false, 0, 0, 1), context, 0, 0);
      ValidContinuation(Snapshot(s, Ready)) && !Good(s)
  {
    AddZero(Usage(0, 0, false, 0, false, 0, 0, 1));
  }

  /* ---------- versions and steps ---------- */

  /** Of the versions, 2 is accepted, and 1 exactly where nothing of version 2 is used; an
      invalid request never is. */
  lemma VersionsAccepted(c: Continuation, version: int)
    requires c.version == SCHEMA_VERSION
    ensures ValidContinuation(c.(version := version)) <==>
      && ValidContinuation(c)
      && (version == 2 || (version == 1 && !c.needsVersion2 && c.context == ZERO
            && forall i :: 0 <= i < |c.steps| ==> c.steps[i].context == ZERO))
    ensures ValidContinuation(c) ==> c.requestValid
  {
    hide LedgerValid, CallsDone, ModelUsage, Add, ScanAll;
    var d := c.(version := version);
    assert Analyze(c.messages).Some? ==>
      && PhaseMatchesTranscript(c, Analyze(c.messages).value) == PhaseMatchesTranscript(d, Analyze(c.messages).value)
      && StepsValid(c, Analyze(c.messages).value.calls) == StepsValid(d, Analyze(c.messages).value.calls);
    assert VersionValid(d) <==>
      (version == 2 || (version == 1 && !c.needsVersion2 && c.context == ZERO
         && forall i :: 0 <= i < |c.steps| ==> c.steps[i].context == ZERO)) by {
      assert forall step | step in c.steps :: exists i :: 0 <= i < |c.steps| && c.steps[i] == step;
    }
  }

  /** Every phase but the ready one needs a step to belong to, and there is no fifth phase. */
  lemma NeedsStep(c: Continuation)
    requires ValidContinuation(c)
    ensures c.steps == [] ==> c.phase.Ready?
    ensures !c.phase.UnknownPhase?
  {
    hide LedgerValid, CallsDone, ModelUsage, Add, ScanAll;
  }

  /** Counts that can have come from a provider. */
  predicate Sane(u: Usage) {
    && 0 <= u.cached <= u.input && 0 <= u.cacheWrite <= u.input && 0 <= u.reasoning <= u.output
    && u.input + u.output <= u.total
  }

  predicate NoLess(later: Usage, earlier: Usage) {
    && later.input >= earlier.input && later.cached >= earlier.cached && later.cacheWrite >= earlier.cacheWrite
    && later.output >= earlier.output && later.reasoning >= earlier.reasoning && later.total >= earlier.total
    && (earlier.cachedReported ==> later.cachedReported) && (earlier.cacheWriteReported ==> later.cacheWriteReported)
  }

  /** What every accepted continuation has in common, whatever its phase: sane counts, steps
      in order that went on up to the last, with context usage that only grows, tool calls
      counted from the start, and operation turns left for no step to reuse. */
  lemma ValidMeans(c: Continuation, i: nat)
    requires ValidContinuation(c) && i < |c.steps|
    ensures var step := c.steps[i];
      && Sane(c.usage) && Sane(c.context) && 0 <= c.toolCallsUsed && |c.steps| <= c.nextTurn
      && step.index == i && step.call.Some? && Sane(step.call.value.usage) && Sane(step.context)
      && 0 <= step.tokens && 0 <= step.toolCalls <= c.toolCallsUsed
      && (i + 1 < |c.steps| ==>
            && step.decision == Continue && NoLess(c.steps[i + 1].context, step.context)
            && c.steps[i + 1].call.Some?
            && c.steps[i + 1].tokens >= step.tokens + c.steps[i + 1].call.value.usage.total)
      && (i + 1 == |c.steps| ==> NoLess(c.context, step.context) && c.usage.total == step.tokens)
  {
    hide ScanAll, ModelUsage, Add, TracesMatch, Numbered, LedgerValid, CallsDone;
    LedgerOfValid(c);
    var n, calls := |c.steps|, Last(Analyze(c.messages).value.calls, |c.steps|);
    StepOf(c.steps, calls, c.nextTurn - n, PendingStep(c), i);
    CallsGrow(calls, PendingStep(c), i + 1, n);
    if i + 1 < n {
      StepOf(c.steps, calls, c.nextTurn - n, PendingStep(c), i + 1);
    }
  }

  lemma StepOf(steps: seq<Step>, calls: seq<seq<ToolCall>>, first: int, pending: int, i: nat)
    requires |calls| == |steps| && LedgerValid(steps, calls, first, pending) && i < |steps|
    ensures StepValid(steps, calls, first, pending, i)
  {
    hide StepValid;
  }

  lemma {:induction false} CallsGrow(calls: seq<seq<ToolCall>>, pending: int, i: nat, k: nat)
    requires i <= k <= |calls|
    ensures CallsDone(calls, pending, i) <= CallsDone(calls, pending, k)
    decreases k - i
  {
    if i < k {
      CallsGrow(calls, pending, i, k - 1);
    }
  }

  /* ---------- one step on top of a ledger ---------- */

  /** The totals of a state agree with its steps. */
  predicate Booked(b: State) {
    && Consistent(b.usage) && Consistent(b.context) && b.usage.total < MAX_INT
    && Contains(b.usage, Add(ModelUsage(b.steps, |b.steps|), b.context))
    && (b.steps != [] ==> LastStep(b).tokens == b.usage.total) && ContextAgrees(b)
    && NextToolTurn(b.messages) <= b.turn
  }

  /** One step and the messages `ms` on top of `base`. */
  predicate OnTop(base: State, s: State, ms: seq<Message>, step: Step) {
    && Booked(base)
    && s.messages == base.messages + ms && s.steps == base.steps + [step]
    && s.context == base.context == step.context && s.turn == base.turn + 1
    && step.call.Some? && Consistent(step.call.value.usage) && Consistent(s.usage) && s.usage.total < MAX_INT
  }

  /** What the totals behind the step must cover. */
  predicate Covers(base: State, s: State, step: Step)
    requires step.call.Some?
  {
    Contains(s.usage, Add(Add(ModelUsage(base.steps, |base.steps|), step.call.value.usage), s.context))
  }

  lemma LedgerSplits(steps: seq<Step>, calls: seq<seq<ToolCall>>, first: int, step: Step, newCalls: seq<ToolCall>, pending: int)
    requires |calls| == |steps| && (pending == -1 || pending == |steps|)
    ensures LedgerValid(steps + [step], calls + [newCalls], first, pending) <==>
      && LedgerValid(steps, calls, first, -1)
      && (steps != [] ==> steps[|steps| - 1].decision == Continue)
      && StepValid(steps + [step], calls + [newCalls], first, pending, |steps|)
  {
    hide StepValid;
    var all, allCalls := steps + [step], calls + [newCalls];
    if LedgerValid(all, allCalls, first, pending) {
      forall i | 0 <= i < |steps| ensures StepValid(steps, calls, first, -1, i) && steps[i].decision == Continue {
        EarlierContinues(all, allCalls, first, pending, i);
        EntryStable(all, steps, allCalls, calls, first, pending, -1, i);
      }
    }
    if LedgerValid(steps, calls, first, -1) && (steps != [] ==> steps[|steps| - 1].decision == Continue)
      && StepValid(all, allCalls, first, pending, |steps|) {
      ExtendLedger(steps, calls, first, step, newCalls, pending);
    }
  }

  lemma EarlierContinues(steps: seq<Step>, calls: seq<seq<ToolCall>>, first: int, pending: int, i: nat)
    requires |calls| == |steps| && i + 1 < |steps| && StepValid(steps, calls, first, pending, i)
    ensures steps[i].decision == Continue
  {
    hide TracesMatch, Numbered, CallsDone, TokensBalance;
  }

  /** The least token snapshot of a step on top is what was booked before and its own work. */
  lemma TopMinimum(base: State, step: Step)
    requires Booked(base) && step.call.Some? && Consistent(step.call.value.usage) && step.context == base.context
    ensures var minimum := MinimumTokens(base.steps + [step], |base.steps|);
      var spent := base.usage.total + step.call.value.usage.total;
      minimum == spent || minimum == MAX_INT < spent
  {
    hide Add, ModelUsage, NextToolTurn;
    var n, u := |base.steps|, step.call.value.usage;
    UsageSnoc(base.steps, step);
    AddTotal(base.usage, u);
    AddModelUsage(base, u);
    if n == 0 {
      NothingUsed(base.steps);
      AddZero(u);
      AddCommutative(base.context, u);
    } else {
      assert (base.steps + [step])[n - 1] == LastStep(base);
    }
  }

  lemma NothingUsed(steps: seq<Step>)
    ensures ModelUsage(steps, 0) == ZERO
  {
  }

  /** What a step on top must record; `ran` tells whether its tools have run. */
  predicate Records(base: State, step: Step, calls: seq<ToolCall>, ran: bool)
    requires step.call.Some?
  {
    var spent := base.usage.total + step.call.value.usage.total;
    && step.index == |base.steps|
    && (forall k :: 0 <= k < |calls| ==> calls[k].operation == Operation(base.turn, k))
    && (if ran then TracesMatch(step.traces, calls) else step.traces == [] && step.decision == Continue)
    && step.toolCalls == base.toolCallsUsed + (if ran then |calls| else 0)
    && (if ran && calls != [] then step.tokens >= spent else step.tokens == spent)
  }

  lemma TopEntryIff(base: State, calls: seq<seq<ToolCall>>, s: State, step: Step, newCalls: seq<ToolCall>, ran: bool)
    requires Booked(base) && |base.steps| <= |calls|
    requires step.call.Some? && Consistent(step.call.value.usage) && step.context == base.context && step.tokens < MAX_INT
    requires base.toolCallsUsed == CallsDone(Last(calls, |base.steps|), -1, |base.steps|)
    ensures var n := |base.steps|;
      StepValid(base.steps + [step], Last(calls, n) + [newCalls], base.turn - n, if ran then -1 else n, n)
      <==> Records(base, step, newCalls, ran)
  {
    hide Add, ModelUsage, NextToolTurn, Last, CallsDone, MinimumTokens, TracesMatch;
    var n := |base.steps|;
    var pending := if ran then -1 else n;
    TopMinimum(base, step);
    TopCalls(Last(calls, n), newCalls, pending);
    TopFacts(base, step);
    assert (base.steps + [step])[n] == step;
    assert Numbered(newCalls, base.turn - n + n) <==> forall k :: 0 <= k < |newCalls| ==> newCalls[k].operation == Operation(base.turn, k);
  }

  lemma TopCalls(calls: seq<seq<ToolCall>>, newCalls: seq<ToolCall>, pending: int)
    requires pending == -1 || pending == |calls|
    ensures CallsDone(calls + [newCalls], pending, |calls| + 1) ==
      CallsDone(calls, -1, |calls|) + (if pending == -1 then |newCalls| else 0)
  {
    CallsPrefix(calls, calls + [newCalls], -1, pending, |calls|);
  }

  lemma TopFacts(base: State, step: Step)
    requires Booked(base) && step.call.Some? && Consistent(step.call.value.usage) && step.context == base.context
    ensures EntryFacts(step, |base.steps|, PreviousContext(base.steps + [step], |base.steps|), true) <==>
      step.index == |base.steps| && 0 <= step.tokens && 0 <= step.toolCalls && step.call.value.usage.input + step.call.value.usage.output <= step.call.value.usage.total
  {
    hide Add, ModelUsage, NextToolTurn;
    BookedContext(base);
    if base.steps != [] {
      assert (base.steps + [step])[|base.steps| - 1] == LastStep(base);
    }
  }

  lemma BookedContext(base: State)
    requires Booked(base)
    ensures ValidUsage(base.context)
  {
    hide NextToolTurn;
    AddClosed(ModelUsage(base.steps, |base.steps|), base.context);
    NormalizedIffConsistent(base.context);
    UnsaturatedIsValid(base.context);
  }

  /* ---------- a boundary on top of a state ---------- */

  /** The steps of a state fit the last of `calls`, and its run goes on. */
  predicate Accounted(b: State, calls: seq<seq<ToolCall>>) {
    var n := |b.steps|;
    && n <= |calls| && n <= b.turn && Continuing(b)
    && LedgerValid(b.steps, Last(calls, n), b.turn - n, -1)
    && b.toolCallsUsed == CallsDone(Last(calls, n), -1, n)
  }

  lemma GoodIff(b: State)
    requires Booked(b) && Analyze(b.messages).Some? && Analyze(b.messages).value.unanswered == []
    ensures Good(b) <==> Accounted(b, CallsOf(b))
  {
    hide ScanAll, LedgerValid, CallsDone, ModelUsage, Add, NextToolTurn, Last;
  }

  /** The transcript goes on with one assistant message that makes these calls. */
  predicate Extends(base: State, scan: Option<Scan>, newCalls: seq<ToolCall>) {
    && Analyze(base.messages).Some? && Analyze(base.messages).value.unanswered == []
    && scan.Some? && scan.value.calls == CallsOf(base) + [newCalls]
    && scan.value.lastTurn == Max(Analyze(base.messages).value.lastTurn, LastTurn(newCalls))
  }

  lemma LedgerOnTop(base: State, s: State, ms: seq<Message>, step: Step, calls: seq<seq<ToolCall>>, newCalls: seq<ToolCall>, ran: bool)
    requires OnTop(base, s, ms, step) && step.tokens < MAX_INT
    requires s.toolCallsUsed == base.toolCallsUsed + (if ran then |newCalls| else 0)
    ensures var n := |base.steps|;
      var pending := if ran then -1 else n;
      (&& n + 1 <= s.turn && n + 1 <= |calls + [newCalls]|
       && LedgerValid(s.steps, Last(calls + [newCalls], n + 1), s.turn - (n + 1), pending)
       && s.toolCallsUsed == CallsDone(Last(calls + [newCalls], n + 1), pending, n + 1))
      <==> Accounted(base, calls) && Records(base, step, newCalls, ran)
  {
    hide Booked, Add, ModelUsage, LedgerValid, CallsDone, Records, Last, StepValid;
    var n := |base.steps|;
    var pending := if ran then -1 else n;
    if n <= |calls| {
      LastAppend(calls, newCalls, n);
      LedgerSplits(base.steps, Last(calls, n), base.turn - n, step, newCalls, pending);
      TopCalls(Last(calls, n), newCalls, pending);
      if base.toolCallsUsed == CallsDone(Last(calls, n), -1, n) {
        TopEntryIff(base, calls, s, step, newCalls, ran);
      }
    }
  }

  lemma TotalsOnTop(base: State, s: State, ms: seq<Message>, step: Step)
    requires OnTop(base, s, ms, step)
    ensures Covers(base, s, step) <==> Contains(s.usage, Add(ModelUsage(s.steps, |s.steps|), s.context))
    ensures ValidUsage(s.usage) && ValidUsage(s.context) && Contains(s.context, LastStep(s).context)
    ensures 0 <= s.turn && s.steps[|s.steps| - 1] == step
  {
    hide Booked, Add, ModelUsage, NextToolTurn;
    UsageSnoc(base.steps, step);
    UnsaturatedIsValid(s.usage);
    BookedContext(base);
    BookedTurn(base);
  }

  lemma BookedTurn(base: State)
    requires Booked(base)
    ensures 0 <= base.turn
  {
  }

  lemma TurnsOnTop(base: State, scan: Option<Scan>, newCalls: seq<ToolCall>)
    requires Booked(base) && Extends(base, scan, newCalls)
    requires forall k :: 0 <= k < |newCalls| ==> newCalls[k].operation == Operation(base.turn, k)
    ensures scan.value.lastTurn <= base.turn
  {
    hide ScanAll, NextToolTurn, LastTurn;
    TurnsBelow(base.messages, base.turn);
    BookedTurn(base);
    NumberedLastTurn(newCalls, base.turn);
  }

  /** The step records its turn, and the totals agree with it. */
  predicate Balances(base: State, s: State, step: Step, newCalls: seq<ToolCall>, ran: bool)
    requires step.call.Some?
  {
    Records(base, step, newCalls, ran) && Covers(base, s, step) && step.tokens == s.usage.total
  }

  lemma BoundaryOnTop(base: State, s: State, ms: seq<Message>, step: Step, newCalls: seq<ToolCall>, phase: Phase)
    requires OnTop(base, s, ms, step) && Extends(base, Analyze(s.messages), newCalls)
    requires s.toolCallsUsed == base.toolCallsUsed + (if phase.ModelComplete? then 0 else |newCalls|)
    ensures var c, ran := Snapshot(s, phase), !phase.ModelComplete?;
      ValidContinuation(c) <==>
        && PhaseMatchesTranscript(c, Analyze(c.messages).value) && PhaseMatchesSteps(c)
        && Good(base) && Balances(base, s, step, newCalls, ran)
  {
    hide ScanAll, LedgerValid, CallsDone, ModelUsage, Add, NextToolTurn, Last, LastTurn, Accounted, Covers, ValidUsage, Contains, PhaseMatchesTranscript, PhaseMatchesSteps;
    var c, ran := Snapshot(s, phase), !phase.ModelComplete?;
    TotalsOnTop(base, s, ms, step);
    GoodIff(base);
    if step.tokens == s.usage.total {
      LedgerOnTop(base, s, ms, step, CallsOf(base), newCalls, ran);
      if Accounted(base, CallsOf(base)) {
        CallsCounted(base, CallsOf(base));
      }
      if Records(base, step, newCalls, ran) {
        TurnsOnTop(base, Analyze(s.messages), newCalls);
      }
    }
  }

  lemma CallsCounted(base: State, calls: seq<seq<ToolCall>>)
    requires Accounted(base, calls)
    ensures 0 <= base.toolCallsUsed
  {
  }

  /* ---------- the transcript of the last turn ---------- */

  /** The messages give results to the first of these calls, one by one. */
  predicate Answered(calls: seq<ToolCall>, rs: seq<Message>) {
    && |rs| <= |calls|
    && forall k :: 0 <= k < |rs| ==>
      rs[k].role.Tool? && rs[k].toolResult.Some? && rs[k].toolResult.value.callId == calls[k].id
  }

  predicate NoAssistant(rs: seq<Message>) {
    forall k :: 0 <= k < |rs| ==> !rs[k].role.Assistant?
  }

  lemma AnsweredStep(calls: seq<ToolCall>, rs: seq<Message>)
    requires rs != [] && calls != []
    ensures Answered(calls, rs) <==> Answered(calls[..1], rs[..1]) && Answered(calls[1..], rs[1..])
  {
    if Answered(calls[..1], rs[..1]) && Answered(calls[1..], rs[1..]) {
      forall k | 0 <= k < |rs| ensures rs[k].role.Tool? && rs[k].toolResult.Some? && rs[k].toolResult.value.callId == calls[k].id {
        assert k > 0 ==> rs[1..][k - 1] == rs[k] && calls[1..][k - 1] == calls[k];
      }
    }
  }

  /** What follows an open tool turn without a new answer: results in order leave the rest of
      the calls open; nothing else ends in results or leaves calls open. */
  lemma {:induction false} ScanFollowing(s: Scan, rs: seq<Message>)
    requires NoAssistant(rs)
    ensures var scan := ScanAll(s, rs);
      && (scan.Some? ==> scan.value.calls == s.calls && scan.value.lastTurn == s.lastTurn)
      && (scan.Some? && scan.value.unanswered != [] <==> Answered(s.unanswered, rs) && |rs| < |s.unanswered|)
      && (rs != [] && scan.Some? && scan.value.unanswered == [] && scan.value.endsWithResults
          <==> rs != [] && Answered(s.unanswered, rs) && |rs| == |s.unanswered|)
    decreases |rs|
  {
    hide Answered;
    if rs == [] {
      AnsweredNothing(s.unanswered);
    } else if s.unanswered != [] {
      AnsweredStep(s.unanswered, rs);
      AnsweredOne(s.unanswered, rs[0]);
      assert rs[..1] == [rs[0]];
      if ScanStep(s, rs[0]).Some? {
        ScanFollowing(ScanStep(s, rs[0]).value, rs[1..]);
        if |rs| == 1 {
          AnsweredNothing(s.unanswered[1..]);
        }
      }
    } else {
      NobodyAsked(rs);
      if ScanStep(s, rs[0]).Some? {
        ScanFollowing(ScanStep(s, rs[0]).value, rs[1..]);
        if |rs| > 1 {
          NobodyAsked(rs[1..]);
        }
      }
    }
  }

  lemma AnsweredNothing(calls: seq<ToolCall>)
    ensures Answered(calls, [])
  {
  }

  lemma NobodyAsked(rs: seq<Message>)
    requires rs != []
    ensures !Answered([], rs)
  {
  }

  lemma AnsweredOne(calls: seq<ToolCall>, r: Message)
    requires calls != []
    ensures Answered(calls[..1], [r]) <==> r.role.Tool? && r.toolResult.Some? && r.toolResult.value.callId == calls[0].id
  {
  }

  /** The analysis behind an assistant message, which no open call may precede. */
  lemma ScanBehind(base: State, m: Message, rs: seq<Message>)
    requires m.role.Assistant? && NoAssistant(rs)
    ensures var before, scan := Analyze(base.messages), Analyze(base.messages + ([m] + rs));
      var started := before.Some? && before.value.unanswered == [] && WellNamed(m.toolCalls);
      && (scan.Some? ==> started)
      && (started ==> scan == ScanAll(Scan(m.toolCalls, false, CallsOf(base) + [m.toolCalls], Max(before.value.lastTurn, LastTurn(m.toolCalls))), rs))
  {
    hide WellNamed, LastTurn, ScanAll;
    ScanConcat(START, base.messages, [m] + rs);
    if Analyze(base.messages).Some? {
      ScanFirst(Analyze(base.messages).value, m, rs);
    }
  }

  lemma ScanFirst(s: Scan, m: Message, rs: seq<Message>)
    ensures ScanAll(s, [m] + rs) == (var next := ScanStep(s, m); if next.None? then None else ScanAll(next.value, rs))
  {
    hide ScanStep;
    assert ([m] + rs)[1..] == rs;
  }

  /* ---------- the other phases ---------- */

  /** Calls with IDs and names, no ID twice. */
  predicate Nameable(calls: seq<ToolCall>) {
    && (forall k :: 0 <= k < |calls| ==> calls[k].id != "" && calls[k].name != "")
    && (forall i, j :: 0 <= i < j < |calls| ==> calls[i].id != calls[j].id)
  }

  /** Calls are accepted in a transcript if they can be told apart and their operation IDs, if
      they carry any, are of no negative turn and name their place. */
  lemma WellNamedIff(calls: seq<ToolCall>)
    ensures WellNamed(calls) <==>
      && Nameable(calls)
      && forall k :: 0 <= k < |calls| ==>
           calls[k].operation == Unset || (TurnOf(calls[k]) >= 0 && calls[k].operation == Operation(TurnOf(calls[k]), k))
  {
  }

  lemma NamedIff(base: State, calls: seq<ToolCall>)
    requires 0 <= base.turn && forall k :: 0 <= k < |calls| ==> calls[k].operation == Operation(base.turn, k)
    ensures WellNamed(calls) <==> Nameable(calls)
  {
  }

  /** A model_complete boundary is valid exactly when the invariant held before the turn, the
      step records an unfinished turn with these calls, numbered for it, and results are
      recorded for fewer than all of them. */
  lemma ModelCompleteIff(base: State, s: State, m: Message, rs: seq<Message>, step: Step)
    requires OnTop(base, s, [m] + rs, step) && m.role.Assistant? && NoAssistant(rs)
    requires s.toolCallsUsed == base.toolCallsUsed
    ensures ValidContinuation(Snapshot(s, ModelComplete)) <==>
      && Good(base) && Nameable(m.toolCalls) && Answered(m.toolCalls, rs) && |rs| < |m.toolCalls|
      && Balances(base, s, step, m.toolCalls, false)
  {
    hide ScanAll, WellNamed, LastTurn, Good, Balances, Booked, Answered, NoAssistant, StepsValid, TotalsValid, ScalarsValid, VersionValid, Nameable;
    var c := Snapshot(s, ModelComplete);
    ScanBehind(base, m, rs);
    if Good(base) {
      GoodSettles(base);
    }
    if Balances(base, s, step, m.toolCalls, false) {
      BookedTurn(base);
      NumberedBy(base, s, step, m.toolCalls, false);
    }
    if Analyze(base.messages).Some? && Analyze(base.messages).value.unanswered == [] && WellNamed(m.toolCalls) {
      ScanFollowing(Scan(m.toolCalls, false, CallsOf(base) + [m.toolCalls], Max(Analyze(base.messages).value.lastTurn, LastTurn(m.toolCalls))), rs);
      if Analyze(s.messages).Some? {
        BoundaryOnTop(base, s, [m] + rs, step, m.toolCalls, ModelComplete);
      }
    }
  }

  lemma NumberedBy(base: State, s: State, step: Step, calls: seq<ToolCall>, ran: bool)
    requires step.call.Some? && Balances(base, s, step, calls, ran) && 0 <= base.turn
    ensures WellNamed(calls) <==> Nameable(calls)
  {
    hide WellNamed, Nameable, Covers, TracesMatch;
    NamedIff(base, calls);
  }

  lemma GoodSettles(base: State)
    requires Good(base)
    ensures Analyze(base.messages).Some? && Analyze(base.messages).value.unanswered == []
  {
    hide ScanAll, Balanced;
  }

  /** A tools_complete boundary is valid exactly when the invariant held before the turn, and
      its calls, of which there are some, are all answered in order and recorded by a step
      that is decided. */
  lemma ToolsCompleteIff(base: State, s: State, m: Message, rs: seq<Message>, step: Step)
    requires OnTop(base, s, [m] + rs, step) && m.role.Assistant? && NoAssistant(rs)
    requires s.toolCallsUsed == base.toolCallsUsed + |m.toolCalls|
    ensures ValidContinuation(Snapshot(s, ToolsComplete)) <==>
      && Good(base) && Nameable(m.toolCalls) && m.toolCalls != [] && Answered(m.toolCalls, rs) && |rs| == |m.toolCalls|
      && step.decision != Undecided && Balances(base, s, step, m.toolCalls, true)
  {
    hide ScanAll, WellNamed, LastTurn, Good, Balances, Booked, Answered, NoAssistant, StepsValid, TotalsValid, ScalarsValid, VersionValid, Nameable;
    var c := Snapshot(s, ToolsComplete);
    ScanBehind(base, m, rs);
    if Good(base) {
      GoodSettles(base);
    }
    if Balances(base, s, step, m.toolCalls, true) {
      BookedTurn(base);
      NumberedBy(base, s, step, m.toolCalls, true);
      TracesOfTurn(base, s, step, m.toolCalls);
    }
    if Analyze(base.messages).Some? && Analyze(base.messages).value.unanswered == [] && WellNamed(m.toolCalls) {
      ScanFollowing(Scan(m.toolCalls, false, CallsOf(base) + [m.toolCalls], Max(Analyze(base.messages).value.lastTurn, LastTurn(m.toolCalls))), rs);
      NothingEndsInResults(Scan(m.toolCalls, false, CallsOf(base) + [m.toolCalls], Max(Analyze(base.messages).value.lastTurn, LastTurn(m.toolCalls))));
      if Analyze(s.messages).Some? {
        BoundaryOnTop(base, s, [m] + rs, step, m.toolCalls, ToolsComplete);
      }
    }
  }

  lemma NothingEndsInResults(s: Scan)
    ensures ScanAll(s, []) == Some(s)
  {
  }

  lemma TracesOfTurn(base: State, s: State, step: Step, calls: seq<ToolCall>)
    requires step.call.Some? && Balances(base, s, step, calls, true)
    ensures |step.traces| == |calls|
  {
    hide Covers;
  }

  /** A validating_output boundary is valid exactly when the invariant held before the turn,
      and the last message is an answer without calls, recorded by a step that finishes. */
  lemma ValidatingOutputIff(base: State, s: State, m: Message, step: Step)
    requires OnTop(base, s, [m], step) && s.toolCallsUsed == base.toolCallsUsed
    ensures ValidContinuation(Snapshot(s, ValidatingOutput)) <==>
      && Good(base) && m.role.Assistant? && m.toolCalls == []
      && step.decision == Finish && Balances(base, s, step, [], true)
  {
    hide ScanAll, WellNamed, LastTurn, Good, Balances, Booked, StepsValid, TotalsValid, ScalarsValid, VersionValid;
    var c := Snapshot(s, ValidatingOutput);
    assert s.messages[|s.messages| - 1] == m;
    if Good(base) {
      GoodSettles(base);
    }
    if m.role.Assistant? && m.toolCalls == [] {
      assert [m] + [] == [m];
      ScanBehind(base, m, []);
      NoCallsNamed();
      if Analyze(base.messages).Some? && Analyze(base.messages).value.unanswered == [] {
        NothingEndsInResults(Scan([], false, CallsOf(base) + [[]], Max(Analyze(base.messages).value.lastTurn, LastTurn([]))));
        BoundaryOnTop(base, s, [m], step, [], ValidatingOutput);
      }
    }
  }

  lemma NoCallsNamed()
    ensures WellNamed([])
  {
  }

  /* ---------- what can be resumed ---------- */

  /** A valid continuation can be resumed unless it is of a model_complete phase and already
      ends in a result: resuming takes back the last message, for the one with the calls. */
  lemma ResumableIff(c: Continuation)
    requires ValidContinuation(c)
    ensures LoopResume.Resumable(c) <==>
      !(c.phase.ModelComplete? && c.messages != []
        && var last := c.messages[|c.messages| - 1]; last.role.Tool? && last.toolCalls == [])
  {
    hide LedgerValid, CallsDone, ModelUsage, Add;
    LedgerCalls(c);
    if c.phase.ModelComplete? {
      OpenEnds(START, c.messages);
    }
  }

  const ASKED: seq<ToolCall> := [ToolCall("a", "t", "", Operation(0, 0)), ToolCall("b", "t", "", Operation(0, 1))]
  const HALF_DONE: seq<Message> :=
    [NewText(Assistant, "").(toolCalls := ASKED), NewToolResult(ToolResult("a", "t", "", "", false))]

  /** Such a continuation is accepted: two calls, the first of them answered. */
  lemma HalfDoneAccepted()
    ensures var step := Step(0, Some(ModelCall(ZERO, ToolUse)), [], [], Continue, ZERO, 0, 0);
      var c := Snapshot(State(HALF_DONE, [step], ZERO, ZERO, 0, 1), ModelComplete);
      ValidContinuation(c) && !LoopResume.Resumable(c)
  {
    var step := Step(0, Some(ModelCall(ZERO, ToolUse)), [], [], Continue, ZERO, 0, 0);
    var base, s := State([], [], ZERO, ZERO, 0, 0), State(HALF_DONE, [step], ZERO, ZERO, 0, 1);
    HalfDoneBalances(base, s, step);
    EmptyIsGood(base);
    hide *;
    HalfDoneShape();
    ModelCompleteIff(base, s, HALF_DONE[0], [HALF_DONE[1]], step);
    HalfDoneStuck(s);
  }

  lemma HalfDoneShape()
    ensures |HALF_DONE| == 2 && HALF_DONE[0].role.Assistant? && HALF_DONE[0].toolCalls == ASKED
    ensures HALF_DONE == [HALF_DONE[0]] + [HALF_DONE[1]] && NoAssistant([HALF_DONE[1]])
    ensures |ASKED| == 2 && Nameable(ASKED) && Answered(ASKED, [HALF_DONE[1]])
  {
  }

  lemma HalfDoneStuck(s: State)
    requires s.messages == HALF_DONE
    ensures !LoopResume.Resumable(Snapshot(s, ModelComplete))
  {
  }

  lemma HalfDoneBalances(base: State, s: State, step: Step)
    requires step == Step(0, Some(ModelCall(ZERO, ToolUse)), [], [], Continue, ZERO, 0, 0)
    requires base == State([], [], ZERO, ZERO, 0, 0) && s == State(HALF_DONE, [step], ZERO, ZERO, 0, 1)
    ensures OnTop(base, s, HALF_DONE, step) && Balances(base, s, step, ASKED, false)
  {
    AddZero(ZERO);
    NothingUsed([]);
    assert [] + HALF_DONE == HALF_DONE && [] + [step] == [step];
  }

  lemma EmptyIsGood(base: State)
    requires base == State([], [], ZERO, ZERO, 0, 0)
    ensures Good(base)
  {
    hide Good;
    NothingEndsInResults(START);
    EnterGood([], 0);
  }

  lemma LedgerCalls(c: Continuation)
    requires ValidContinuation(c)
    ensures c.steps != [] ==> c.steps[|c.steps| - 1].call.Some?
    ensures c.phase.ModelComplete? ==> c.messages != [] && Analyze(c.messages).value.unanswered != []
  {
    hide ScanAll, CallsDone, ModelUsage, Add, TokensBalance, TracesMatch, Numbered;
    LedgerOfValid(c);
    if c.steps != [] {
      var n := |c.steps|;
      assert StepValid(c.steps, Last(Analyze(c.messages).value.calls, n), c.nextTurn - n, PendingStep(c), n - 1);
    }
    if c.messages == [] {
      NothingEndsInResults(START);
    }
  }

  /** A transcript with open calls ends in their message or in results for some of them. */
  lemma OpenEnds(s: Scan, ms: seq<Message>)
    requires ms != [] && ScanAll(s, ms).Some? && ScanAll(s, ms).value.unanswered != []
    ensures var last := ms[|ms| - 1];
      if last.role.Assistant? then last.toolCalls != [] else last.role.Tool?
  {
    hide ScanAll, LastTurn, WellNamed;
    var n := |ms| - 1;
    assert ms == ms[..n] + [ms[n]];
    ScanConcat(s, ms[..n], [ms[n]]);
    var before := ScanAll(s, ms[..n]);
    assert [ms[n]] == [ms[n]] + [];
    ScanFirst(before.value, ms[n], []);
    if ScanStep(before.value, ms[n]).Some? {
      NothingEndsInResults(ScanStep(before.value, ms[n]).value);
    }
  }
}
