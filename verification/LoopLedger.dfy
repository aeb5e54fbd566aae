/** How each change the loop makes to its steps and totals keeps the ledger balanced. */
module LoopLedger {
  import opened Wrappers
  import opened Messages
  import opened TokenUsage
  import opened Continuations
  import opened AgentLoop

  /* ---------- prefix sums ---------- */

  lemma {:induction false} UsagePrefix(a: seq<Step>, b: seq<Step>, k: nat)
    requires k <= |a| && k <= |b| && (forall i :: 0 <= i < k ==> a[i].call == b[i].call)
    ensures ModelUsage(a, k) == ModelUsage(b, k)
  {
    hide Add;
    if k > 0 {
      UsagePrefix(a, b, k - 1);
    }
  }

  lemma {:induction false} CallsPrefix(a: seq<seq<ToolCall>>, b: seq<seq<ToolCall>>, p: int, q: int, k: nat)
    requires k <= |a| && k <= |b| && (forall i :: 0 <= i < k ==> a[i] == b[i])
    requires !(0 <= p < k) && !(0 <= q < k)
    ensures CallsDone(a, p, k) == CallsDone(b, q, k)
  {
    if k > 0 {
      CallsPrefix(a, b, p, q, k - 1);
    }
  }

  /* ---------- one entry ---------- */

  /** An entry's validity depends on the steps up to it, and on whether it is the last. */
  lemma EntryStable(a: seq<Step>, b: seq<Step>, ca: seq<seq<ToolCall>>, cb: seq<seq<ToolCall>>, first: int, p: int, q: int, i: nat)
    requires |a| == |ca| && |b| == |cb| && i < |a| && i < |b|
    requires forall j :: 0 <= j <= i ==> a[j] == b[j] && ca[j] == cb[j]
    requires !(0 <= p <= i) && !(0 <= q <= i)
    requires a[i].decision == Continue
    requires StepValid(a, ca, first, p, i)
    ensures StepValid(b, cb, first, q, i)
  {
    hide Numbered, TracesMatch, Add;
    UsagePrefix(a, b, i + 1);
    CallsPrefix(ca, cb, p, q, i + 1);
  }

  /** A valid ledger stays valid when a valid entry is added at its end. */
  lemma ExtendLedger(steps: seq<Step>, calls: seq<seq<ToolCall>>, first: int, step: Step, newCalls: seq<ToolCall>, pending: int)
    requires |calls| == |steps| && LedgerValid(steps, calls, first, -1)
    requires steps != [] ==> steps[|steps| - 1].decision == Continue
    requires pending == -1 || pending == |steps|
    requires StepValid(steps + [step], calls + [newCalls], first, pending, |steps|)
    ensures LedgerValid(steps + [step], calls + [newCalls], first, pending)
  {
    hide StepValid;
    forall i | 0 <= i < |steps| ensures StepValid(steps + [step], calls + [newCalls], first, pending, i) {
      AllContinue(steps, calls, first, i);
      EntryStable(steps, steps + [step], calls, calls + [newCalls], first, -1, pending, i);
    }
  }

  lemma AllContinue(steps: seq<Step>, calls: seq<seq<ToolCall>>, first: int, i: nat)
    requires |calls| == |steps| && LedgerValid(steps, calls, first, -1) && i < |steps|
    requires steps[|steps| - 1].decision == Continue
    ensures steps[i].decision == Continue
  {
    hide TracesMatch, Numbered, CallsDone, TokensBalance;
    assert StepValid(steps, calls, first, -1, i);
  }

  /** A valid ledger stays valid when its last entry is replaced by a valid one. */
  lemma ReplaceEntry(steps: seq<Step>, calls: seq<seq<ToolCall>>, first: int, step: Step, pending: int)
    requires |calls| == |steps| > 0 && LedgerValid(steps, calls, first, pending)
    requires pending == -1 || pending == |steps| - 1
    requires StepValid(MapLast(steps, step), calls, first, -1, |steps| - 1)
    ensures LedgerValid(MapLast(steps, step), calls, first, -1)
  {
    hide TracesMatch, Numbered, CallsDone, TokensBalance;
    var next := MapLast(steps, step);
    forall i | 0 <= i < |steps| - 1 ensures StepValid(next, calls, first, -1, i) {
      assert StepValid(steps, calls, first, pending, i);
      EntryStable(steps, next, calls, calls, first, pending, -1, i);
    }
  }

  /** The turns of `other` are those of `calls`; where the tools have not run, only the
      numbering of the calls is on record. */
  predicate SameTurns(calls: seq<seq<ToolCall>>, other: seq<seq<ToolCall>>, pending: int, first: int)
    requires |calls| == |other|
  {
    forall i :: 0 <= i < |calls| ==> if i == pending then Numbered(other[i], first + i) else other[i] == calls[i]
  }

  lemma {:induction false} CallsOfSameTurns(calls: seq<seq<ToolCall>>, other: seq<seq<ToolCall>>, pending: int, first: int, k: nat)
    requires |calls| == |other| && k <= |calls| && SameTurns(calls, other, pending, first)
    ensures CallsDone(calls, pending, k) == CallsDone(other, pending, k)
  {
    if k > 0 {
      CallsOfSameTurns(calls, other, pending, first, k - 1);
    }
  }

  /** A ledger fits the calls of one sequence of turns only: traces fix what each call was,
      and numbering fixes its operation ID. */
  lemma LedgerFitsIff(steps: seq<Step>, calls: seq<seq<ToolCall>>, other: seq<seq<ToolCall>>, first: int, pending: int)
    requires |calls| == |other| == |steps| && LedgerValid(steps, calls, first, pending)
    ensures LedgerValid(steps, other, first, pending) <==> SameTurns(calls, other, pending, first)
  {
    hide EntryFacts, TokensBalance, CallsDone, Numbered, TracesMatch;
    if LedgerValid(steps, other, first, pending) {
      forall i | 0 <= i < |steps| && i != pending ensures calls[i] == other[i] {
        assert StepValid(steps, calls, first, pending, i) && StepValid(steps, other, first, pending, i);
        SameCalls(steps[i].traces, calls[i], other[i], first + i);
      }
      forall i | 0 <= i < |steps| ensures Numbered(other[i], first + i) {
        assert StepValid(steps, other, first, pending, i);
      }
    }
    if SameTurns(calls, other, pending, first) {
      forall i | 0 <= i < |steps| ensures StepValid(steps, other, first, pending, i) {
        assert StepValid(steps, calls, first, pending, i);
        CallsOfSameTurns(calls, other, pending, first, i + 1);
      }
    }
  }

  /** Two ledgers with the same traces are of the same turns, whatever else differs. */
  lemma SameTracesSameTurns(a: seq<Step>, b: seq<Step>, calls: seq<seq<ToolCall>>, other: seq<seq<ToolCall>>, first: int)
    requires |a| == |b| == |calls| == |other| && forall i :: 0 <= i < |a| ==> a[i].traces == b[i].traces
    requires LedgerValid(a, calls, first, -1) && LedgerValid(b, other, first, -1)
    ensures calls == other
  {
    hide EntryFacts, TokensBalance, CallsDone, Numbered, TracesMatch;
    forall i | 0 <= i < |a| ensures calls[i] == other[i] {
      assert StepValid(a, calls, first, -1, i) && StepValid(b, other, first, -1, i);
      SameCalls(a[i].traces, calls[i], other[i], first + i);
    }
  }

  lemma SameCalls(traces: seq<Trace>, calls: seq<ToolCall>, other: seq<ToolCall>, turn: int)
    requires TracesMatch(traces, calls) && TracesMatch(traces, other) && Numbered(calls, turn) && Numbered(other, turn)
    ensures calls == other
  {
    assert forall k :: 0 <= k < |calls| ==> calls[k] == other[k];
  }

  /* ---------- balanced states ---------- */

  /** The totals of a state agree with its steps; `pending` is the index of a step whose
      tools have not run, or -1. */
  predicate BalancedWith(s: State, calls: seq<seq<ToolCall>>, pending: int) {
    var n := |s.steps|;
    && n <= |calls| && n <= s.turn && 0 <= s.toolCallsUsed
    && Consistent(s.usage) && Consistent(s.context) && s.usage.total < MAX_INT
    && LedgerValid(s.steps, Last(calls, n), s.turn - n, pending)
    && s.toolCallsUsed == CallsDone(Last(calls, n), pending, n)
    && Contains(s.usage, Add(ModelUsage(s.steps, n), s.context))
    && (n > 0 ==> LastStep(s).tokens == s.usage.total && LastStep(s).context == s.context)
    && (n == 0 ==> s.usage == s.context)
  }

  predicate Balanced(s: State, calls: seq<seq<ToolCall>>) {
    BalancedWith(s, calls, -1)
  }

  /** Only the turns matched with steps matter. */
  lemma BalancedByTurns(s: State, calls: seq<seq<ToolCall>>, other: seq<seq<ToolCall>>, pending: int)
    requires BalancedWith(s, calls, pending) && |s.steps| <= |other|
    requires SameTurns(Last(calls, |s.steps|), Last(other, |s.steps|), pending, s.turn - |s.steps|)
    ensures BalancedWith(s, other, pending)
  {
    hide LedgerValid, CallsDone, ModelUsage, Add, Contains, Consistent, SameTurns, Last;
    var n := |s.steps|;
    LedgerFitsIff(s.steps, Last(calls, n), Last(other, n), s.turn - n, pending);
    CallsOfSameTurns(Last(calls, n), Last(other, n), pending, s.turn - n, n);
  }

  predicate Continuing(s: State) {
    s.steps != [] ==> LastStep(s).decision == Continue
  }

  lemma LastAppend<T>(s: seq<T>, x: T, n: nat)
    requires n <= |s|
    ensures Last(s + [x], n + 1) == Last(s, n) + [x]
  {
  }

  lemma UnsaturatedIsValid(u: Usage)
    requires Consistent(u) && u.total < MAX_INT
    ensures ValidUsage(u)
  {
  }

  /** The tokens of the auxiliary and model work never exceed the run's total. */
  lemma ContextBelowTotal(s: State, calls: seq<seq<ToolCall>>, pending: int)
    requires BalancedWith(s, calls, pending)
    ensures s.context.total <= s.usage.total
    ensures ValidUsage(s.usage) && ValidUsage(s.context)
  {
    AddClosed(ModelUsage(s.steps, |s.steps|), s.context);
    NormalizedIffConsistent(s.context);
    UnsaturatedIsValid(s.usage);
    UnsaturatedIsValid(s.context);
  }

  /** Accounting one model response: the new usage covers all model and context work. */
  lemma AddModelUsage(s: State, u: Usage)
    requires Consistent(s.usage) && Consistent(s.context) && Consistent(u)
    requires Contains(s.usage, Add(ModelUsage(s.steps, |s.steps|), s.context))
    ensures Contains(Add(s.usage, u), Add(Add(ModelUsage(s.steps, |s.steps|), u), s.context))
  {
    var model := ModelUsage(s.steps, |s.steps|);
    AddClosed(model, s.context);
    AddMonotone(s.usage, Add(model, s.context), u);
    AddAssociative(model, s.context, u);
    AddCommutative(s.context, u);
    AddAssociative(model, u, s.context);
  }

  /** The entry of a turn whose tools have not run, or that has none. */
  predicate FreshEntry(s: State, step: Step, u: Usage) {
    && step.index == |s.steps| && step.call.Some? && step.call.value.usage == u
    && step.traces == [] && step.context == s.context
    && step.tokens == Add(s.usage, u).total && step.toolCalls == s.toolCallsUsed
  }

  lemma UsageSnoc(steps: seq<Step>, step: Step)
    requires step.call.Some?
    ensures ModelUsage(steps + [step], |steps| + 1) == Add(ModelUsage(steps, |steps|), step.call.value.usage)
  {
    hide Add;
    UsagePrefix(steps, steps + [step], |steps|);
  }

  lemma FreshTokens(s: State, calls: seq<seq<ToolCall>>, step: Step, u: Usage)
    requires Balanced(s, calls) && Consistent(u) && Add(s.usage, u).total < MAX_INT && FreshEntry(s, step, u)
    ensures MinimumTokens(s.steps + [step], |s.steps|) == step.tokens
    ensures Contains(Add(s.usage, u), Add(ModelUsage(s.steps + [step], |s.steps| + 1), s.context))
  {
    hide Add, LedgerValid, ModelUsage, CallsDone;
    var n, steps := |s.steps|, s.steps + [step];
    UsageSnoc(s.steps, step);
    AddTotal(s.usage, u);
    AddModelUsage(s, u);
    if n == 0 {
      NothingSpent(s.steps, [], -1);
      AddZero(u);
      AddCommutative(s.context, u);
    } else {
      assert steps[n - 1] == LastStep(s);
    }
  }

  lemma FreshEntryValid(s: State, calls: seq<seq<ToolCall>>, step: Step, u: Usage, newCalls: seq<ToolCall>, pending: int)
    requires Balanced(s, calls) && Continuing(s) && Consistent(u) && Add(s.usage, u).total < MAX_INT
    requires FreshEntry(s, step, u) && Numbered(newCalls, s.turn)
    requires newCalls != [] ==> step.decision == Continue
    requires pending == if newCalls == [] then -1 else |s.steps|
    ensures StepValid(s.steps + [step], Last(calls, |s.steps|) + [newCalls], s.turn - |s.steps|, pending, |s.steps|)
    ensures CallsDone(Last(calls, |s.steps|) + [newCalls], pending, |s.steps| + 1) == s.toolCallsUsed
  {
    hide MinimumTokens, Numbered, Add, ModelUsage, EntryFacts, LedgerValid, Contains, Consistent, Last;
    var n := |s.steps|;
    FreshTokens(s, calls, step, u);
    CallsPrefix(Last(calls, n), Last(calls, n) + [newCalls], -1, pending, n);
    FreshFacts(s, calls, step, u);
    assert (s.steps + [step])[n] == step;
  }

  lemma FreshFacts(s: State, calls: seq<seq<ToolCall>>, step: Step, u: Usage)
    requires Balanced(s, calls) && Consistent(u) && Add(s.usage, u).total < MAX_INT && FreshEntry(s, step, u)
    ensures EntryFacts(step, |s.steps|, PreviousContext(s.steps + [step], |s.steps|), true)
  {
    hide LedgerValid, CallsDone, Add, ModelUsage, Last;
    AddTotal(s.usage, u);
    UnsaturatedIsValid(u);
    ContextBelowTotal(s, calls, -1);
    if s.steps != [] {
      assert (s.steps + [step])[|s.steps| - 1] == LastStep(s);
    }
  }

  /** Recording one more model turn, with its calls still to run or with none. */
  lemma RecordTurn(s: State, calls: seq<seq<ToolCall>>, step: Step, u: Usage, newCalls: seq<ToolCall>, next: State)
    requires Balanced(s, calls) && Continuing(s) && Consistent(u) && Add(s.usage, u).total < MAX_INT
    requires FreshEntry(s, step, u) && Numbered(newCalls, s.turn)
    requires newCalls != [] ==> step.decision == Continue
    requires next.steps == s.steps + [step] && next.usage == Add(s.usage, u) && next.context == s.context
    requires next.toolCallsUsed == s.toolCallsUsed && next.turn == s.turn + 1
    ensures BalancedWith(next, calls + [newCalls], if newCalls == [] then -1 else |s.steps|)
  {
    hide StepValid, Contains, Consistent, ModelUsage, CallsDone, LedgerValid, Add, Last, Numbered, MinimumTokens;
    var n := |s.steps|;
    var pending := if newCalls == [] then -1 else n;
    FreshTokens(s, calls, step, u);
    LastAppend(calls, newCalls, n);
    FreshEntryValid(s, calls, step, u, newCalls, pending);
    ExtendLedger(s.steps, Last(calls, n), s.turn - n, step, newCalls, pending);
    AddClosed(s.usage, u);
    assert LastStep(next) == step;
  }

  /* ---------- changing the last entry ---------- */

  /** What the next turn's entry will be measured against. */
  lemma MinimumStable(steps: seq<Step>, step: Step)
    requires steps != [] && steps[|steps| - 1].call.Some?
    requires step.call == steps[|steps| - 1].call && step.context == steps[|steps| - 1].context
    ensures MinimumTokens(MapLast(steps, step), |steps| - 1) == MinimumTokens(steps, |steps| - 1)
    ensures ModelUsage(MapLast(steps, step), |steps|) == ModelUsage(steps, |steps|)
  {
    hide Add;
    UsagePrefix(MapLast(steps, step), steps, |steps|);
  }

  /** Decisions, observations and nothing else: the ledger does not notice. */
  lemma AmendLast(s: State, calls: seq<seq<ToolCall>>, step: Step)
    requires Balanced(s, calls) && s.steps != []
    requires step == LastStep(s).(decision := step.decision, observations := step.observations)
    ensures Balanced(s.(steps := MapLast(s.steps, step)), calls)
  {
    hide Contains, Consistent, ModelUsage, CallsDone, Add, Last, Numbered, MinimumTokens, TracesMatch, ValidUsage;
    var n := |s.steps|;
    var gen := Last(calls, n);
    assert StepValid(s.steps, gen, s.turn - n, -1, n - 1);
    MinimumStable(s.steps, step);
    assert PreviousContext(MapLast(s.steps, step), n - 1) == PreviousContext(s.steps, n - 1);
    ReplaceEntry(s.steps, gen, s.turn - n, step, -1);
    hide StepValid, LedgerValid;
    assert LastStep(s.(steps := MapLast(s.steps, step))) == step;
  }

  /** The tools of the pending step have run: its calls count, their usage is spent. */
  predicate RanTools(s: State, next: State, childUsage: Usage, batch: seq<ToolCall>) {
    && s.steps != [] && next.steps != [] && next.steps == MapLast(s.steps, LastStep(next))
    && next.usage == Add(s.usage, childUsage) && next.context == s.context && next.turn == s.turn
    && next.toolCallsUsed == s.toolCallsUsed + |batch|
    && var step := LastStep(next);
    && step == LastStep(s).(
         traces := step.traces, decision := step.decision, observations := step.observations,
         tokens := step.tokens, toolCalls := step.toolCalls)
    && TracesMatch(step.traces, batch) && step.tokens == next.usage.total && step.toolCalls == next.toolCallsUsed
  }

  lemma RecordTools(s: State, calls: seq<seq<ToolCall>>, batch: seq<ToolCall>, childUsage: Usage, next: State)
    requires s.steps != [] && BalancedWith(s, calls + [batch], |s.steps| - 1)
    requires Consistent(childUsage) && Add(s.usage, childUsage).total < MAX_INT
    requires RanTools(s, next, childUsage, batch) && next.steps != []
    requires batch != []
    ensures Balanced(next, calls + [batch])
  {
    hide Contains, Consistent, ModelUsage, Add, Numbered, MinimumTokens, TracesMatch, ValidUsage;
    var n := |s.steps|;
    var gen, step := Last(calls + [batch], n), LastStep(next);
    assert gen[n - 1] == batch;
    assert StepValid(s.steps, gen, s.turn - n, n - 1, n - 1);
    hide Last;
    MinimumStable(s.steps, step);
    CallsPrefix(gen, gen, -1, n - 1, n - 1);
    AddTotal(s.usage, childUsage);
    TotalsGrow(s.usage, childUsage, Add(ModelUsage(s.steps, n), s.context));
    ToolEntryValid(s, gen, step, n);
    ReplaceEntry(s.steps, gen, s.turn - n, step, n - 1);
    hide StepValid, LedgerValid;
    assert CallsDone(gen, -1, n) == next.toolCallsUsed;
  }

  lemma TotalsGrow(u: Usage, v: Usage, least: Usage)
    requires Consistent(u) && Consistent(v) && Contains(u, least)
    ensures Contains(Add(u, v), least) && Consistent(Add(u, v))
    ensures 0 <= v.total && u.total <= Add(u, v).total
  {
    AddClosed(u, v);
    NormalizedIffConsistent(u);
    ContainsTransitive(Add(u, v), u, least);
  }

  lemma ToolEntryValid(s: State, gen: seq<seq<ToolCall>>, step: Step, n: nat)
    requires n == |s.steps| > 0 && |gen| == n && gen[n - 1] != []
    requires StepValid(s.steps, gen, s.turn - n, n - 1, n - 1)
    requires step.index == LastStep(s).index && step.call == LastStep(s).call && step.context == LastStep(s).context
    requires TracesMatch(step.traces, gen[n - 1])
    requires LastStep(s).tokens <= step.tokens
    requires step.toolCalls == CallsDone(gen, n - 1, n) + |gen[n - 1]|
    ensures StepValid(MapLast(s.steps, step), gen, s.turn - n, -1, n - 1)
    ensures CallsDone(gen, -1, n) == step.toolCalls
  {
    hide Contains, Add, Numbered, MinimumTokens, TracesMatch, ValidUsage;
    MinimumStable(s.steps, step);
    CallsPrefix(gen, gen, -1, n - 1, n - 1);
    assert PreviousContext(MapLast(s.steps, step), n - 1) == PreviousContext(s.steps, n - 1);
  }

  /* ---------- auxiliary model work ---------- */

  /** Tokens spent by child agents: what the totals hold beyond model and context work. */
  function ChildTokens(s: State): int {
    s.usage.total - Add(ModelUsage(s.steps, |s.steps|), s.context).total
  }

  /** Context work may land on the latest step when that step ran tools, when the work cost
      no tokens, or when no child agent has spent any. */
  predicate ContextWorkFits(s: State, calls: seq<seq<ToolCall>>, summary: Usage) {
    s.steps == [] || (calls != [] && calls[|calls| - 1] != []) || summary.total == 0 || ChildTokens(s) == 0
  }

  lemma AccountedTotals(s: State, calls: seq<seq<ToolCall>>, summary: Usage)
    requires Balanced(s, calls) && Consistent(summary) && Add(s.usage, summary).total < MAX_INT
    ensures var next := AccountContext(s, summary);
      && Consistent(next.usage) && Consistent(next.context)
      && next.usage.total == s.usage.total + summary.total
      && Add(ModelUsage(s.steps, |s.steps|), next.context).total == s.usage.total - ChildTokens(s) + summary.total
      && Contains(next.usage, Add(ModelUsage(s.steps, |s.steps|), next.context))
      && Contains(next.context, s.context) && ValidUsage(next.context)
      && 0 <= ChildTokens(s)
  {
    hide LedgerValid, CallsDone, Add, ModelUsage;
    var model := ModelUsage(s.steps, |s.steps|);
    AddTotal(s.usage, summary);
    AddTotal(s.context, summary);
    AddClosed(s.usage, summary);
    AddClosed(s.context, summary);
    AddClosed(model, s.context);
    NormalizedIffConsistent(s.context);
    AddMonotone(s.usage, Add(model, s.context), summary);
    AddAssociative(model, s.context, summary);
    AddTotal(Add(model, s.context), summary);
    AddClosed(model, Add(s.context, summary));
    NormalizedIffConsistent(Add(s.context, summary));
    UnsaturatedIsValid(Add(s.context, summary));
  }

  function MinimumFromPrevious(s: State): int
    requires |s.steps| > 1 && LastStep(s).call.Some?
  {
    s.steps[|s.steps| - 2].tokens + LastStep(s).call.value.usage.total
  }

  /** The latest step's token floor, given the model and context tokens up to it. */
  function Floor(s: State, spent: int): int
    requires s.steps != [] && LastStep(s).call.Some?
  {
    if |s.steps| == 1 then spent else Max(spent, MinimumFromPrevious(s))
  }

  lemma AccountedMinimum(s: State, calls: seq<seq<ToolCall>>, summary: Usage)
    requires Balanced(s, calls) && s.steps != [] && LastStep(s).call.Some?
    requires Consistent(summary) && Add(s.usage, summary).total < MAX_INT
    ensures var next, n := AccountContext(s, summary), |s.steps|;
      && |next.steps| == n && next.steps == MapLast(s.steps, LastStep(next))
      && LastStep(next) == LastStep(s).(context := next.context, tokens := next.usage.total)
      && ModelUsage(next.steps, n) == ModelUsage(s.steps, n)
      && MinimumTokens(next.steps, n - 1) == Floor(s, s.usage.total - ChildTokens(s) + summary.total)
      && MinimumTokens(s.steps, n - 1) == Floor(s, s.usage.total - ChildTokens(s))
  {
    hide Add, LedgerValid, CallsDone, Contains, Consistent, ModelUsage;
    AccountedTotals(s, calls, summary);
    var next, n := AccountContext(s, summary), |s.steps|;
    UsagePrefix(next.steps, s.steps, n);
  }

  lemma AccountedEntryIff(s: State, calls: seq<seq<ToolCall>>, summary: Usage)
    requires Balanced(s, calls) && s.steps != []
    requires Consistent(summary) && Add(s.usage, summary).total < MAX_INT
    ensures var next, n := AccountContext(s, summary), |s.steps|;
      && |next.steps| == n && next.steps == MapLast(s.steps, LastStep(next))
      && ModelUsage(next.steps, n) == ModelUsage(s.steps, n)
      && (StepValid(next.steps, Last(calls, n), s.turn - n, -1, n - 1) <==> ContextWorkFits(s, calls, summary))
  {
    hide Add, CallsDone, Numbered, TracesMatch, MinimumTokens, ModelUsage, ValidUsage, AccountContext, ChildTokens;
    var n := |s.steps|;
    assert StepValid(s.steps, Last(calls, n), s.turn - n, -1, n - 1);
    AccountedMinimum(s, calls, summary);
    AccountedTotals(s, calls, summary);
    var next := AccountContext(s, summary);
    assert PreviousContext(next.steps, n - 1) == PreviousContext(s.steps, n - 1);
    ContainsTransitive(next.context, s.context, PreviousContext(s.steps, n - 1));
    SummaryNonnegative(summary);
    hide Contains, Consistent, LedgerValid;
    assert Last(calls, n)[n - 1] == calls[|calls| - 1];
  }

  lemma SummaryNonnegative(summary: Usage)
    requires Consistent(summary)
    ensures 0 <= summary.total
  {
  }

  /** The ledger survives context work exactly when it fits. */
  lemma AccountContextIff(s: State, calls: seq<seq<ToolCall>>, summary: Usage)
    requires Balanced(s, calls) && Consistent(summary) && Add(s.usage, summary).total < MAX_INT
    ensures Balanced(AccountContext(s, summary), calls) <==> ContextWorkFits(s, calls, summary)
  {
    hide Add, CallsDone, StepValid, ModelUsage, ChildTokens, Contains, Consistent, Last;
    AccountedTotals(s, calls, summary);
    var next, n := AccountContext(s, summary), |s.steps|;
    if n > 0 {
      AccountedEntryIff(s, calls, summary);
      if ContextWorkFits(s, calls, summary) {
        ReplaceEntry(s.steps, Last(calls, n), s.turn - n, LastStep(next), -1);
      }
    }
  }
}
