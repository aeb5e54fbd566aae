/**
 Fitting a history into the context window as the loop's last resort after an overflow: it
 deletes messages, and the run goes on exactly when the answers of its steps are left.
 */
module LoopFitting {
  import opened Wrappers
  import opened Messages
  import opened TokenUsage
  import opened Continuations
  import opened AgentLoop
  import opened LoopTranscript
  import opened LoopLedger
  import opened LoopInvariant
  import History
  import FitContext

  /** The tool calls of the assistant messages. */
  function AssistantCalls(ms: seq<Message>): seq<seq<ToolCall>> {
    if ms == [] then [] else (if ms[0].role.Assistant? then [ms[0].toolCalls] else []) + AssistantCalls(ms[1..])
  }

  /* ---------- scanning parts of a history ---------- */

  lemma {:induction false} ScanCollects(s: Scan, ms: seq<Message>)
    requires ScanAll(s, ms).Some?
    ensures ScanAll(s, ms).value.calls == s.calls + AssistantCalls(ms)
    decreases |ms|
  {
    hide WellNamed;
    if ms != [] {
      var next := ScanStep(s, ms[0]).value;
      ScanCollects(next, ms[1..]);
      var own: seq<seq<ToolCall>> := if ms[0].role.Assistant? then [ms[0].toolCalls] else [];
      assert next.calls == s.calls + own;
      assert (s.calls + own) + AssistantCalls(ms[1..]) == s.calls + (own + AssistantCalls(ms[1..]));
    } else {
      assert s.calls + [] == s.calls;
    }
  }

  /** What is accepted depends on the calls still open only. */
  lemma {:induction false} ScanTransfers(s: Scan, t: Scan, ms: seq<Message>)
    requires s.unanswered == t.unanswered
    ensures ScanAll(s, ms).Some? <==> ScanAll(t, ms).Some?
    ensures ScanAll(s, ms).Some? ==> ScanAll(s, ms).value.unanswered == ScanAll(t, ms).value.unanswered
    decreases |ms|
  {
    hide WellNamed;
    if ms != [] && ScanStep(s, ms[0]).Some? {
      ScanTransfers(ScanStep(s, ms[0]).value, ScanStep(t, ms[0]).value, ms[1..]);
    }
  }

  lemma {:induction false} ScanBounded(s: Scan, ms: seq<Message>, bound: int)
    requires ScanAll(s, ms).Some? && s.lastTurn < bound && forall m | m in ms :: LastTurn(m.toolCalls) < bound
    ensures ScanAll(s, ms).value.lastTurn < bound
    decreases |ms|
  {
    hide WellNamed, LastTurn;
    if ms != [] {
      assert ms[0] in ms;
      StepTurn(s, ms[0]);
      ScanBounded(ScanStep(s, ms[0]).value, ms[1..], bound);
    }
  }

  lemma {:induction false} ScanByShape(s: Scan, a: seq<Message>, b: seq<Message>)
    requires History.SameShapes(a, b)
    ensures ScanAll(s, a) == ScanAll(s, b)
    decreases |a|
  {
    if a != [] {
      assert History.SameShape(a[0], b[0]);
      assert ScanStep(s, a[0]) == ScanStep(s, b[0]);
      hide ScanStep;
      History.ShapesSplit(a, b, 1);
      if ScanStep(s, a[0]).Some? {
        ScanByShape(ScanStep(s, a[0]).value, a[1..], b[1..]);
      }
    }
  }

  /** Every group of an accepted history is accepted on its own. */
  lemma {:induction false} GroupsAccepted(c: FitContext.Costs, s: Scan, gs: seq<FitContext.ContextGroup>, g: FitContext.ContextGroup)
    requires FitContext.Sound(c, gs) && s.unanswered == [] && ScanAll(s, FitContext.Contents(gs)).Some? && g in gs
    ensures ScanAll(START, g.messages).Some? && ScanAll(START, g.messages).value.unanswered == []
    decreases |gs|
  {
    hide History.ValidGroup, ScanAll, FitContext.Priced;
    FitContext.SoundParts(c, gs);
    ScanConcat(s, gs[0].messages, FitContext.Contents(gs[1..]));
    ScanWholeGroup(s, gs[0].messages);
    ScanTransfers(s, START, gs[0].messages);
    if g != gs[0] {
      GroupsAccepted(c, ScanAll(s, gs[0].messages).value, gs[1..], g);
    }
  }

  lemma {:induction false} ContentsAccepted(s: Scan, gs: seq<FitContext.ContextGroup>)
    requires s.unanswered == []
    requires forall g | g in gs :: ScanAll(START, g.messages).Some? && ScanAll(START, g.messages).value.unanswered == []
    ensures ScanAll(s, FitContext.Contents(gs)).Some? && ScanAll(s, FitContext.Contents(gs)).value.unanswered == []
    decreases |gs|
  {
    hide ScanStep;
    if gs != [] {
      assert gs[0] in gs;
      ScanTransfers(s, START, gs[0].messages);
      ScanConcat(s, gs[0].messages, FitContext.Contents(gs[1..]));
      ContentsAccepted(ScanAll(s, gs[0].messages).value, gs[1..]);
    }
  }

  /* ---------- fitted histories ---------- */

  lemma {:induction false} LastTurnWithin(calls: seq<ToolCall>, bound: int)
    requires 0 <= bound && forall c | c in calls :: TurnOf(c) < bound
    ensures LastTurn(calls) < bound
  {
    if calls != [] {
      LastTurnWithin(calls[..|calls| - 1], bound);
    }
  }

  lemma TurnsOfMembers(ms: seq<Message>, m: Message)
    requires m in ms
    ensures LastTurn(m.toolCalls) < NextToolTurn(ms)
  {
    hide LastTurn;
    assert forall x, c | x in ms && c in x.toolCalls :: TurnOf(c) < NextToolTurn(ms);
    LastTurnWithin(m.toolCalls, NextToolTurn(ms));
  }

  lemma {:induction false} NextTurnWithin(ms: seq<Message>, bound: int)
    requires 0 <= bound && forall m | m in ms :: LastTurn(m.toolCalls) < bound
    ensures NextToolTurn(ms) <= bound
  {
    hide LastTurn;
    if ms != [] {
      assert ms[|ms| - 1] in ms;
      NextTurnWithin(ms[..|ms| - 1], bound);
    }
  }

  /** A fitted history is accepted by the analysis, with no call open and no new turn. */
  lemma FittedScans(c: FitContext.Costs, history: seq<Message>, target: int, turn: int, calls: seq<seq<ToolCall>>)
    requires Settled(history, calls, turn) && FitContext.Fit(c, history, target).Ok?
    ensures var ms := FitContext.Fit(c, history, target).value;
      Settled(ms, AssistantCalls(ms), turn)
  {
    hide ScanAll, NextToolTurn, LastTurn, History.CompleteTurns, FitContext.ContextGroups, FitContext.Sound, FitContext.Drop,
      FitContext.Contents, FitContext.TrimFrom, FitContext.Priced, History.CachePrefix, FitContext.TrimmedTo, History.SameShapes;
    assert history[0..] == history;
    var gs := FitContext.ContextGroups(c, history, History.CachePrefix(history), 0).value;
    var survivors := FitContext.Survivors(c, history, target).value;
    var kept, ms := FitContext.Contents(survivors), FitContext.Fit(c, history, target).value;
    FitContext.GroupsSound(c, history, History.CachePrefix(history), 0);
    FitContext.ProtectedSurvive(gs, FitContext.Cost(gs), target);
    forall g | g in survivors ensures ScanAll(START, g.messages).Some? && ScanAll(START, g.messages).value.unanswered == [] {
      GroupsAccepted(c, START, gs, g);
    }
    ContentsAccepted(START, survivors);
    FitContext.SurvivorsSound(c, gs, FitContext.Cost(gs), target);
    FitContext.ContentsSound(c, survivors);
    FitContext.PrefixKept(c, history, target);
    FitContext.TrimKeeps(c, kept, History.CachePrefix(kept), FitContext.Cost(survivors), target);
    ScanByShape(START, kept, ms);
    ScanCollects(START, ms);
    assert [] + AssistantCalls(ms) == AssistantCalls(ms);
    forall m | m in ms ensures LastTurn(m.toolCalls) < NextToolTurn(history) {
      KeptCalls(c, gs, FitContext.Cost(gs), target, history, ms, m);
    }
    NextTurnWithin(ms, NextToolTurn(history));
  }

  lemma KeptCalls(c: FitContext.Costs, gs: seq<FitContext.ContextGroup>, total: int, target: int, history: seq<Message>, ms: seq<Message>, m: Message)
    requires FitContext.Contents(gs) == history && m in ms
    requires History.SameShapes(FitContext.Contents(FitContext.Drop(gs, total, target)), ms)
    ensures LastTurn(m.toolCalls) < NextToolTurn(history)
  {
    hide FitContext.Contents, FitContext.Drop, LastTurn, NextToolTurn;
    var kept := FitContext.Contents(FitContext.Drop(gs, total, target));
    var i :| 0 <= i < |ms| && ms[i] == m;
    assert History.SameShape(kept[i], m) && kept[i] in kept;
    FitContext.DroppedFrom(gs, total, target, kept[i]);
    TurnsOfMembers(history, kept[i]);
  }

  /** The assistant messages the run's steps belong to are all left, in place. */
  predicate StepsKept(before: seq<Message>, after: seq<Message>, n: nat) {
    && n <= |AssistantCalls(before)| && n <= |AssistantCalls(after)|
    && Last(AssistantCalls(after), n) == Last(AssistantCalls(before), n)
  }

  lemma CallsAreAssistants(s: State)
    requires Good(s)
    ensures CallsOf(s) == AssistantCalls(s.messages)
  {
    hide ScanAll, NextToolTurn;
    ScanCollects(START, s.messages);
    assert [] + AssistantCalls(s.messages) == AssistantCalls(s.messages);
  }

  lemma GoodSettles(s: State)
    requires Good(s)
    ensures Settled(s.messages, CallsOf(s), s.turn) && Balanced(s, CallsOf(s)) && Continuing(s)
    ensures |s.steps| <= |CallsOf(s)|
  {
    hide ScanAll, NextToolTurn, LedgerValid;
  }

  lemma KeepsMeansKept(s: State, ms: seq<Message>)
    requires Good(s) && Settled(ms, AssistantCalls(ms), s.turn)
    ensures Aligned(ms, CallsOf(s), |s.steps|, s.turn) <==> StepsKept(s.messages, ms, |s.steps|)
    ensures KeepsAnswers(ms, CallsOf(s), |s.steps|, s.turn) <==> StepsKept(s.messages, ms, |s.steps|)
  {
    hide ScanAll, NextToolTurn, Last, Good;
    CallsAreAssistants(s);
    GoodSettles(s);
    TurnsBelow(ms, s.turn);
  }

  /** After a fit the run may go on if and only if the answers of all its steps are left. */
  lemma FitContinuesIff(s: State, c: FitContext.Costs, target: int)
    requires Good(s) && FitContext.Fit(c, s.messages, target).Ok?
    ensures var ms := FitContext.Fit(c, s.messages, target).value;
      ValidContinuation(Snapshot(s.(messages := ms), Ready)) <==> StepsKept(s.messages, ms, |s.steps|)
  {
    hide Good, Balanced, ScanAll, NextToolTurn, Settled, KeepsAnswers, Aligned, StepsKept, CallsOf, AssistantCalls, ValidContinuation, FitContext.Fit;
    var ms := FitContext.Fit(c, s.messages, target).value;
    GoodSettles(s);
    FittedScans(c, s.messages, target, s.turn, CallsOf(s));
    KeepsMeansKept(s, ms);
    ReadyValidIff(s, CallsOf(s), ms);
  }

  /** Fitting as a compactor: it deletes, and costs nothing. */
  function FittingCompactor(c: FitContext.Costs): Compactor {
    (history: seq<Message>, target: int, _: nat) =>
      var fitted := FitContext.Fit(c, history, target);
      if fitted.Ok? then Compacted(fitted.value, ZERO) else CompactionFailed(ZERO)
  }

  /** It is a compactor the loop's invariant survives exactly where it keeps those answers. */
  lemma FittingOkIff(s: State, c: FitContext.Costs, target: int, freshInputs: nat)
    requires Good(s)
    ensures CompactorOk(s, FittingCompactor(c), target, freshInputs) <==>
      var fitted := FitContext.Fit(c, s.messages, target);
      fitted.Ok? ==> StepsKept(s.messages, fitted.value, |s.steps|)
  {
    hide Good, Balanced, ScanAll, NextToolTurn, Settled, Aligned, StepsKept, CallsOf, AssistantCalls, FitContext.Fit, History.ArchivesTo;
    var fitted := FitContext.Fit(c, s.messages, target);
    if fitted.Ok? {
      GoodSettles(s);
      FittedScans(c, s.messages, target, s.turn, CallsOf(s));
      KeepsMeansKept(s, fitted.value);
      FittedWasComplete(c, s.messages, target);
      if History.ArchivesTo(s.messages, fitted.value) {
        ArchiveKeepsSettled(s.messages, fitted.value, CallsOf(s), s.turn);
        SettledAligned(fitted.value, CallsOf(s), |s.steps|, s.turn);
      }
    }
  }

  lemma FittedWasComplete(c: FitContext.Costs, history: seq<Message>, target: int)
    requires FitContext.Fit(c, history, target).Ok?
    ensures History.CompleteTurns(history)
  {
    hide History.CompleteTurns;
  }
}
