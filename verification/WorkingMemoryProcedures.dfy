/**
 Working memory as the program runs it, over arrays it fills and a history it archives in place.
 */
module WorkingMemoryProcedures {
  import opened Wrappers
  import opened Messages
  import opened TokenUsage
  import opened History
  import opened WorkingMemory
  import opened ArchiveProofs

  /* ---------- the procedures ---------- */

  datatype Span = Span(start: nat, end: nat)

  function Spans(view: seq<Message>, o: nat): seq<Span>
    requires o <= |view|
    decreases |view| - o
  {
    if o == |view| then []
    else [Span(o, o + |GroupAt(view, o)|)] + Spans(view, o + |GroupAt(view, o)|)
  }

  /** The spans tile the view from `o` on, group by group. */
  lemma {:induction false} SpansTile(view: seq<Message>, o: nat)
    requires o <= |view|
    ensures var spans := Spans(view, o);
      && (spans == [] <==> o == |view|)
      && (forall i :: 0 <= i < |spans| ==>
            spans[i].start < |view| && spans[i].end == spans[i].start + |GroupAt(view, spans[i].start)|)
      && (forall i :: 0 < i < |spans| ==> spans[i].start == spans[i - 1].end)
      && (spans != [] ==> spans[0].start == o && spans[|spans| - 1].end == |view|)
    decreases |view| - o
  {
    hide GroupAt;
    if o < |view| {
      var spans, rest := Spans(view, o), Spans(view, o + |GroupAt(view, o)|);
      assert spans == [Span(o, o + |GroupAt(view, o)|)] + rest;
      SpansTile(view, o + |GroupAt(view, o)|);
      hide Spans;
      forall i | 0 <= i < |spans|
        ensures spans[i].start < |view| && spans[i].end == spans[i].start + |GroupAt(view, spans[i].start)|
        ensures i > 0 ==> spans[i].start == spans[i - 1].end
      {
        if i > 0 {
          assert spans[i] == rest[i - 1];
          assert i > 1 ==> spans[i - 1] == rest[i - 2];
        }
      }
    }
  }

  /** In a complete history a tool turn ends where its tool messages end. */
  lemma ToolTurnEnds(view: seq<Message>, o: nat)
    requires o < |view| && CompleteTurns(view[o..])
    ensures var e := o + |GroupAt(view, o)|;
      && CompleteTurns(view[e..])
      && (forall i :: o < i < e ==> view[i].role.Tool?)
      && (e < |view| ==> !view[e].role.Tool?)
      && (e > o + 1 <==> view[o].role.Assistant? && view[o].toolCalls != [])
  {
    hide ValidGroup;
    var w := Width(view[o..]);
    WidthOfComplete(view[o..]);
    GroupRoles(view, o);
    assert view[o..][w..] == view[o + w..] && view[o..][..w] == GroupAt(view, o);
    forall i | o < i < o + w ensures view[i].role.Tool? {
      ResultsAreTools(GroupAt(view, o), i - o);
    }
    if o + w < |view| {
      GroupRoles(view, o + w);
    }
  }

  lemma GroupRoles(view: seq<Message>, o: nat)
    requires o < |view| && CompleteTurns(view[o..])
    ensures !view[o].role.Tool? && (view[o].toolCalls != [] ==> view[o].role.Assistant?)
  {
    assert view[o..][..Width(view[o..])][0] == view[o];
  }

  method WorkingMemoryGroups(view: seq<Message>) returns (groups: seq<Span>)
    requires CompleteTurns(view)
    ensures groups == Spans(view, 0)
  {
    hide CompleteTurns, GroupAt;
    groups := [];
    var index := 0;
    assert view[0..] == view;
    while index < |view|
      invariant index <= |view| && CompleteTurns(view[index..])
      invariant Spans(view, 0) == groups + Spans(view, index)
    {
      ToolTurnEnds(view, index);
      var end := index + 1;
      if view[index].role.Assistant? && view[index].toolCalls != [] {
        while end < |view| && view[end].role.Tool?
          invariant index < end <= index + |GroupAt(view, index)|
        {
          end := end + 1;
        }
      }
      groups := groups + [Span(index, end)];
      index := end;
    }
  }

  lemma {:induction false} EligibleShrinks(view: seq<Message>, p: nat, i: nat, j: nat)
    requires i <= j < |Spans(view, 0)|
    ensures var spans := Spans(view, 0);
      && spans[i].end <= |view| && spans[j].start < |view| && spans[j].end <= |view|
      && EligibleFrom(view, p, spans[j].end) <= EligibleFrom(view, p, spans[i].end)
      && (UserTurn(view, p, spans[j].start) ==> UserTurnFrom(view, p, spans[j].start))
      && (UserTurnFrom(view, p, spans[j].end) ==> UserTurnFrom(view, p, spans[i].end))
    decreases j - i
  {
    hide GroupAt, Spans, Eligible, UserTurn;
    SpansTile(view, 0);
    if i < j {
      EligibleShrinks(view, p, i + 1, j);
    }
  }

  /** What the two backward walks know of the group they look at. */
  lemma GroupCounts(view: seq<Message>, p: nat, o: nat)
    requires o < |view|
    ensures var e := o + |GroupAt(view, o)|;
      && EligibleFrom(view, p, o) == (if Eligible(view, p, o) then 1 else 0) + EligibleFrom(view, p, e)
      && UserTurnFrom(view, p, o) == (UserTurn(view, p, o) || UserTurnFrom(view, p, e))
    ensures EligibleFrom(view, p, |view|) == 0 && !UserTurnFrom(view, p, |view|)
  {
    hide GroupAt, Eligible, UserTurn;
  }

  /** Where the walk stands after having looked at the groups from `index` on. */
  function StartOrEnd(view: seq<Message>, groups: seq<Span>, index: nat): nat
    requires index <= |groups|
  {
    if index < |groups| then groups[index].start else |view|
  }

  method SelectRecent(view: seq<Message>, groups: seq<Span>, prefixEnd: nat, recentTurns: nat) returns (selected: array<bool>)
    requires groups == Spans(view, 0)
    ensures fresh(selected) && selected.Length == |groups|
    ensures forall i :: 0 <= i < |groups| ==>
      groups[i].start < |view| && groups[i].end <= |view| &&
      selected[i] == (Eligible(view, prefixEnd, groups[i].start) && EligibleFrom(view, prefixEnd, groups[i].end) < recentTurns)
  {
    hide Spans, GroupAt, Eligible, EligibleFrom, UserTurnFrom;
    SpansTile(view, 0);
    selected := new bool[|groups|](_ => false);
    var turns, index := 0, |groups| - 1;
    if groups != [] {
      GroupCounts(view, prefixEnd, groups[0].start);
    } else {
      return;
    }
    while index >= 0 && turns < recentTurns
      invariant -1 <= index < |groups| && StartOrEnd(view, groups, index + 1) <= |view|
      invariant turns == EligibleFrom(view, prefixEnd, StartOrEnd(view, groups, index + 1)) <= recentTurns
      invariant forall i :: 0 <= i <= index ==> !selected[i]
      invariant forall i :: index < i < |groups| ==>
        selected[i] == (Eligible(view, prefixEnd, groups[i].start) && EligibleFrom(view, prefixEnd, groups[i].end) < recentTurns)
    {
      var group := groups[index];
      assert StartOrEnd(view, groups, index + 1) == group.end;
      GroupCounts(view, prefixEnd, group.start);
      if Eligible(view, prefixEnd, group.start) {
        selected[index] := true;
        turns := turns + 1;
      }
      index := index - 1;
    }
    if index >= 0 {
      assert StartOrEnd(view, groups, index + 1) == groups[index].end;
      forall i | 0 <= i <= index ensures EligibleFrom(view, prefixEnd, groups[i].end) >= recentTurns {
        EligibleShrinks(view, prefixEnd, i, index);
      }
    }
  }

  /** Selects the latest group after the prefix that holds a user message. */
  method SelectLatestUser(view: seq<Message>, groups: seq<Span>, prefixEnd: nat, selected: array<bool>)
    requires groups == Spans(view, 0) && selected.Length == |groups|
    modifies selected
    ensures forall i :: 0 <= i < |groups| ==>
      groups[i].start < |view| && groups[i].end <= |view| &&
      selected[i] == (old(selected[i]) || (UserTurn(view, prefixEnd, groups[i].start) && !UserTurnFrom(view, prefixEnd, groups[i].end)))
  {
    hide Spans, GroupAt, UserTurn, EligibleFrom, UserTurnFrom;
    SpansTile(view, 0);
    if groups == [] {
      return;
    }
    GroupCounts(view, prefixEnd, groups[0].start);
    var index := |groups| - 1;
    while index >= 0
      invariant -1 <= index < |groups| && StartOrEnd(view, groups, index + 1) <= |view|
      invariant !UserTurnFrom(view, prefixEnd, StartOrEnd(view, groups, index + 1))
      invariant forall i :: index < i < |groups| ==> !UserTurn(view, prefixEnd, groups[i].start)
      invariant forall i :: 0 <= i < |groups| ==> selected[i] == old(selected[i])
    {
      assert StartOrEnd(view, groups, index + 1) == groups[index].end;
      GroupCounts(view, prefixEnd, groups[index].start);
      if UserTurn(view, prefixEnd, groups[index].start) {
        selected[index] := true;
        forall i | 0 <= i < index ensures UserTurnFrom(view, prefixEnd, groups[i].end) {
          EligibleShrinks(view, prefixEnd, i, index - 1);
          assert groups[index - 1].end == groups[index].start;
        }
        return;
      }
      index := index - 1;
    }
  }

  lemma {:induction false} PickConcat(a: seq<Message>, b: seq<Message>, fa: seq<bool>, fb: seq<bool>, value: bool)
    requires |a| == |fa| && |b| == |fb|
    ensures Pick(a + b, fa + fb, value) == Pick(a, fa, value) + Pick(b, fb, value)
  {
    hide Pick;
    if a == [] {
      assert a + b == b && fa + fb == fb && Pick(a, fa, value) == [] by { PickNone(value); }
    } else {
      var m, rest, flag, later := a[0], a[1..], fa[0], fa[1..];
      assert a == [m] + rest && fa == [flag] + later;
      Reassociate(m, rest, b);
      Reassociate(flag, later, fb);
      PickConcat(rest, b, later, fb, value);
      PickCons(m, rest, flag, later, value);
      PickCons(m, rest + b, flag, later + fb, value);
      Reassociate(m, Pick(rest, later, value), Pick(b, fb, value));
    }
  }

  lemma PickNone(value: bool)
    ensures Pick([], [], value) == []
  {
  }

  lemma {:induction false} PickSame(g: seq<Message>, flags: seq<bool>, flag: bool, value: bool)
    requires |g| == |flags| && forall i :: 0 <= i < |g| ==> flags[i] == flag
    ensures Pick(g, flags, value) == if flag == value then g else []
  {
    if g != [] {
      PickSame(g[1..], flags[1..], flag, value);
      assert g == [g[0]] + g[1..];
    }
  }

  /** One group of the final walk: its flags and what it adds to the archived messages. */
  lemma GroupFlagged(view: seq<Message>, p: nat, recent: nat, o: nat, flags: seq<bool>)
    requires o < |view|
    requires flags == seq(|GroupAt(view, o)|, _ => !Keeps(view, p, recent, o))
    ensures Flags(view, p, recent, o) == flags + Flags(view, p, recent, o + |GroupAt(view, o)|)
    ensures Pick(GroupAt(view, o), flags, true) == if Keeps(view, p, recent, o) then [] else GroupAt(view, o)
  {
    hide Keeps, GroupAt, Pick;
    PickSame(GroupAt(view, o), flags, !Keeps(view, p, recent, o), true);
  }

  lemma GroupSlice(view: seq<Message>, o: nat)
    requires o < |view|
    ensures GroupAt(view, o) == view[o..o + |GroupAt(view, o)|]
  {
  }

  /** The walk that collects what is archived has reached position `o`. */
  predicate ArchivedTo(view: seq<Message>, p: nat, recent: nat, o: nat, archived: seq<bool>, stale: seq<Message>) {
    && o <= |view| == |archived|
    && archived[..o] + Flags(view, p, recent, o) == Flags(view, p, recent, 0)
    && stale == Pick(view[..o], archived[..o], true)
    && forall i :: o <= i < |view| ==> !archived[i]
  }

  lemma ArchiveNext(view: seq<Message>, p: nat, recent: nat, o: nat, before: seq<bool>, archived: seq<bool>, stale: seq<Message>)
    requires o < |view| && ArchivedTo(view, p, recent, o, before, stale)
    requires var e := o + |GroupAt(view, o)|;
      if Keeps(view, p, recent, o) then archived == before
      else |archived| == |view| && archived[..o] == before[..o] && archived[e..] == before[e..] && forall i :: o <= i < e ==> archived[i]
    ensures var e := o + |GroupAt(view, o)|;
      ArchivedTo(view, p, recent, e, archived, if Keeps(view, p, recent, o) then stale else stale + view[o..e])
  {
    hide Keeps, GroupAt, Flags, Pick;
    var e := o + |GroupAt(view, o)|;
    GroupSlice(view, o);
    GroupFlagged(view, p, recent, o, archived[o..e]);
    assert view[..e] == view[..o] + view[o..e] && archived[..e] == archived[..o] + archived[o..e];
    assert archived[..o] == before[..o];
    PickConcat(view[..o], view[o..e], archived[..o], archived[o..e], true);
    forall i | e <= i < |view| ensures !archived[i] {
      assert archived[e..][i - e] == before[e..][i - e];
    }
  }

  lemma NothingArchived(view: seq<Message>, p: nat, recent: nat, archived: seq<bool>)
    requires |archived| == |view| && forall i :: 0 <= i < |view| ==> !archived[i]
    ensures ArchivedTo(view, p, recent, 0, archived, [])
  {
    assert archived[..0] == [] && view[..0] == [];
  }

  lemma AllArchived(view: seq<Message>, p: nat, recent: nat, archived: seq<bool>, stale: seq<Message>)
    requires ArchivedTo(view, p, recent, |view|, archived, stale)
    ensures archived == Flags(view, p, recent, 0) && stale == Pick(view, archived, true)
  {
    assert archived[..|view|] == archived && view[..|view|] == view && archived + [] == archived;
  }

  method SplitGroups(view: seq<Message>, groups: seq<Span>, prefixEnd: nat, turns: nat) returns (stale: seq<Message>, archived: array<bool>)
    requires groups == Spans(view, 0)
    ensures fresh(archived) && archived[..] == Flags(view, prefixEnd, if turns <= 0 then 2 else turns, 0)
    ensures stale == Pick(view, archived[..], true)
  {
    hide Spans, GroupAt, Eligible, EligibleFrom, UserTurn, UserTurnFrom, Flags, Pick, ProtectedInstructions, ArchivedTo;
    var recentTurns := if turns <= 0 then 2 else turns;
    var selected := SelectRecent(view, groups, prefixEnd, recentTurns);
    SelectLatestUser(view, groups, prefixEnd, selected);
    SpansTile(view, 0);
    archived := new bool[|view|](_ => false);
    stale := [];
    NothingArchived(view, prefixEnd, recentTurns, archived[..]);
    assert if groups == [] then |view| == 0 else groups[0].start == 0;
    var index := 0;
    while index < |groups|
      invariant index <= |groups|
      invariant ArchivedTo(view, prefixEnd, recentTurns, if index < |groups| then groups[index].start else |view|, archived[..], stale)
      modifies archived
    {
      var group := groups[index];
      ghost var before, collected := archived[..], stale;
      GroupSlice(view, group.start);
      if group.start >= prefixEnd && !selected[index] && !ProtectedInstructions(view[group.start..group.end]) {
        stale := stale + view[group.start..group.end];
        forall position | group.start <= position < group.end {
          archived[position] := true;
        }
      }
      ArchiveNext(view, prefixEnd, recentTurns, group.start, before, archived[..], collected);
      index := index + 1;
    }
    AllArchived(view, prefixEnd, recentTurns, archived[..], stale);
  }

  lemma MarkNext(ms: seq<Message>, flags: seq<bool>, p: nat)
    requires |flags| == |ContextView(ms)| && ms != []
    ensures var later := if ms[0].archived then flags else flags[1..];
      && (!ms[0].archived ==> flags != [])
      && |later| == |ContextView(ms[1..])|
      && Mark(ms, flags) == [if ms[0].archived then ms[0] else ms[0].(archived := flags[0])] + Mark(ms[1..], later)
      && InsertAt(ms, flags, p) ==
           if !ms[0].archived && p == 0 && !flags[0] then 0
           else 1 + InsertAt(ms[1..], later, if ms[0].archived then p else Max(0, p - 1))
  {
    hide ContextView, Mark, InsertAt;
    assert ms == [ms[0]] + ms[1..];
    MarkCons(ms[0], ms[1..], flags);
    InsertCons(ms[0], ms[1..], flags, p);
  }

  /** The walk that writes the flags has reached position `index`, having passed
      `visibleIndex` visible messages; `insertAt` is still the end until a place is found. */
  predicate Progress(whole: seq<Message>, flags: seq<bool>, p: nat, index: nat, visibleIndex: nat, insertAt: nat, buffer: seq<Message>)
    requires |flags| == |ContextView(whole)|
  {
    && index <= |whole| == |buffer| && visibleIndex <= |flags| && insertAt <= |whole|
    && |flags[visibleIndex..]| == |ContextView(whole[index..])|
    && buffer[index..] == whole[index..]
    && buffer[..index] + Mark(whole[index..], flags[visibleIndex..]) == Mark(whole, flags)
    && (if insertAt < |whole| then insertAt == InsertAt(whole, flags, p)
        else InsertAt(whole, flags, p) == index + InsertAt(whole[index..], flags[visibleIndex..], Max(0, p - visibleIndex)))
  }

  lemma ProgressStarts(whole: seq<Message>, flags: seq<bool>, p: nat)
    requires |flags| == |ContextView(whole)|
    ensures Progress(whole, flags, p, 0, 0, |whole|, whole)
  {
    assert whole[0..] == whole && flags[0..] == flags && whole[..0] == [];
  }

  lemma ProgressArchived(whole: seq<Message>, flags: seq<bool>, p: nat, index: nat, v: nat, insertAt: nat, buffer: seq<Message>)
    requires |flags| == |ContextView(whole)| && Progress(whole, flags, p, index, v, insertAt, buffer)
    requires index < |whole| && buffer[index].archived
    ensures Progress(whole, flags, p, index + 1, v, insertAt, buffer)
  {
    hide ContextView, Mark, InsertAt;
    assert buffer[index] == buffer[index..][0] == whole[index..][0];
    MarkNext(whole[index..], flags[v..], Max(0, p - v));
    assert whole[index..][1..] == whole[index + 1..] && buffer[index + 1..] == buffer[index..][1..];
    assert buffer[..index + 1] == buffer[..index] + [buffer[index]];
    Reassociated(buffer[..index], buffer[index], Mark(whole[index + 1..], flags[v..]));
  }

  lemma Reassociated<T>(a: seq<T>, x: T, b: seq<T>)
    ensures (a + [x]) + b == a + ([x] + b)
  {
  }

  lemma ProgressVisible(whole: seq<Message>, flags: seq<bool>, p: nat, index: nat, v: nat, insertAt: nat, buffer: seq<Message>)
    requires |flags| == |ContextView(whole)| && Progress(whole, flags, p, index, v, insertAt, buffer)
    requires index < |whole| && !buffer[index].archived
    ensures v < |flags|
    ensures var next := if v >= p && !flags[v] && insertAt == |whole| then index else insertAt;
      Progress(whole, flags, p, index + 1, v + 1, next, buffer[index := buffer[index].(archived := flags[v])])
  {
    hide ContextView, Mark, InsertAt;
    assert buffer[index] == buffer[index..][0] == whole[index..][0];
    MarkNext(whole[index..], flags[v..], Max(0, p - v));
    assert whole[index..][1..] == whole[index + 1..] && flags[v..][1..] == flags[v + 1..] && flags[v..][0] == flags[v];
    var marked := buffer[index].(archived := flags[v]);
    var after := buffer[index := marked];
    assert after[..index + 1] == buffer[..index] + [marked] && after[index + 1..] == buffer[index..][1..];
    Reassociated(buffer[..index], marked, Mark(whole[index + 1..], flags[v + 1..]));
  }

  lemma ProgressEnds(whole: seq<Message>, flags: seq<bool>, p: nat, v: nat, insertAt: nat, buffer: seq<Message>)
    requires |flags| == |ContextView(whole)| && Progress(whole, flags, p, |whole|, v, insertAt, buffer)
    ensures buffer == Mark(whole, flags) && insertAt == InsertAt(whole, flags, p)
  {
    assert whole[|whole|..] == [] && buffer[..|whole|] == buffer;
  }

  method InsertInPlace(history: array<Message>, n: nat, insertAt: nat, summary: Message)
    requires history.Length == n + 1 && insertAt <= n
    modifies history
    ensures history[..] == Splice(old(history[..n]), insertAt, summary)
  {
    ghost var before := history[..n];
    forall position | insertAt < position <= n {
      history[position] := history[position - 1];
    }
    history[insertAt] := summary;
    assert history[..] == before[..insertAt] + [summary] + before[insertAt..];
  }

  /** Writes the flags over the first `n` messages of the buffer and splices the summary in;
      the buffer has one spare place at its end. */
  method ArchiveWorkingMemory(history: array<Message>, n: nat, archived: array<bool>, prefixEnd: nat, summary: Message)
    requires history.Length == n + 1 && archived.Length == |ContextView(history[..n])|
    modifies history
    ensures var flags := old(archived[..]);
      history[..] == Splice(Mark(old(history[..n]), flags), InsertAt(old(history[..n]), flags, prefixEnd), summary)
  {
    hide ContextView, Mark, InsertAt, Progress;
    ghost var whole, flags := history[..n], archived[..];
    var visibleIndex, insertAt := 0, n;
    ProgressStarts(whole, flags, prefixEnd);
    var index := 0;
    while index < n
      invariant index <= n && insertAt <= n
      invariant Progress(whole, flags, prefixEnd, index, visibleIndex, insertAt, history[..n])
    {
      ghost var buffer := history[..n];
      if history[index].archived {
        ProgressArchived(whole, flags, prefixEnd, index, visibleIndex, insertAt, buffer);
      } else {
        ProgressVisible(whole, flags, prefixEnd, index, visibleIndex, insertAt, buffer);
        if visibleIndex >= prefixEnd && !archived[visibleIndex] && insertAt == n {
          insertAt := index;
        }
        history[index] := history[index].(archived := archived[visibleIndex]);
        assert history[..n] == buffer[index := history[index]];
        visibleIndex := visibleIndex + 1;
      }
      index := index + 1;
    }
    ghost var marked := history[..n];
    ProgressEnds(whole, flags, prefixEnd, visibleIndex, insertAt, marked);
    InsertInPlace(history, n, insertAt, summary);
  }

  method CompactTo(m: Memory, history: seq<Message>, target: int, freshInputs: nat) returns (c: Compaction)
    ensures c == Compact(m, history, target, freshInputs)
  {
    hide CompleteTurns, ContextView, CachePrefix, Flags, Pick, Mark, InsertAt, Spans;
    var complete := ValidateCompleteTurns(history);
    if !complete {
      return Compaction(Err(IncompleteTurns), ZERO);
    }
    if target <= 0 {
      return Compaction(Ok(history), ZERO);
    }
    var visible := ContextView(history);
    var estimate := m.estimate(visible);
    if estimate.None? {
      return Compaction(Err(EstimatorFailed), ZERO);
    }
    if estimate.value <= target {
      return Compaction(Ok(history), ZERO);
    }
    var prefixEnd := CachePrefixBoundary(visible);
    if prefixEnd.None? {
      return Compaction(Err(IncompleteTurns), ZERO);
    }
    var groups := WorkingMemoryGroups(visible);
    var stale, archived := SplitGroups(visible, groups, prefixEnd.value, Max(0, Max(m.recentTurns, freshInputs)));
    if stale == [] {
      return Compaction(Err(TargetMissed), ZERO);
    }
    var answer := m.summarize(stale);
    if answer.SummaryFailed? {
      return Compaction(Err(SummaryUnusable), answer.usage);
    }
    var summary, n := SummaryMessage(answer.text), |history|;
    var original := new Message[n + 1](i => if 0 <= i < n then history[i] else summary);
    assert original[..n] == history;
    ArchiveWorkingMemory(original, n, archived, prefixEnd.value, summary);
    var result := original[..];
    var fitted := m.estimate(ContextView(result));
    if fitted.None? {
      return Compaction(Err(EstimatorFailed), answer.usage);
    }
    if fitted.value > target {
      return Compaction(Err(TargetMissed), answer.usage);
    }
    c := Compaction(Ok(result), answer.usage);
  }
}
