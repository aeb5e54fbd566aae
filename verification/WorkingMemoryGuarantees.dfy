/**
 What a compaction by working memory guarantees about the history it returns.
 */
module WorkingMemoryGuarantees {
  import opened Wrappers
  import opened Messages
  import opened TokenUsage
  import opened History
  import opened WorkingMemory
  import opened ArchiveProofs

  /* ---------- what archiving guarantees ---------- */

  /** The prefix of the view, whose groups are never archived. */
  function ProtectedPrefix(history: seq<Message>): nat {
    CachePrefix(ContextView(history))
  }

  lemma FlagsFit(m: Memory, history: seq<Message>, freshInputs: nat)
    requires CompleteTurns(ContextView(history))
    ensures var view, flags, p := ContextView(history), ArchiveFlags(m, history, freshInputs), ProtectedPrefix(history);
      && |flags| == |view| && p <= |view| && Aligned(view, p)
      && UniformFlags(view, flags)
      && forall i :: 0 <= i < p ==> !flags[i]
  {
    hide CompleteTurns, ContextView, Flags, CachePrefix, UniformFlags;
    var view, p := ContextView(history), ProtectedPrefix(history);
    CachePrefixIsValid(view);
    FlagsAreUniform(view, p, Recent(m, freshInputs), 0);
    assert view[0..] == view;
    forall i | 0 <= i < p ensures !ArchiveFlags(m, history, freshInputs)[i] {
      PrefixIsKept(view, p, Recent(m, freshInputs), i);
    }
  }

  /** Archiving keeps the transcript up to flags and the spliced summary; full and visible
      histories stay complete and no tool group is split; the model sees exactly the
      prefix, the summary and what was not archived. */
  lemma ArchiveIsSound(m: Memory, history: seq<Message>, freshInputs: nat, summary: Message)
    requires CompleteTurns(history) && Uniform(history) && IsSummary(summary) && !summary.archived
    ensures var result, view := Archive(m, history, freshInputs, summary), ContextView(history);
      var flags, p := ArchiveFlags(m, history, freshInputs), ProtectedPrefix(history);
      && |flags| == |view| && p <= |view|
      && CompleteTurns(result) && Uniform(result) && CompleteTurns(ContextView(result))
      && ContextView(result) == ViewAfter(view, flags, p, summary)
      && Splices(history, Mark(history, flags), InsertAt(history, flags, p), summary, result)
  {
    hide CompleteTurns, Uniform, ContextView, Mark, InsertAt, Aligned, UniformFlags, IsSummary, ViewAfter, CachePrefix, SameTranscript, ArchiveFlags;
    ViewIsComplete(history);
    FlagsFit(m, history, freshInputs);
    var flags, p := ArchiveFlags(m, history, freshInputs), ProtectedPrefix(history);
    var marked, k := Mark(history, flags), InsertAt(history, flags, p);
    InsertIsAligned(history, flags, p);
    MarkKeepsTranscript(history, flags);
    MarkKeepsUniform(history, flags);
    CompleteIgnoresFlags(history, marked);
    SpliceIsComplete(marked, k, summary);
    ViewIsComplete(Splice(marked, k, summary));
    ViewOfSplice(history, flags, p, summary);
  }

  /** After the prefix, the only earlier messages of the summary kind the model still sees
      carry instructions or belong to a tool turn; the former all stay. */
  lemma OneSummaryVisible(m: Memory, history: seq<Message>, freshInputs: nat, i: nat)
    requires CompleteTurns(ContextView(history))
    requires var view := ContextView(history);
      ProtectedPrefix(history) <= i < |view| && view[i].kind.CompactionSummary?
    ensures var other, visible := ContextView(history)[i], !ArchiveFlags(m, history, freshInputs)[i];
      && (visible ==> Instructs(other) || other.role.Tool? || other.toolCalls != [])
      && (Instructs(other) && !other.role.Tool? && other.toolCalls == [] ==> visible)
  {
    hide CompleteTurns, ContextView, Flags, CachePrefix;
    var view := ContextView(history);
    if view[i].toolCalls == [] && !view[i].role.Tool? {
      SummaryArchivedIff(view, ProtectedPrefix(history), Recent(m, freshInputs), i);
    }
  }

  /** So of the summaries compaction writes, the model sees the new one only. */
  lemma OldSummariesHidden(m: Memory, history: seq<Message>, freshInputs: nat, other: Message)
    requires CompleteTurns(ContextView(history))
    requires var p, flags := ProtectedPrefix(history), ArchiveFlags(m, history, freshInputs);
      p <= |flags| && other in Pick(ContextView(history)[p..], flags[p..], false)
    ensures !(IsSummary(other) && other.kind.CompactionSummary?)
  {
    hide CompleteTurns, ContextView, Flags, CachePrefix, Pick, ArchiveFlags;
    var p, flags := ProtectedPrefix(history), ArchiveFlags(m, history, freshInputs);
    var i := PickIn(ContextView(history)[p..], flags[p..], false, other);
    if other.kind.CompactionSummary? {
      OneSummaryVisible(m, history, freshInputs, p + i);
    }
  }

  /** The smallest case of a summary that stays: instructions with the summary kind. */
  lemma InstructionsOutliveSummaries(m: Memory, note: Message, user: Message)
    requires note == NewText(System, "keep").(kind := CompactionSummary) && user == NewText(User, "go")
    ensures ArchiveFlags(m, [note, user], 1) == [false, false]
  {
    var view := [note, user];
    assert ContextView(view[1..]) == [user] by { assert ContextView(view[1..][1..]) == []; }
    assert ContextView(view) == view;
    var p, recent := CachePrefix(view), Recent(m, 1);
    assert GroupAt(view, 0) == [note] && GroupAt(view, 1) == [user];
    assert GroupAt(view, 0)[0].role.System?;
    assert EligibleFrom(view, p, 2) == 0;
    assert !UserTurnFrom(view, p, 2) && GroupAt(view, 1)[0].role.User?;
    assert Flags(view, p, recent, 2) == [];
    assert Flags(view, p, recent, 1) == [!Keeps(view, p, recent, 1)] + [];
    assert Keeps(view, p, recent, 1);
  }

  predicate FreshInput(x: Message) {
    !x.role.Tool? && x.toolCalls == [] && x.toolResult.None? && !x.archived && !x.kind.CompactionSummary?
  }

  lemma ViewOfInputs(earlier: seq<Message>, inputs: seq<Message>)
    requires forall x | x in inputs :: FreshInput(x)
    ensures ContextView(earlier + inputs) == ContextView(earlier) + inputs
  {
    hide ContextView;
    ContextViewConcat(earlier, inputs);
    assert forall i :: 0 <= i < |inputs| ==> FreshInput(inputs[i]);
    ViewOfUniform(inputs);
  }

  lemma FreshInputsUnflagged(m: Memory, earlier: seq<Message>, inputs: seq<Message>, i: nat)
    requires CompleteTurns(ContextView(earlier + inputs))
    requires (forall x | x in inputs :: FreshInput(x)) && i < |inputs|
    ensures var n := |ContextView(earlier)|;
      n + i < |ArchiveFlags(m, earlier + inputs, |inputs|)| && !ArchiveFlags(m, earlier + inputs, |inputs|)[n + i]
  {
    hide CompleteTurns, ContextView, Flags, CachePrefix;
    ViewOfInputs(earlier, inputs);
    var view := ContextView(earlier + inputs);
    assert view[|ContextView(earlier)| + i] == inputs[i] && inputs[i] in inputs;
    InputStays(view, ProtectedPrefix(earlier + inputs), Recent(m, |inputs|), |ContextView(earlier)| + i);
  }

  /** The inputs admitted since the last model call reach the model unchanged, at the end. */
  lemma FreshInputsStayLast(m: Memory, earlier: seq<Message>, inputs: seq<Message>, summary: Message)
    requires CompleteTurns(earlier) && Uniform(earlier) && forall x | x in inputs :: FreshInput(x)
    requires true in ArchiveFlags(m, earlier + inputs, |inputs|)
    ensures var result := Archive(m, earlier + inputs, |inputs|, summary);
      |inputs| <= |result| && result[|result| - |inputs|..] == inputs
  {
    hide CompleteTurns, Uniform, ContextView, ArchiveFlags, CachePrefix, Mark, InsertAt, UniformFlags, Aligned, FreshInput;
    var history, n := earlier + inputs, |ContextView(earlier)|;
    InputsExtend(earlier, inputs);
    ViewIsComplete(history);
    FlagsFit(m, history, |inputs|);
    ViewOfInputs(earlier, inputs);
    var flags, p := ArchiveFlags(m, history, |inputs|), ProtectedPrefix(history);
    forall i | n <= i < |flags| ensures !flags[i] {
      FreshInputsUnflagged(m, earlier, inputs, i - n);
    }
    MarkOfInputs(inputs, flags[n..]);
    MarkConcat(earlier, inputs, flags[..n], flags[n..]);
    assert flags == flags[..n] + flags[n..];
    InsertBefore(earlier, inputs, flags, p);
  }

  lemma MarkOfInputs(inputs: seq<Message>, flags: seq<bool>)
    requires (forall x | x in inputs :: FreshInput(x)) && |flags| == |inputs| && forall i :: 0 <= i < |flags| ==> !flags[i]
    ensures ContextView(inputs) == inputs && Mark(inputs, flags) == inputs
  {
    hide ContextView, Mark;
    assert forall i :: 0 <= i < |inputs| ==> FreshInput(inputs[i]);
    MarkOfVisible(inputs, flags);
  }

  lemma ViewReachesInputs(earlier: seq<Message>, inputs: seq<Message>, k: nat)
    requires (forall x | x in inputs :: FreshInput(x)) && |earlier| < k <= |earlier + inputs|
    ensures |ContextView((earlier + inputs)[..k])| == |ContextView(earlier)| + (k - |earlier|)
  {
    hide ContextView, FreshInput;
    var some := inputs[..k - |earlier|];
    assert (earlier + inputs)[..k] == earlier + some;
    ViewOfInputs(earlier, some);
  }

  /** The insertion point is not inside a tail that is visible, kept and past the prefix. */
  lemma InsertBefore(earlier: seq<Message>, inputs: seq<Message>, flags: seq<bool>, p: nat)
    requires forall x | x in inputs :: FreshInput(x)
    requires |flags| == |ContextView(earlier + inputs)| && p <= |ContextView(earlier)| <= |flags|
    requires forall i :: |ContextView(earlier)| <= i < |flags| ==> !flags[i]
    ensures InsertAt(earlier + inputs, flags, p) <= |earlier|
  {
    hide ContextView, InsertAt, FreshInput;
    var ms, k, n := earlier + inputs, InsertAt(earlier + inputs, flags, p), |ContextView(earlier)|;
    InsertAtIsInsertPoint(ms, flags, p);
    var archived := n < |flags| && flags[n];
    if k > |earlier| {
      ViewReachesInputs(earlier, inputs, k);
    }
  }

  lemma {:induction false} InputsExtend(earlier: seq<Message>, inputs: seq<Message>)
    requires CompleteTurns(earlier) && Uniform(earlier)
    requires forall x | x in inputs :: FreshInput(x)
    ensures CompleteTurns(earlier + inputs) && Uniform(earlier + inputs)
    decreases |inputs|
  {
    hide CompleteTurns, Uniform;
    if inputs == [] {
      assert earlier + inputs == earlier;
    } else {
      var x := inputs[0];
      InputStands(x);
      StaysComplete(earlier, [x]);
      UniformConcat(earlier, [x]);
      InputsExtend(earlier + [x], inputs[1..]);
      assert earlier + inputs == (earlier + [x]) + inputs[1..];
    }
  }

  lemma InputStands(x: Message)
    requires FreshInput(x)
    ensures CompleteTurns([x]) && Uniform([x])
  {
    assert [x][1..] == [] && [x][..1] == [x];
  }

  /* ---------- the compaction as a whole ---------- */

  lemma CompactArchives(m: Memory, history: seq<Message>, target: int, freshInputs: nat) returns (summary: Message)
    requires Archives(m, history, target, freshInputs)
    ensures IsSummary(summary) && !summary.archived && summary.kind.CompactionSummary? && CompleteTurns(history)
    ensures Compact(m, history, target, freshInputs).result.value == Archive(m, history, freshInputs, summary)
    ensures true in ArchiveFlags(m, history, freshInputs)
  {
    hide CompleteTurns, ContextView, ArchiveFlags, Archive, Pick;
    var view, flags := ContextView(history), ArchiveFlags(m, history, freshInputs);
    var stale := Pick(view, flags, true);
    var i := PickIn(view, flags, true, stale[0]);
    summary := SummaryMessage(m.summarize(stale).text);
  }

  /** What the loop assumes of a compactor: a successful compaction archives. */
  lemma CompactionArchivesHistory(m: Memory, history: seq<Message>, target: int, freshInputs: nat)
    requires Uniform(history) && Compact(m, history, target, freshInputs).result.Ok?
    ensures ArchivesTo(history, Compact(m, history, target, freshInputs).result.value)
  {
    hide CompleteTurns, Uniform, ContextView, Archive, Compact, ArchiveFlags, ViewAfter, Splices;
    if Archives(m, history, target, freshInputs) {
      var summary := CompactArchives(m, history, target, freshInputs);
      ArchiveIsSound(m, history, freshInputs, summary);
    }
  }

  /** A compacted history is left alone by the next compaction to the same target. */
  lemma CompactTwice(m: Memory, history: seq<Message>, target: int, freshInputs: nat, later: nat)
    requires Uniform(history) && Compact(m, history, target, freshInputs).result.Ok?
    ensures var result := Compact(m, history, target, freshInputs).result.value;
      Compact(m, result, target, later) == Compaction(Ok(result), ZERO)
  {
    hide CompleteTurns, Uniform, ContextView, Archive, ArchiveFlags, ViewAfter, Splices;
    if Archives(m, history, target, freshInputs) {
      var summary := CompactArchives(m, history, target, freshInputs);
      ArchiveIsSound(m, history, freshInputs, summary);
    }
  }

  /* ---------- what the summary is made of ---------- */

  /** The messages the model saw before and sees no longer, in order. */
  function Hidden(before: seq<Message>, after: seq<Message>): seq<Message>
    requires |before| == |after|
  {
    if before == [] then []
    else (if !before[0].archived && after[0].archived then [before[0]] else []) + Hidden(before[1..], after[1..])
  }

  predicate StaysArchived(before: seq<Message>, after: seq<Message>) {
    |before| == |after| && forall i :: 0 <= i < |before| && before[i].archived ==> after[i].archived
  }

  lemma HiddenCons(m: Message, before: seq<Message>, n: Message, after: seq<Message>)
    requires |before| == |after|
    ensures Hidden([m] + before, [n] + after) == (if !m.archived && n.archived then [m] else []) + Hidden(before, after)
  {
    assert ([m] + before)[1..] == before && ([n] + after)[1..] == after;
  }

  lemma NothingHidden(flags: seq<bool>)
    requires |flags| == |ContextView([])|
    ensures Hidden([], Mark([], flags)) == Pick(ContextView([]), flags, true)
  {
  }

  /** The messages a marking hides are those whose flag it sets. */
  lemma {:induction false} HiddenByMark(ms: seq<Message>, flags: seq<bool>)
    requires |flags| == |ContextView(ms)|
    ensures Hidden(ms, Mark(ms, flags)) == Pick(ContextView(ms), flags, true)
    ensures StaysArchived(ms, Mark(ms, flags))
  {
    hide ContextView, Mark, Pick, Hidden;
    if ms == [] {
      NothingHidden(flags);
    } else {
      var m, rest := ms[0], ms[1..];
      assert ms == [m] + rest;
      MarkCons(m, rest, flags);
      if m.archived {
        HiddenByMark(rest, flags);
        HiddenCons(m, rest, m, Mark(rest, flags));
      } else {
        HiddenByMark(rest, flags[1..]);
        HiddenCons(m, rest, m.(archived := flags[0]), Mark(rest, flags[1..]));
        PickCons(m, ContextView(rest), flags[0], flags[1..], true);
        assert flags == [flags[0]] + flags[1..];
      }
    }
  }

  /** A visible message of the summary kind that ends in the text. */
  predicate Carries(m: Message, text: string) {
    && IsSummary(m) && m.kind.CompactionSummary? && !m.archived
    && |text| <= |m.text| && m.text[|m.text| - |text|..] == text
  }

  lemma SummaryCarries(text: string)
    ensures Carries(SummaryMessage(text), text)
  {
  }

  /** A compaction that changed the history inserted one summary at `k`: what the summariser
      made of the very messages the model sees no longer. Nothing else was touched, the
      history did not fit before, and what the model sees now fits. */
  lemma CompactSummarizes(m: Memory, history: seq<Message>, target: int, freshInputs: nat) returns (k: nat, text: string)
    requires Archives(m, history, target, freshInputs)
    ensures var c := Compact(m, history, target, freshInputs);
      var result := c.result.value;
      && |result| == |history| + 1 && k < |result|
      && result[k] == SummaryMessage(text) && Carries(result[k], text)
      && var marked := result[..k] + result[k + 1..];
      && SameTranscript(history, marked) && StaysArchived(history, marked)
      && Hidden(history, marked) != []
      && m.summarize(Hidden(history, marked)) == Summarized(text, c.usage)
      && FitsIn(m, result, target)
    ensures !FitsIn(m, history, target) && m.estimate(ContextView(history)).Some? && target > 0
  {
    hide CompleteTurns, ContextView, ArchiveFlags, Pick, Mark, InsertAt, CachePrefix, Hidden, SummaryMessage, Carries, StaysArchived, SameTranscript;
    var view, flags := ContextView(history), ArchiveFlags(m, history, freshInputs);
    var marked := Mark(history, flags);
    k := InsertAt(history, flags, CachePrefix(view));
    text := m.summarize(Pick(view, flags, true)).text;
    MarkKeepsTranscript(history, flags);
    HiddenByMark(history, flags);
    SummaryCarries(text);
    var result := Compact(m, history, target, freshInputs).result.value;
    assert result == Splice(marked, k, SummaryMessage(text));
    assert result[..k] + result[k + 1..] == marked;
  }

  /** What the model is shown of a history is estimated to fit the target. */
  predicate FitsIn(m: Memory, history: seq<Message>, target: int) {
    m.estimate(ContextView(history)).Some? && m.estimate(ContextView(history)).value <= target
  }

  /** A compaction leaves a history as it is exactly when there is no target or what the
      model sees of it fits, and then costs nothing. */
  lemma CompactLeavesIff(m: Memory, history: seq<Message>, target: int, freshInputs: nat)
    ensures var c := Compact(m, history, target, freshInputs);
      && (c.result == Ok(history) <==> CompleteTurns(history) && (target <= 0 || FitsIn(m, history, target)))
      && (c.result == Ok(history) ==> c.usage == ZERO)
  {
    hide CompleteTurns, ContextView, ArchiveFlags, Pick, Mark, InsertAt, CachePrefix, SummaryMessage;
  }

  /* ---------- which turns stay ---------- */

  /** The starts of the eligible groups from `o` on. */
  function EligibleStarts(view: seq<Message>, p: nat, o: nat): (starts: seq<nat>)
    requires o <= |view|
    decreases |view| - o
  {
    if o == |view| then []
    else (if Eligible(view, p, o) then [o] else []) + EligibleStarts(view, p, o + |GroupAt(view, o)|)
  }

  lemma {:induction false} StartsCounted(view: seq<Message>, p: nat, o: nat)
    requires o <= |view|
    ensures |EligibleStarts(view, p, o)| == EligibleFrom(view, p, o)
    decreases |view| - o
  {
    hide Eligible, GroupAt;
    if o < |view| {
      StartsCounted(view, p, o + |GroupAt(view, o)|);
    }
  }

  lemma {:induction false} StartListed(view: seq<Message>, p: nat, o: nat, i: nat) returns (k: nat)
    requires o <= i < |view| && Eligible(view, p, StartOf(view, o, i))
    ensures var starts, s := EligibleStarts(view, p, o), StartOf(view, o, i);
      k < |starts| && starts[k] == s && |starts| - k - 1 == EligibleFrom(view, p, s + |GroupAt(view, s)|)
    decreases i - o
  {
    hide Eligible, GroupAt;
    var w := |GroupAt(view, o)|;
    if i < o + w {
      k := 0;
      StartsCounted(view, p, o + w);
    } else {
      k := StartListed(view, p, o + w, i);
      k := if Eligible(view, p, o) then k + 1 else k;
    }
  }

  /** Of the groups counted as turns, exactly the latest `recent` stay, and the latest user
      turn with them: group `k` of the list is archived when at least `recent` follow it. */
  lemma RecentTurnsStay(view: seq<Message>, p: nat, recent: nat, i: nat) returns (k: nat)
    requires i < |view| && Eligible(view, p, StartOf(view, 0, i))
    ensures var starts, s := EligibleStarts(view, p, 0), StartOf(view, 0, i);
      var latestUser := UserTurn(view, p, s) && !UserTurnFrom(view, p, s + |GroupAt(view, s)|);
      && k < |starts| && starts[k] == s
      && (Flags(view, p, recent, 0)[i] <==> k + recent < |starts| && !latestUser)
  {
    hide GroupAt, Flags, UserTurnFrom, UserTurn, EligibleFrom, ProtectedInstructions, SummaryGroup;
    FlagOf(view, p, recent, 0, i);
    k := StartListed(view, p, 0, i);
  }

  /** The latest message of a user stays, however many turns are asked for. */
  lemma LatestUserMessageStays(m: Memory, history: seq<Message>, freshInputs: nat, i: nat)
    requires CompleteTurns(ContextView(history)) && i < |ContextView(history)|
    requires var view := ContextView(history);
      && view[i].role.User? && !view[i].kind.CompactionSummary?
      && forall j :: i < j < |view| && view[j].role.User? ==> view[j].kind.CompactionSummary?
    ensures !ArchiveFlags(m, history, freshInputs)[i]
  {
    hide CompleteTurns, ContextView, CachePrefix, Flags, GroupAt, UserTurnFrom, UserTurn;
    var view, p, recent := ContextView(history), ProtectedPrefix(history), Recent(m, freshInputs);
    assert view[0..] == view;
    if i < p {
      CachePrefixIsValid(view);
      PrefixIsKept(view, p, recent, i);
    } else {
      StartsItsGroup(view, 0, i);
      SuffixesComplete(view, 0, i);
      NoLaterUserTurn(view, p, i);
      LatestUserTurnStays(view, p, recent, i, i);
    }
  }

  lemma NoLaterUserTurn(view: seq<Message>, p: nat, i: nat)
    requires p <= i < |view| && CompleteTurns(view[i..]) && view[i].role.User? && !view[i].kind.CompactionSummary?
    requires forall j :: i < j < |view| && view[j].role.User? ==> view[j].kind.CompactionSummary?
    ensures UserTurn(view, p, i) && !UserTurnFrom(view, p, i + |GroupAt(view, i)|)
  {
    hide UserTurnFrom;
    var w := |GroupAt(view, i)|;
    assert GroupAt(view, i)[0] == view[i];
    assert view[i..][w..] == view[i + w..];
    SummariesOnly(view, p, i + w);
  }

  lemma {:induction false} SummariesOnly(view: seq<Message>, p: nat, o: nat)
    requires o <= |view| && CompleteTurns(view[o..])
    requires forall j :: o <= j < |view| && view[j].role.User? ==> view[j].kind.CompactionSummary?
    ensures !UserTurnFrom(view, p, o)
    decreases |view| - o
  {
    hide UserTurn, ValidGroup, CompleteTurns, Width;
    if o < |view| {
      CompleteFrom(view, o);
      SummariesOnly(view, p, o + |GroupAt(view, o)|);
      NoUserTurn(view, p, o);
    }
  }

  lemma NoUserTurn(view: seq<Message>, p: nat, o: nat)
    requires o < |view| && ValidGroup(GroupAt(view, o))
    requires forall j :: o <= j < |view| && view[j].role.User? ==> view[j].kind.CompactionSummary?
    ensures !UserTurn(view, p, o)
  {
    hide DistinctIds, Answers, Width;
    var g := GroupAt(view, o);
    if k :| 0 <= k < |g| && g[k].role.User? {
      assert g[k] == view[o + k];
      UserStandsAlone(g, k);
    }
  }

  lemma UserStandsAlone(g: seq<Message>, k: nat)
    requires ValidGroup(g) && k < |g| && g[k].role.User?
    ensures |g| == 1 && k == 0
  {
    if k > 0 {
      ResultsAreTools(g, k);
    }
  }

  /** System messages and the instructions of skills stay, wherever they are. */
  lemma InstructionsStay(m: Memory, history: seq<Message>, freshInputs: nat, i: nat)
    requires i < |ContextView(history)| && Instructs(ContextView(history)[i])
    ensures !ArchiveFlags(m, history, freshInputs)[i]
  {
    hide ContextView, CachePrefix, Flags, Width, EligibleFrom, UserTurnFrom;
    var view, p, recent := ContextView(history), ProtectedPrefix(history), Recent(m, freshInputs);
    var s := StartOf(view, 0, i);
    FlagOf(view, p, recent, 0, i);
    assert GroupAt(view, s)[i - s] == view[i];
  }
}
