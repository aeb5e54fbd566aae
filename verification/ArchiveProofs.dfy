/**
 How archive flags, tool groups and a spliced summary interact: the algebra behind
 working memory.
 */
module ArchiveProofs {
  import opened Wrappers
  import opened Messages
  import opened TokenUsage
  import opened History
  import opened WorkingMemory

  /* ---------- flags and groups ---------- */

  /** Every tool group is archived or visible as a whole. */
  predicate Uniform(ms: seq<Message>)
    decreases |ms|
  {
    ms == [] || (
      var w := Width(ms);
      && (forall i :: 0 <= i < w ==> ms[i].archived == ms[0].archived)
      && Uniform(ms[w..]))
  }

  /** Flags that never split a group of `view`. */
  predicate UniformFlags(view: seq<Message>, flags: seq<bool>)
    requires |flags| == |view|
    decreases |view|
  {
    view == [] || (
      var w := Width(view);
      && (forall i :: 0 <= i < w ==> flags[i] == flags[0])
      && UniformFlags(view[w..], flags[w..]))
  }

  lemma {:induction false} FlagsAreUniform(view: seq<Message>, prefixEnd: nat, recent: nat, o: nat)
    requires o <= |view|
    ensures UniformFlags(view[o..], Flags(view, prefixEnd, recent, o))
    decreases |view| - o
  {
    hide Keeps;
    if o < |view| {
      var w := |GroupAt(view, o)|;
      FlagsAreUniform(view, prefixEnd, recent, o + w);
      assert view[o..][w..] == view[o + w..];
      assert Flags(view, prefixEnd, recent, o)[w..] == Flags(view, prefixEnd, recent, o + w);
    }
  }

  lemma ViewCons(m: Message, rest: seq<Message>)
    ensures ContextView([m] + rest) == if m.archived then ContextView(rest) else [m] + ContextView(rest)
  {
    assert ([m] + rest)[1..] == rest;
    assert [] + ContextView(rest) == ContextView(rest);
  }

  lemma MarkCons(m: Message, rest: seq<Message>, flags: seq<bool>)
    requires |flags| == |ContextView([m] + rest)|
    ensures ContextView([m] + rest) == if m.archived then ContextView(rest) else [m] + ContextView(rest)
    ensures Mark([m] + rest, flags) ==
      if m.archived then [m] + Mark(rest, flags) else [m.(archived := flags[0])] + Mark(rest, flags[1..])
  {
    ViewCons(m, rest);
    hide ContextView;
    assert ([m] + rest)[1..] == rest;
  }

  /** A whole visible group at the front of a history is a group of its view. */
  lemma ViewOfGroup(ms: seq<Message>)
    requires CompleteTurns(ms) && Uniform(ms) && ms != []
    ensures var w, view := Width(ms), ContextView(ms);
      && ContextView(ms[..w]) == (if ms[0].archived then [] else ms[..w])
      && (ms[0].archived ==> view == ContextView(ms[w..]))
      && (!ms[0].archived ==>
            view != [] && Width(view) == w && view[..w] == ms[..w] && view[w..] == ContextView(ms[w..]))
  {
    hide ContextView, CompleteTurns, Width, Uniform;
    var w := Width(ms);
    WidthOfComplete(ms);
    UniformHead(ms);
    assert ms == ms[..w] + ms[w..];
    ContextViewConcat(ms[..w], ms[w..]);
    ViewOfUniform(ms[..w]);
    if ms[0].archived {
      assert [] + ContextView(ms[w..]) == ContextView(ms[w..]);
    } else {
      WidthOfGroup(ms[..w], ContextView(ms[w..]));
    }
  }

  lemma UniformHead(ms: seq<Message>)
    requires Uniform(ms) && ms != []
    ensures forall i :: 0 <= i < Width(ms) ==> ms[i].archived == ms[0].archived
  {
  }

  lemma WidthOfGroup(g: seq<Message>, rest: seq<Message>)
    requires g != [] && |g| == 1 + |g[0].toolCalls|
    ensures Width(g + rest) == |g|
  {
  }

  lemma {:induction false} ViewOfUniform(g: seq<Message>)
    requires forall i :: 0 <= i < |g| ==> g[i].archived == g[0].archived
    ensures ContextView(g) == if g != [] && g[0].archived then [] else g
  {
    if g != [] {
      ViewOfUniform(g[1..]);
      ViewCons(g[0], g[1..]);
      assert g == [g[0]] + g[1..];
    }
  }

  /** With uniform flags, what the model sees is a complete history. */
  lemma {:induction false} ViewIsComplete(ms: seq<Message>)
    requires CompleteTurns(ms) && Uniform(ms)
    ensures CompleteTurns(ContextView(ms))
    decreases |ms|
  {
    hide ValidGroup, ContextView, Width;
    if ms == [] {
      EmptyView();
    } else {
      ViewOfGroup(ms);
      ViewIsComplete(ms[Width(ms)..]);
    }
  }

  lemma EmptyView()
    ensures ContextView([]) == []
  {
  }

  /** A visible message that starts a group of the view starts a group of the history. */
  lemma {:induction false} VisibleStartsAreAligned(ms: seq<Message>, k: nat)
    requires CompleteTurns(ms) && Uniform(ms) && k < |ms| && !ms[k].archived
    requires Aligned(ContextView(ms), |ContextView(ms[..k])|)
    ensures Aligned(ms, k)
    decreases |ms|
  {
    hide ValidGroup, ContextView, Width;
    var w, view := Width(ms), ContextView(ms);
    ViewOfGroup(ms);
    if 0 < k < w {
      assert ms[k].archived == ms[0].archived;
      ViewOfUniform(ms[..k]);
      assert false;
    } else if w <= k {
      assert ms[..k] == ms[..w] + ms[w..][..k - w];
      ContextViewConcat(ms[..w], ms[w..][..k - w]);
      VisibleStartsAreAligned(ms[w..], k - w);
    }
  }

  lemma {:induction false} MarkKeepsTranscript(ms: seq<Message>, flags: seq<bool>)
    requires |flags| == |ContextView(ms)|
    ensures SameTranscript(ms, Mark(ms, flags))
  {
    hide ContextView, Mark;
    if ms != [] {
      assert ms == [ms[0]] + ms[1..];
      MarkCons(ms[0], ms[1..], flags);
      MarkKeepsTranscript(ms[1..], if ms[0].archived then flags else flags[1..]);
      var marked := Mark(ms, flags);
      forall i | 0 <= i < |ms| ensures SameEvidence(ms[i], marked[i]) {
        if i > 0 {
          assert SameEvidence(ms[1..][i - 1], marked[1..][i - 1]);
        }
      }
    }
  }

  lemma PickCons(m: Message, rest: seq<Message>, flag: bool, flags: seq<bool>, value: bool)
    requires |rest| == |flags|
    ensures Pick([m] + rest, [flag] + flags, value)
      == if flag == value then [m] + Pick(rest, flags, value) else Pick(rest, flags, value)
  {
    assert ([m] + rest)[1..] == rest && ([flag] + flags)[1..] == flags;
    assert [] + Pick(rest, flags, value) == Pick(rest, flags, value);
  }

  /** The view after marking is the unarchived part of the view before. */
  lemma {:induction false} ViewOfMark(ms: seq<Message>, flags: seq<bool>)
    requires |flags| == |ContextView(ms)|
    ensures ContextView(Mark(ms, flags)) == Pick(ContextView(ms), flags, false)
  {
    hide ContextView, Mark, Pick;
    if ms == [] {
      EmptyMark(flags);
    } else {
      assert ms == [ms[0]] + ms[1..];
      MarkCons(ms[0], ms[1..], flags);
      if ms[0].archived {
        ViewOfMark(ms[1..], flags);
        ViewCons(ms[0], Mark(ms[1..], flags));
      } else {
        ViewOfMark(ms[1..], flags[1..]);
        ViewCons(ms[0].(archived := flags[0]), Mark(ms[1..], flags[1..]));
        PickCons(ms[0], ContextView(ms[1..]), flags[0], flags[1..], false);
        assert flags == [flags[0]] + flags[1..];
        if !flags[0] {
          assert ms[0].(archived := false) == ms[0];
        }
      }
    }
  }

  lemma EmptyMark(flags: seq<bool>)
    requires |flags| == |ContextView([])|
    ensures ContextView([]) == [] && Mark([], flags) == [] && Pick([], flags, false) == []
  {
  }

  lemma MarkConsArchived(m: Message, rest: seq<Message>, flags: seq<bool>)
    requires |flags| == |ContextView(rest)| && m.archived
    ensures |flags| == |ContextView([m] + rest)| && Mark([m] + rest, flags) == [m] + Mark(rest, flags)
  {
    ViewCons(m, rest);
    MarkCons(m, rest, flags);
  }

  lemma MarkConsVisible(m: Message, rest: seq<Message>, flag: bool, flags: seq<bool>)
    requires |flags| == |ContextView(rest)| && !m.archived
    ensures |[flag] + flags| == |ContextView([m] + rest)|
    ensures Mark([m] + rest, [flag] + flags) == [m.(archived := flag)] + Mark(rest, flags)
  {
    ViewCons(m, rest);
    MarkCons(m, rest, [flag] + flags);
    assert ([flag] + flags)[1..] == flags;
  }

  lemma Reassociate<T>(x: T, a: seq<T>, b: seq<T>)
    ensures [x] + (a + b) == ([x] + a) + b
  {
  }

  lemma {:induction false} MarkConcat(a: seq<Message>, b: seq<Message>, fa: seq<bool>, fb: seq<bool>)
    requires |fa| == |ContextView(a)| && |fb| == |ContextView(b)|
    ensures |fa + fb| == |ContextView(a + b)| && Mark(a + b, fa + fb) == Mark(a, fa) + Mark(b, fb)
    decreases |a|
  {
    hide ContextView, Mark;
    if a == [] {
      EmptyMark(fa);
      assert a + b == b && fa + fb == fb;
    } else {
      var m, rest := a[0], a[1..];
      assert a == [m] + rest;
      Reassociate(m, rest, b);
      ViewCons(m, rest);
      if m.archived {
        MarkConcat(rest, b, fa, fb);
        MarkConsArchived(m, rest, fa);
        MarkConsArchived(m, rest + b, fa + fb);
        Reassociate(m, Mark(rest, fa), Mark(b, fb));
      } else {
        var flag, later := fa[0], fa[1..];
        assert fa == [flag] + later;
        Reassociate(flag, later, fb);
        MarkConcat(rest, b, later, fb);
        MarkConsVisible(m, rest, flag, later);
        MarkConsVisible(m, rest + b, flag, later + fb);
        Reassociate(m.(archived := flag), Mark(rest, later), Mark(b, fb));
      }
    }
  }

  lemma MarkOfArchived(g: seq<Message>)
    requires forall i :: 0 <= i < |g| ==> g[i].archived
    ensures ContextView(g) == [] && Mark(g, []) == g
  {
  }

  lemma {:induction false} MarkOfVisible(g: seq<Message>, flags: seq<bool>)
    requires forall i :: 0 <= i < |g| ==> !g[i].archived
    requires |flags| == |g|
    ensures ContextView(g) == g && forall i :: 0 <= i < |g| ==> Mark(g, flags)[i] == g[i].(archived := flags[i])
  {
    if g != [] {
      MarkOfVisible(g[1..], flags[1..]);
      forall i | 0 < i < |g| ensures Mark(g, flags)[i] == g[i].(archived := flags[i]) {
        assert Mark(g[1..], flags[1..])[i - 1] == g[i].(archived := flags[i]);
      }
    }
  }

  /** Flags that respect the groups of the view keep the history's groups uniform. */
  lemma {:induction false} MarkKeepsUniform(ms: seq<Message>, flags: seq<bool>)
    requires CompleteTurns(ms) && Uniform(ms)
    requires |flags| == |ContextView(ms)| && UniformFlags(ContextView(ms), flags)
    ensures Uniform(Mark(ms, flags))
    decreases |ms|
  {
    hide ValidGroup, CompleteTurns, ContextView, Mark;
    if ms == [] {
      EmptyMark(flags);
    } else {
      CompleteTail(ms);
      ViewOfGroup(ms);
      var w := Width(ms);
      MarkedGroup(ms, flags);
      MarkKeepsUniform(ms[w..], if ms[0].archived then flags else flags[w..]);
    }
  }

  /** Marking a history marks its first group, then the rest. */
  lemma MarkedGroup(ms: seq<Message>, flags: seq<bool>)
    requires CompleteTurns(ms) && Uniform(ms) && ms != []
    requires |flags| == |ContextView(ms)|
    ensures var w, marked := Width(ms), Mark(ms, flags);
      && Width(marked) == w
      && (ms[0].archived ==> marked[..w] == ms[..w] && |flags| == |ContextView(ms[w..])| && marked[w..] == Mark(ms[w..], flags))
      && (!ms[0].archived ==>
            && w <= |flags| && |flags[w..]| == |ContextView(ms[w..])|
            && (forall i :: 0 <= i < w ==> marked[i].archived == flags[i])
            && marked[w..] == Mark(ms[w..], flags[w..]))
  {
    hide CompleteTurns, ContextView, Mark;
    ViewOfGroup(ms);
    var w, marked := Width(ms), Mark(ms, flags);
    var g, rest := ms[..w], ms[w..];
    assert ms == g + rest;
    if ms[0].archived {
      MarkOfArchived(g);
      MarkConcat(g, rest, [], flags);
      assert [] + flags == flags;
    } else {
      MarkOfVisible(g, flags[..w]);
      MarkConcat(g, rest, flags[..w], flags[w..]);
      assert flags[..w] + flags[w..] == flags;
    }
    MarkKeepsTranscript(ms, flags);
    assert SameEvidence(ms[0], marked[0]);
  }

  lemma CompleteTail(ms: seq<Message>)
    requires CompleteTurns(ms) && ms != []
    ensures CompleteTurns(ms[Width(ms)..])
  {
  }

  /* ---------- splicing ---------- */

  lemma {:induction false} UniformConcat(a: seq<Message>, b: seq<Message>)
    requires CompleteTurns(a) && Uniform(a) && Uniform(b)
    ensures Uniform(a + b)
    decreases |a|
  {
    hide ValidGroup;
    if a == [] {
      assert a + b == b;
    } else {
      WidthOfComplete(a);
      var w := Width(a);
      assert Width(a + b) == w && (a + b)[w..] == a[w..] + b;
      UniformConcat(a[w..], b);
    }
  }

  lemma {:induction false} UniformSplit(ms: seq<Message>, k: nat)
    requires CompleteTurns(ms) && Uniform(ms) && k <= |ms| && Aligned(ms, k)
    ensures Uniform(ms[..k]) && Uniform(ms[k..])
    decreases |ms|
  {
    hide ValidGroup;
    if k == 0 {
      assert ms[k..] == ms;
    } else {
      WidthOfComplete(ms);
      var w := Width(ms);
      assert Width(ms[..k]) == w && ms[..k][w..] == ms[w..][..k - w] && ms[w..][k - w..] == ms[k..];
      UniformSplit(ms[w..], k - w);
    }
  }

  lemma SummaryStands(summary: Message)
    requires IsSummary(summary)
    ensures CompleteTurns([summary]) && Uniform([summary])
  {
    assert [summary][1..] == [] && [summary][..1] == [summary];
  }

  /** Splicing a summary between two groups keeps a history complete and uniform. */
  lemma SpliceIsComplete(ms: seq<Message>, k: nat, summary: Message)
    requires CompleteTurns(ms) && Uniform(ms) && k <= |ms| && Aligned(ms, k) && IsSummary(summary)
    ensures CompleteTurns(Splice(ms, k, summary)) && Uniform(Splice(ms, k, summary))
  {
    hide CompleteTurns, Uniform, Aligned, IsSummary;
    CutsAreAligned(ms, k);
    UniformSplit(ms, k);
    SummaryStands(summary);
    StaysComplete(ms[..k], [summary]);
    UniformConcat(ms[..k], [summary]);
    StaysComplete(ms[..k] + [summary], ms[k..]);
    UniformConcat(ms[..k] + [summary], ms[k..]);
  }

  /* ---------- where the summary goes ---------- */

  lemma InsertCons(m: Message, rest: seq<Message>, flags: seq<bool>, p: nat)
    requires |flags| == |ContextView([m] + rest)|
    ensures ContextView([m] + rest) == if m.archived then ContextView(rest) else [m] + ContextView(rest)
    ensures InsertAt([m] + rest, flags, p) ==
      if m.archived then 1 + InsertAt(rest, flags, p)
      else if p == 0 && !flags[0] then 0
      else 1 + InsertAt(rest, flags[1..], Max(0, p - 1))
  {
    ViewCons(m, rest);
    hide ContextView;
    assert ([m] + rest)[1..] == rest;
  }

  /** `k` is where the first message that stays visible after the prefix is, or the end. */
  predicate InsertPoint(ms: seq<Message>, flags: seq<bool>, p: nat, k: nat)
    requires |flags| == |ContextView(ms)| && k <= |ms|
  {
    var v := |ContextView(ms[..k])|;
    && v <= |flags| && (k < |ms| ==> p <= v < |flags| && !ms[k].archived && !flags[v])
    && (forall j :: p <= j < v ==> flags[j])
    && (k == |ms| ==> v == |flags|)
  }

  lemma InsertPointLater(m: Message, rest: seq<Message>, flags: seq<bool>, p: nat, k: nat)
    requires |flags| == |ContextView([m] + rest)| && k <= |rest|
    requires |ContextView([m] + rest)| == (if m.archived then 0 else 1) + |ContextView(rest)|
    requires if m.archived then InsertPoint(rest, flags, p, k) else InsertPoint(rest, flags[1..], Max(0, p - 1), k)
    requires !m.archived && p == 0 ==> flags[0]
    ensures InsertPoint([m] + rest, flags, p, k + 1)
  {
    hide ContextView;
    assert ([m] + rest)[..k + 1] == [m] + rest[..k];
    ViewCons(m, rest[..k]);
    if !m.archived {
      assert forall j :: 1 <= j < |flags| ==> flags[j] == flags[1..][j - 1];
    }
  }

  lemma {:induction false} InsertAtIsInsertPoint(ms: seq<Message>, flags: seq<bool>, p: nat)
    requires |flags| == |ContextView(ms)|
    ensures InsertPoint(ms, flags, p, InsertAt(ms, flags, p))
  {
    hide ContextView, InsertAt;
    EmptyView();
    if ms == [] {
      assert ms[..0] == [];
    } else {
      hide InsertPoint;
      var m, rest := ms[0], ms[1..];
      assert ms == [m] + rest;
      InsertCons(m, rest, flags, p);
      if m.archived {
        InsertAtIsInsertPoint(rest, flags, p);
        InsertPointLater(m, rest, flags, p, InsertAt(rest, flags, p));
      } else if p == 0 && !flags[0] {
        InsertPointHere(ms, flags);
      } else {
        InsertAtIsInsertPoint(rest, flags[1..], Max(0, p - 1));
        InsertPointLater(m, rest, flags, p, InsertAt(rest, flags[1..], Max(0, p - 1)));
      }
    }
  }

  lemma InsertPointHere(ms: seq<Message>, flags: seq<bool>)
    requires |flags| == |ContextView(ms)| && ms != [] && !ms[0].archived && flags != [] && !flags[0]
    ensures InsertPoint(ms, flags, 0, 0)
  {
    assert ms[..0] == [];
  }

  /** Where neighbouring flags differ a group begins. */
  lemma {:induction false} FlagChangeIsAligned(view: seq<Message>, flags: seq<bool>, v: nat)
    requires |flags| == |view| && UniformFlags(view, flags) && 0 < v < |view| && flags[v - 1] != flags[v]
    ensures Aligned(view, v)
    decreases |view|
  {
    var w := Width(view);
    if w < v {
      FlagChangeIsAligned(view[w..], flags[w..], v - w);
    }
  }

  lemma InsertIsAligned(ms: seq<Message>, flags: seq<bool>, p: nat)
    requires CompleteTurns(ms) && Uniform(ms)
    requires |flags| == |ContextView(ms)| && UniformFlags(ContextView(ms), flags)
    requires p <= |flags| && Aligned(ContextView(ms), p)
    ensures Aligned(ms, InsertAt(ms, flags, p))
  {
    hide CompleteTurns, Uniform, ContextView, UniformFlags, Aligned, InsertAt;
    var k := InsertAt(ms, flags, p);
    InsertAtIsInsertPoint(ms, flags, p);
    if k == |ms| {
      WholeIsAligned(ms);
    } else {
      var v := |ContextView(ms[..k])|;
      if v != p {
        assert flags[v - 1];
        FlagChangeIsAligned(ContextView(ms), flags, v);
      }
      VisibleStartsAreAligned(ms, k);
    }
  }

  /** The view of an archived history: the prefix, the summary, what was not archived. */
  function ViewAfter(view: seq<Message>, flags: seq<bool>, p: nat, summary: Message): seq<Message>
    requires |flags| == |view| && p <= |flags|
  {
    view[..p] + [summary] + Pick(view[p..], flags[p..], false)
  }

  lemma ViewAfterPrefix(m: Message, view: seq<Message>, flag: bool, flags: seq<bool>, p: nat, summary: Message)
    requires |flags| == |view| && p <= |flags|
    ensures ViewAfter([m] + view, [flag] + flags, p + 1, summary) == [m] + ViewAfter(view, flags, p, summary)
  {
    hide Pick;
    assert ([m] + view)[..p + 1] == [m] + view[..p] && ([m] + view)[p + 1..] == view[p..] && ([flag] + flags)[p + 1..] == flags[p..];
  }

  lemma ViewAfterArchived(m: Message, view: seq<Message>, flags: seq<bool>, summary: Message)
    requires |flags| == |view|
    ensures ViewAfter([m] + view, [true] + flags, 0, summary) == ViewAfter(view, flags, 0, summary)
    ensures ViewAfter(view, flags, 0, summary) == [summary] + Pick(view, flags, false)
  {
    hide Pick;
    PickCons(m, view, true, flags, false);
    assert view[0..] == view && flags[0..] == flags && ([m] + view)[0..] == [m] + view && ([true] + flags)[0..] == [true] + flags;
    assert view[..0] == [] && ([m] + view)[..0] == [];
  }

  /** What the model sees afterwards. */
  lemma {:induction false} ViewOfSplice(ms: seq<Message>, flags: seq<bool>, p: nat, summary: Message)
    requires |flags| == |ContextView(ms)| && p <= |flags| && !summary.archived
    requires forall i :: 0 <= i < p ==> !flags[i]
    ensures ContextView(Splice(Mark(ms, flags), InsertAt(ms, flags, p), summary))
      == ViewAfter(ContextView(ms), flags, p, summary)
  {
    hide ContextView, Mark, InsertAt, Pick, Splice, ViewAfter;
    if ms == [] {
      ViewOfSpliceAtStart(ms, flags, summary);
    } else {
      var m, rest := ms[0], ms[1..];
      assert ms == [m] + rest;
      InsertCons(m, rest, flags, p);
      MarkCons(m, rest, flags);
      if m.archived {
        var k := InsertAt(rest, flags, p);
        ViewOfSplice(rest, flags, p, summary);
        SpliceCons(m, Mark(rest, flags), k, summary);
        ViewCons(m, Splice(Mark(rest, flags), k, summary));
      } else if p == 0 && !flags[0] {
        ViewOfSpliceAtStart(ms, flags, summary);
      } else {
        var later, q := flags[1..], Max(0, p - 1);
        var head, k := m.(archived := flags[0]), InsertAt(rest, later, q);
        ViewOfSplice(rest, later, q, summary);
        SpliceCons(head, Mark(rest, later), k, summary);
        ViewCons(head, Splice(Mark(rest, later), k, summary));
        assert flags == [flags[0]] + later;
        if p == 0 {
          ViewAfterArchived(m, ContextView(rest), later, summary);
        } else {
          ViewAfterPrefix(m, ContextView(rest), flags[0], later, q, summary);
        }
      }
    }
  }

  lemma ViewOfSpliceAtStart(ms: seq<Message>, flags: seq<bool>, summary: Message)
    requires |flags| == |ContextView(ms)| && !summary.archived
    requires InsertAt(ms, flags, 0) == 0
    ensures ContextView(Splice(Mark(ms, flags), 0, summary)) == ViewAfter(ContextView(ms), flags, 0, summary)
  {
    hide ContextView, Mark, InsertAt, Pick;
    var marked := Mark(ms, flags);
    assert Splice(marked, 0, summary) == [summary] + marked;
    ViewCons(summary, marked);
    ViewOfMark(ms, flags);
    ViewAfterArchived(summary, ContextView(ms), flags, summary);
  }

  lemma SpliceCons(m: Message, rest: seq<Message>, k: nat, summary: Message)
    requires k <= |rest|
    ensures Splice([m] + rest, k + 1, summary) == [m] + Splice(rest, k, summary)
  {
    assert ([m] + rest)[..k + 1] == [m] + rest[..k] && ([m] + rest)[k + 1..] == rest[k..];
  }

  /** Completeness and group boundaries do not depend on archive flags. */
  lemma CompleteIgnoresFlags(a: seq<Message>, b: seq<Message>)
    requires SameTranscript(a, b)
    ensures CompleteTurns(a) <==> CompleteTurns(b)
    ensures forall k: nat :: Aligned(a, k) <==> Aligned(b, k)
  {
    forall i | 0 <= i < |a| ensures SameShape(a[i], b[i]) {
      assert SameEvidence(a[i], b[i]);
    }
    CompleteByShape(a, b);
  }

  /* ---------- what is kept ---------- */

  /** The start of the group message `i` belongs to, walking on from the group at `o`. */
  function StartOf(view: seq<Message>, o: nat, i: nat): (s: nat)
    requires o <= i < |view|
    ensures o <= s <= i < s + |GroupAt(view, s)|
    decreases i - o
  {
    if i < o + |GroupAt(view, o)| then o else StartOf(view, o + |GroupAt(view, o)|, i)
  }

  lemma {:induction false} FlagOf(view: seq<Message>, p: nat, recent: nat, o: nat, i: nat)
    requires o <= i < |view|
    ensures Flags(view, p, recent, o)[i - o] == !Keeps(view, p, recent, StartOf(view, o, i))
    decreases i - o
  {
    hide Keeps, GroupAt;
    var w := |GroupAt(view, o)|;
    if o + w <= i {
      FlagOf(view, p, recent, o + w, i);
    }
  }

  lemma PrefixIsKept(view: seq<Message>, p: nat, recent: nat, i: nat)
    requires i < p <= |view|
    ensures !Flags(view, p, recent, 0)[i]
  {
    hide GroupAt, Flags;
    FlagOf(view, p, recent, 0, i);
  }

  lemma {:induction false} PickIn(ms: seq<Message>, flags: seq<bool>, value: bool, m: Message) returns (i: nat)
    requires |ms| == |flags| && m in Pick(ms, flags, value)
    ensures i < |ms| && ms[i] == m && flags[i] == value
  {
    if flags[0] == value && m == ms[0] {
      return 0;
    }
    i := PickIn(ms[1..], flags[1..], value, m);
    i := i + 1;
  }

  /** A message that is no tool result starts its own group. */
  lemma {:induction false} StartsItsGroup(view: seq<Message>, o: nat, i: nat)
    requires o <= i < |view| && CompleteTurns(view[o..]) && !view[i].role.Tool?
    ensures StartOf(view, o, i) == i
    decreases i - o
  {
    hide ValidGroup, Width;
    var w := Width(view[o..]);
    assert view[o..][w..] == view[o + w..] && view[o..][..w] == GroupAt(view, o);
    if o + w <= i {
      StartsItsGroup(view, o + w, i);
    } else if o < i {
      ResultsAreTools(GroupAt(view, o), i - o);
    }
  }

  lemma ResultsAreTools(g: seq<Message>, k: nat)
    requires ValidGroup(g) && 0 < k < |g|
    ensures g[k].role.Tool?
  {
    var pi := AcceptedTurnIsPaired(g);
    assert g[1..][k - 1] == g[k] && ToolMessage(g[1..][k - 1]);
  }

  lemma StandsAlone(view: seq<Message>, i: nat)
    requires i < |view| && CompleteTurns(view[i..]) && view[i].toolCalls == []
    ensures GroupAt(view, i) == [view[i]]
  {
  }

  lemma {:induction false} SuffixesComplete(view: seq<Message>, o: nat, i: nat)
    requires o <= i < |view| && CompleteTurns(view[o..])
    ensures CompleteTurns(view[StartOf(view, o, i)..])
    decreases i - o
  {
    hide ValidGroup, Width;
    var w := Width(view[o..]);
    assert view[o..][w..] == view[o + w..];
    if o + w <= i {
      SuffixesComplete(view, o + w, i);
    }
  }

  /** A message that is kept for the instructions it carries. */
  predicate Instructs(m: Message) {
    m.role.System? || (m.toolResult.Some? && m.toolResult.value.name == SKILL_TOOL)
  }

  /** A message of the summary kind that stands outside tool turns, after the prefix, is
      archived exactly when it carries no instructions. */
  lemma SummaryArchivedIff(view: seq<Message>, p: nat, recent: nat, i: nat)
    requires CompleteTurns(view) && p <= i < |view|
    requires view[i].kind.CompactionSummary? && view[i].toolCalls == [] && !view[i].role.Tool?
    ensures Flags(view, p, recent, 0)[i] <==> !Instructs(view[i])
  {
    hide CompleteTurns, GroupAt, Flags, EligibleFrom, UserTurnFrom;
    assert view[0..] == view;
    StartsItsGroup(view, 0, i);
    SuffixesComplete(view, 0, i);
    StandsAlone(view, i);
    FlagOf(view, p, recent, 0, i);
  }

  /** The group of the latest user message after the prefix stays. */
  lemma LatestUserTurnStays(view: seq<Message>, p: nat, recent: nat, o: nat, i: nat)
    requires o < |view| && UserTurn(view, p, o) && !UserTurnFrom(view, p, o + |GroupAt(view, o)|)
    requires i < |view| && StartOf(view, 0, i) == o
    ensures !Flags(view, p, recent, 0)[i]
  {
    hide GroupAt, Flags, EligibleFrom, UserTurnFrom, UserTurn;
    FlagOf(view, p, recent, 0, i);
  }

  lemma {:induction false} FewEligible(view: seq<Message>, p: nat, o: nat)
    requires o <= |view|
    ensures EligibleFrom(view, p, o) <= |view| - o
    decreases |view| - o
  {
    hide Eligible, GroupAt;
    if o < |view| {
      FewEligible(view, p, o + |GroupAt(view, o)|);
    }
  }

  /** An input among the latest `recent` messages stays, unless it is itself a summary. */
  lemma InputStays(view: seq<Message>, p: nat, recent: nat, i: nat)
    requires CompleteTurns(view) && i < |view| && |view| - i <= recent
    requires !view[i].role.Tool? && view[i].toolCalls == [] && !view[i].kind.CompactionSummary?
    ensures !Flags(view, p, recent, 0)[i]
  {
    hide CompleteTurns, GroupAt, Flags, EligibleFrom, UserTurnFrom;
    assert view[0..] == view;
    StartsItsGroup(view, 0, i);
    SuffixesComplete(view, 0, i);
    StandsAlone(view, i);
    FlagOf(view, p, recent, 0, i);
    FewEligible(view, p, i + 1);
  }

  lemma {:induction false} PickAll(ms: seq<Message>, flags: seq<bool>, n: nat)
    requires |ms| == |flags| && n <= |ms|
    requires forall i :: n <= i < |ms| ==> !flags[i]
    ensures Pick(ms, flags, false) == Pick(ms[..n], flags[..n], false) + ms[n..]
  {
    if ms != [] {
      if n > 0 {
        PickAll(ms[1..], flags[1..], n - 1);
        assert ms[..n][1..] == ms[1..][..n - 1] && flags[..n][1..] == flags[1..][..n - 1] && ms[1..][n - 1..] == ms[n..];
      } else {
        PickAll(ms[1..], flags[1..], 0);
        assert ms == [ms[0]] + ms[1..];
      }
    }
  }
}
