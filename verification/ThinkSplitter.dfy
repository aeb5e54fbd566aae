/**
 Splitting streamed content into text and thinking at `<think>` tags that may themselves
 be split across chunks.
 */
module ThinkSplitter {
  import opened TokenUsage
  import opened Chunks

  const OPEN := "<think>"
  const CLOSE := "</think>"

  function Tag(inThink: bool): (tag: string)
    ensures |tag| > 0
  {
    if inThink then CLOSE else OPEN
  }

  /** Where the pattern first occurs at or after `from`; -1 when it does not. */
  function Find(s: string, pattern: string, from: nat): (at: int)
    ensures -1 <= at && (at >= 0 ==> from <= at && MatchAt(s, pattern, at))
    ensures forall i :: from <= i < (if at >= 0 then at else |s| + 1) ==> !MatchAt(s, pattern, i)
    decreases |s| + 1 - from
  {
    if from + |pattern| > |s| then -1
    else if MatchAt(s, pattern, from) then from
    else Find(s, pattern, from + 1)
  }

  /** The longest end of `s`, of at most `k` bytes, that could begin the pattern. */
  function Overlap(s: string, pattern: string, k: nat): (n: nat)
    requires k <= |s| && k <= |pattern|
    ensures n <= k && s[|s| - n..] == pattern[..n]
    ensures forall m :: n < m <= k ==> s[|s| - m..] != pattern[..m]
  {
    if k == 0 || s[|s| - k..] == pattern[..k] then k else Overlap(s, pattern, k - 1)
  }

  function Withheld(s: string, pattern: string): (n: nat)
    requires |pattern| > 0
    ensures n <= |s| && n < |pattern|
  {
    Overlap(s, pattern, Min(|pattern| - 1, |s|))
  }

  /** What came out so far and what is still undecided. */
  datatype Progress = Progress(text: string, thinking: string, inThink: bool, buffer: string)

  function Emit(inThink: bool, s: string, rest: Progress): Progress {
    if inThink then rest.(thinking := s + rest.thinking) else rest.(text := s + rest.text)
  }

  /** Everything that can be decided about `s`, starting inside or outside a think block. */
  function Scan(inThink: bool, s: string): Progress
    decreases |s|
  {
    var at := Find(s, Tag(inThink), 0);
    if at >= 0 then Emit(inThink, s[..at], Scan(!inThink, s[at + |Tag(inThink)|..]))
    else
      var safe := |s| - Withheld(s, Tag(inThink));
      Emit(inThink, s[..safe], Progress("", "", inThink, s[safe..]))
  }

  /** The same, for a string that is known to be over. */
  function Split(inThink: bool, s: string): (string, string)
    decreases |s|
  {
    var at := Find(s, Tag(inThink), 0);
    if at >= 0 then
      var (text, thinking) := Split(!inThink, s[at + |Tag(inThink)|..]);
      if inThink then (text, s[..at] + thinking) else (s[..at] + text, thinking)
    else if inThink then ("", s) else (s, "")
  }

  /* ---------- the object ---------- */

  class Splitter {
    var inThink: bool
    var buffer: string

    constructor ()
      ensures !inThink && buffer == ""
    {
      inThink, buffer := false, "";
    }

    method Process(delta: string) returns (text: string, thinking: string)
      modifies this
      ensures Progress(text, thinking, inThink, buffer) == Scan(old(inThink), old(buffer) + delta)
    {
      hide Scan, Withheld, Find;
      buffer := buffer + delta;
      text, thinking := "", "";
      ghost var whole := Scan(inThink, buffer);
      After("", "", whole);
      while true
        invariant whole == Then(text, thinking, Scan(inThink, buffer))
        decreases |buffer|
      {
        ScanStep(inThink, buffer);
        var tag := Tag(inThink);
        var at := Find(buffer, tag, 0);
        var end := at;
        if at < 0 {
          end := SafeEmitLength(buffer, tag);
        }
        EmitThen(text, thinking, inThink, buffer[..end], Scan(!inThink, buffer[if at >= 0 then at + |tag| else |buffer|..]));
        EmitThen(text, thinking, inThink, buffer[..end], Progress("", "", inThink, buffer[end..]));
        if inThink {
          thinking := thinking + buffer[..end];
        } else {
          text := text + buffer[..end];
        }
        if at < 0 {
          buffer := buffer[end..];
          break;
        }
        buffer := buffer[at + |tag|..];
        inThink := !inThink;
      }
    }

    method Flush() returns (text: string, thinking: string)
      modifies this
      ensures (text, thinking) == if old(inThink) then ("", old(buffer)) else (old(buffer), "")
      ensures buffer == "" && inThink == old(inThink)
    {
      text, thinking := "", "";
      if buffer == "" {
        return;
      }
      if inThink {
        thinking := buffer;
      } else {
        text := buffer;
      }
      buffer := "";
    }
  }

  function SafeEmitLen(s: string, pattern: string): (n: nat)
    requires |pattern| > 0
    ensures n <= |s|
  {
    |s| - Withheld(s, pattern)
  }

  /** Output that comes before the rest. */
  function Then(text: string, thinking: string, rest: Progress): Progress {
    rest.(text := text + rest.text, thinking := thinking + rest.thinking)
  }

  lemma After(text: string, thinking: string, rest: Progress)
    requires text == "" && thinking == ""
    ensures Then(text, thinking, rest) == rest
  {
    assert "" + rest.text == rest.text && "" + rest.thinking == rest.thinking;
  }

  lemma EmitThen(text: string, thinking: string, inThink: bool, s: string, rest: Progress)
    ensures Then(text, thinking, Emit(inThink, s, rest)) ==
      if inThink then Then(text, thinking + s, rest) else Then(text + s, thinking, rest)
  {
    assert text + (s + rest.text) == (text + s) + rest.text;
    assert thinking + (s + rest.thinking) == (thinking + s) + rest.thinking;
  }

  lemma ScanStep(inThink: bool, s: string)
    ensures var tag := Tag(inThink);
      var at := Find(s, tag, 0);
      Scan(inThink, s) ==
        if at >= 0 then Emit(inThink, s[..at], Scan(!inThink, s[at + |tag|..]))
        else Emit(inThink, s[..SafeEmitLen(s, tag)], Progress("", "", inThink, s[SafeEmitLen(s, tag)..]))
  {
  }

  /** The length of the part that can be emitted, tried from the longest suspicious end down. */
  method SafeEmitLength(s: string, target: string) returns (safe: nat)
    requires |target| > 0
    ensures safe == SafeEmitLen(s, target)
  {
    var k := Min(|target| - 1, |s|);
    while k >= 1
      invariant 0 <= k <= |s| && k < |target|
      invariant Withheld(s, target) == Overlap(s, target, k)
    {
      if target[..k] == s[|s| - k..] {
        return |s| - k;
      }
      k := k - 1;
    }
    safe := |s|;
  }

  /* ---------- chunks do not matter ---------- */

  lemma MatchInPrefix(s: string, d: string, pattern: string, i: nat)
    requires i + |pattern| <= |s|
    ensures MatchAt(s, pattern, i) <==> MatchAt(s + d, pattern, i)
  {
    assert (s + d)[..|s|] == s;
    MatchInPart(s + d, 0, |s|, pattern, i);
  }

  lemma FindIs(s: string, pattern: string, at: nat)
    requires MatchAt(s, pattern, at) && forall i :: 0 <= i < at ==> !MatchAt(s, pattern, i)
    ensures Find(s, pattern, 0) == at
  {
  }

  lemma FindExtends(s: string, d: string, pattern: string)
    requires Find(s, pattern, 0) >= 0
    ensures Find(s + d, pattern, 0) == Find(s, pattern, 0)
  {
    var at := Find(s, pattern, 0);
    MatchInPrefix(s, d, pattern, at);
    forall i | 0 <= i < at ensures !MatchAt(s + d, pattern, i) {
      MatchInPrefix(s, d, pattern, i);
    }
    FindIs(s + d, pattern, at);
  }

  /** A match that begins in `s` and ends behind it begins with an end of `s`. */
  lemma StraddlingMatch(s: string, d: string, pattern: string, i: nat)
    requires i <= |s| < i + |pattern| && MatchAt(s + d, pattern, i)
    ensures s[i..] == pattern[..|s| - i]
  {
    SliceOfSlice(s + d, i, i + |pattern|, 0, |s| - i);
    assert (s + d)[i..|s|] == s[i..];
  }

  /** A match that begins before the withheld end would have to end in `s`. */
  lemma NoMatchBefore(s: string, d: string, pattern: string, i: nat)
    requires |pattern| > 0 && Find(s, pattern, 0) < 0 && i < SafeEmitLen(s, pattern)
    ensures !MatchAt(s + d, pattern, i)
  {
    assert s[|s| - (|s| - i)..] == s[i..];
    if i + |pattern| <= |s| {
      MatchInPrefix(s, d, pattern, i);
    } else if MatchAt(s + d, pattern, i) {
      StraddlingMatch(s, d, pattern, i);
    }
  }

  lemma FindNone(s: string, pattern: string)
    requires forall i: nat :: !MatchAt(s, pattern, i)
    ensures Find(s, pattern, 0) == -1
  {
  }

  lemma FindBeyond(s: string, d: string, pattern: string)
    requires |pattern| > 0 && Find(s, pattern, 0) < 0
    ensures var e := SafeEmitLen(s, pattern);
      var found := Find(s[e..] + d, pattern, 0);
      Find(s + d, pattern, 0) == if found < 0 then -1 else e + found
  {
    hide Withheld;
    var e := SafeEmitLen(s, pattern);
    var rest := s[e..] + d;
    assert (s + d)[e..|s + d|] == rest;
    var found := Find(rest, pattern, 0);
    forall i: nat | found < 0 || i < e + found ensures !MatchAt(s + d, pattern, i) {
      if i < e {
        NoMatchBefore(s, d, pattern, i);
      } else if i + |pattern| <= |s + d| {
        MatchInPart(s + d, e, |s + d|, pattern, i - e);
      }
    }
    if found >= 0 {
      MatchInPart(s + d, e, |s + d|, pattern, found);
      FindIs(s + d, pattern, e + found);
    } else {
      FindNone(s + d, pattern);
    }
  }

  lemma OverlapIs(s: string, pattern: string, k: nat, n: nat)
    requires n <= k <= |s| && k <= |pattern| && s[|s| - n..] == pattern[..n]
    requires forall m :: n < m <= k ==> s[|s| - m..] != pattern[..m]
    ensures Overlap(s, pattern, k) == n
  {
    var r := Overlap(s, pattern, k);
    assert s[|s| - r..] == pattern[..r] && s[|s| - n..] == pattern[..n];
  }

  /** Nothing longer than what is withheld could begin the pattern. */
  lemma NotWithheld(s: string, pattern: string, m: nat)
    requires |pattern| > 0 && Withheld(s, pattern) < m < |pattern| && m <= |s|
    ensures s[|s| - m..] != pattern[..m]
  {
  }

  lemma IsWithheld(s: string, pattern: string)
    requires |pattern| > 0
    ensures s[|s| - Withheld(s, pattern)..] == pattern[..Withheld(s, pattern)]
  {
  }

  /** An end of `s + d` that reaches into `s` and could begin the pattern. */
  lemma LongerOverlap(s: string, d: string, pattern: string, m: nat)
    requires |d| <= m <= |s + d| && m <= |pattern| && (s + d)[|s + d| - m..] == pattern[..m]
    ensures s[|s| - (m - |d|)..] == pattern[..m - |d|]
  {
    var whole, k := s + d, m - |d|;
    SliceOfSlice(whole, |whole| - m, |whole|, 0, k);
    assert whole[|whole| - m..|whole| - m + k] == s[|s| - k..];
    assert pattern[..m][..k] == pattern[..k];
  }

  /** What is withheld of a longer string is what is withheld of its undecided part. */
  lemma WithheldBeyond(s: string, d: string, pattern: string)
    requires |pattern| > 0
    ensures var e := SafeEmitLen(s, pattern); Withheld(s + d, pattern) == Withheld(s[e..] + d, pattern)
  {
    hide Overlap, SafeEmitLen;
    var whole, rest := s + d, s[SafeEmitLen(s, pattern)..] + d;
    var w := Withheld(rest, pattern);
    IsWithheld(rest, pattern);
    UndecidedEnd(s, d, pattern);
    SameEnd(whole, rest, w);
    forall m | w < m <= Min(|pattern| - 1, |whole|) ensures whole[|whole| - m..] != pattern[..m] {
      NoLongerOverlap(s, d, pattern, m);
    }
    OverlapIs(whole, pattern, Min(|pattern| - 1, |whole|), w);
  }

  lemma UndecidedEnd(s: string, d: string, pattern: string)
    requires |pattern| > 0
    ensures var e, rest := SafeEmitLen(s, pattern), s[SafeEmitLen(s, pattern)..] + d;
      |rest| == Withheld(s, pattern) + |d| <= |s + d| && (s + d)[|s + d| - |rest|..] == rest
  {
  }

  lemma NoLongerOverlap(s: string, d: string, pattern: string, m: nat)
    requires |pattern| > 0 && m < |pattern| && m <= |s + d|
    requires Withheld(s[SafeEmitLen(s, pattern)..] + d, pattern) < m
    ensures (s + d)[|s + d| - m..] != pattern[..m]
  {
    hide Withheld, SafeEmitLen;
    var whole, rest := s + d, s[SafeEmitLen(s, pattern)..] + d;
    UndecidedEnd(s, d, pattern);
    if m <= |rest| {
      SameEnd(whole, rest, m);
      NotWithheld(rest, pattern, m);
    } else {
      NotWithheld(s, pattern, m - |d|);
      if whole[|whole| - m..] == pattern[..m] {
        LongerOverlap(s, d, pattern, m);
      }
    }
  }

  lemma SameEnd(whole: string, rest: string, n: nat)
    requires n <= |rest| <= |whole| && whole[|whole| - |rest|..] == rest
    ensures whole[|whole| - n..] == rest[|rest| - n..]
  {
    SliceOfSlice(whole, |whole| - |rest|, |whole|, |rest| - n, |rest|);
  }

  lemma EmitJoins(inThink: bool, a: string, b: string, rest: Progress)
    ensures Emit(inThink, a + b, rest) == Emit(inThink, a, Emit(inThink, b, rest))
  {
    assert (a + b) + rest.text == a + (b + rest.text);
    assert (a + b) + rest.thinking == a + (b + rest.thinking);
  }

  /** With no tag in `s`, its decided part only prefixes the output of what follows. */
  lemma ScanPrefix(inThink: bool, s: string, d: string)
    requires Find(s, Tag(inThink), 0) < 0
    ensures var e := SafeEmitLen(s, Tag(inThink));
      Scan(inThink, s + d) == Emit(inThink, s[..e], Scan(inThink, s[e..] + d))
  {
    hide Find, Withheld, Scan, Emit;
    var tag := Tag(inThink);
    var e := SafeEmitLen(s, tag);
    var whole, rest := s + d, s[e..] + d;
    FindBeyond(s, d, tag);
    WithheldBeyond(s, d, tag);
    ScanStep(inThink, whole);
    ScanStep(inThink, rest);
    var found := Find(rest, tag, 0);
    var cut := if found >= 0 then found else SafeEmitLen(rest, tag);
    var from := if found >= 0 then found + |tag| else cut;
    assert whole[..e + cut] == s[..e] + rest[..cut];
    assert whole[e + from..] == rest[from..];
    EmitJoins(inThink, s[..e], rest[..cut], if found >= 0 then Scan(!inThink, rest[from..]) else Progress("", "", inThink, rest[from..]));
  }

  /** Scanning a string at once or in two parts gives the same output and the same state. */
  lemma {:induction false} ScanComposes(inThink: bool, s: string, d: string)
    ensures var first := Scan(inThink, s);
      Scan(inThink, s + d) == Then(first.text, first.thinking, Scan(first.inThink, first.buffer + d))
    decreases |s|
  {
    hide Find, Withheld, Scan, Emit, Then;
    var tag := Tag(inThink);
    var at := Find(s, tag, 0);
    ScanStep(inThink, s);
    if at >= 0 {
      FindBounds(s, tag);
      FindExtends(s, d, tag);
      ScanStep(inThink, s + d);
      var rest := s[at + |tag|..];
      assert (s + d)[..at] == s[..at] && (s + d)[at + |tag|..] == rest + d;
      ScanComposes(!inThink, rest, d);
      var first := Scan(!inThink, rest);
      EmitBefore(inThink, s[..at], first, Scan(first.inThink, first.buffer + d));
    } else {
      var e := SafeEmitLen(s, tag);
      ScanPrefix(inThink, s, d);
      EmitBefore(inThink, s[..e], Progress("", "", inThink, s[e..]), Scan(inThink, s[e..] + d));
      After("", "", Scan(inThink, s[e..] + d));
    }
  }

  lemma FindBounds(s: string, pattern: string)
    requires Find(s, pattern, 0) >= 0
    ensures Find(s, pattern, 0) + |pattern| <= |s|
  {
  }

  lemma EmitBefore(inThink: bool, s: string, first: Progress, rest: Progress)
    ensures var emitted := Emit(inThink, s, first);
      && emitted.inThink == first.inThink && emitted.buffer == first.buffer
      && Then(emitted.text, emitted.thinking, rest) == Emit(inThink, s, Then(first.text, first.thinking, rest))
  {
    assert (s + first.text) + rest.text == s + (first.text + rest.text);
    assert (s + first.thinking) + rest.thinking == s + (first.thinking + rest.thinking);
  }

  /** The output of one delta after another, and the state they leave. */
  function ProcessAll(inThink: bool, buffer: string, chunks: seq<string>): Progress
    decreases |chunks|
  {
    if chunks == [] then Progress("", "", inThink, buffer)
    else
      var first := Scan(inThink, buffer + chunks[0]);
      Then(first.text, first.thinking, ProcessAll(first.inThink, first.buffer, chunks[1..]))
  }

  /** A state in which nothing more can be decided. */
  predicate Undecided(inThink: bool, buffer: string) {
    Scan(inThink, buffer) == Progress("", "", inThink, buffer)
  }

  lemma {:induction false} LeftUndecided(inThink: bool, s: string)
    ensures var p := Scan(inThink, s); Undecided(p.inThink, p.buffer)
    decreases |s|
  {
    hide Find, Withheld, Emit;
    ScanStep(inThink, s);
    var tag := Tag(inThink);
    var at := Find(s, tag, 0);
    if at >= 0 {
      FindBounds(s, tag);
      LeftUndecided(!inThink, s[at + |tag|..]);
      EmitState(inThink, s[..at], Scan(!inThink, s[at + |tag|..]));
    } else {
      var e := SafeEmitLen(s, tag);
      EmitState(inThink, s[..e], Progress("", "", inThink, s[e..]));
      WithheldStays(s, tag);
      ScanStep(inThink, s[e..]);
      EmitNothing(inThink, Progress("", "", inThink, s[e..]));
      assert s[e..][..0] == "" && s[e..][0..] == s[e..];
    }
  }

  lemma EmitState(inThink: bool, s: string, p: Progress)
    ensures Emit(inThink, s, p).inThink == p.inThink && Emit(inThink, s, p).buffer == p.buffer
  {
  }

  lemma EmitNothing(inThink: bool, p: Progress)
    ensures Emit(inThink, "", p) == p
  {
    assert "" + p.text == p.text && "" + p.thinking == p.thinking;
  }

  lemma WithheldStays(s: string, pattern: string)
    requires |pattern| > 0
    ensures var e := SafeEmitLen(s, pattern); Find(s[e..], pattern, 0) < 0 && SafeEmitLen(s[e..], pattern) == 0
  {
    var e := SafeEmitLen(s, pattern);
    var b := s[e..];
    assert b[|b| - |b|..] == b;
    OverlapIs(b, pattern, Min(|pattern| - 1, |b|), |b|);
  }

  lemma {:induction false} ProcessComposes(inThink: bool, buffer: string, chunks: seq<string>)
    requires Undecided(inThink, buffer)
    ensures ProcessAll(inThink, buffer, chunks) == Scan(inThink, buffer + Join(chunks))
    decreases |chunks|
  {
    hide Scan, Then;
    if chunks == [] {
      assert buffer + Join(chunks) == buffer;
    } else {
      var first := Scan(inThink, buffer + chunks[0]);
      LeftUndecided(inThink, buffer + chunks[0]);
      ProcessComposes(first.inThink, first.buffer, chunks[1..]);
      ScanComposes(inThink, buffer + chunks[0], Join(chunks[1..]));
      assert (buffer + chunks[0]) + Join(chunks[1..]) == buffer + Join(chunks);
    }
  }

  /** The buffer drained into the stream it belongs to. */
  function Drained(p: Progress): (string, string) {
    if p.inThink then (p.text, p.thinking + p.buffer) else (p.text + p.buffer, p.thinking)
  }

  lemma {:induction false} ScanThenDrain(inThink: bool, s: string)
    ensures Drained(Scan(inThink, s)) == Split(inThink, s)
    decreases |s|
  {
    hide Find, Withheld, Scan, Emit;
    ScanStep(inThink, s);
    var tag := Tag(inThink);
    var at := Find(s, tag, 0);
    if at >= 0 {
      FindBounds(s, tag);
      ScanThenDrain(!inThink, s[at + |tag|..]);
      EmitDrains(inThink, s[..at], Scan(!inThink, s[at + |tag|..]));
    } else {
      var e := SafeEmitLen(s, tag);
      EmitDrains(inThink, s[..e], Progress("", "", inThink, s[e..]));
      assert s[..e] + s[e..] == s;
      assert "" + s[e..] == s[e..];
    }
  }

  lemma EmitDrains(inThink: bool, s: string, p: Progress)
    ensures Drained(Emit(inThink, s, p))
      == if inThink then (Drained(p).0, s + Drained(p).1) else (s + Drained(p).0, Drained(p).1)
  {
    assert (s + p.text) + p.buffer == s + (p.text + p.buffer);
    assert (s + p.thinking) + p.buffer == s + (p.thinking + p.buffer);
  }

  /** However the content is cut into chunks, the text and the thinking that come out, the
      final flush included, are those of splitting the whole content at once; and two ways
      of cutting the same content leave the same state. */
  lemma ChunkingIsInvisible(chunks: seq<string>, other: seq<string>)
    ensures Drained(ProcessAll(false, "", chunks)) == Split(false, Join(chunks))
    ensures Join(chunks) == Join(other) ==> ProcessAll(false, "", chunks) == ProcessAll(false, "", other)
  {
    hide Scan, Split, Drained, ProcessAll;
    NothingUndecided();
    ProcessComposes(false, "", chunks);
    ProcessComposes(false, "", other);
    assert "" + Join(chunks) == Join(chunks) && "" + Join(other) == Join(other);
    ScanThenDrain(false, Join(chunks));
  }

  lemma NothingUndecided()
    ensures Undecided(false, "")
  {
  }

  /* ---------- nothing is lost but the tags ---------- */

  /** The pieces between the tags, alternately outside and inside think blocks. */
  function Segments(inThink: bool, s: string): (segments: seq<string>)
    ensures segments != []
    decreases |s|
  {
    var at := Find(s, Tag(inThink), 0);
    if at >= 0 then [s[..at]] + Segments(!inThink, s[at + |Tag(inThink)|..]) else [s]
  }

  function Render(inThink: bool, segments: seq<string>): string
    requires segments != []
    decreases |segments|
  {
    if |segments| == 1 then segments[0] else segments[0] + Tag(inThink) + Render(!inThink, segments[1..])
  }

  function Collect(inThink: bool, segments: seq<string>): (string, string)
    decreases |segments|
  {
    if segments == [] then ("", "")
    else
      var (text, thinking) := Collect(!inThink, segments[1..]);
      if inThink then (text, segments[0] + thinking) else (segments[0] + text, thinking)
  }

  /** Whether piece `i` lies inside a block. */
  function Inside(inThink: bool, i: nat): bool {
    if i % 2 == 0 then inThink else !inThink
  }

  ghost predicate Free(piece: string, pattern: string) {
    forall j: nat :: !MatchAt(piece, pattern, j)
  }

  lemma {:induction false} SegmentsRender(inThink: bool, s: string)
    ensures Render(inThink, Segments(inThink, s)) == s
    decreases |s|
  {
    hide Find, Tag, Free;
    var tag := Tag(inThink);
    var at := Find(s, tag, 0);
    FirstPiece(s, tag);
    if at >= 0 {
      var rest := s[at + |tag|..];
      SegmentsRender(!inThink, rest);
      assert Segments(inThink, s)[1..] == Segments(!inThink, rest);
      assert s == s[..at] + tag + rest;
    }
  }

  lemma {:induction false} SegmentsCollect(inThink: bool, s: string)
    ensures Split(inThink, s) == Collect(inThink, Segments(inThink, s))
    decreases |s|
  {
    hide Find, Tag, Free;
    var tag := Tag(inThink);
    var at := Find(s, tag, 0);
    FirstPiece(s, tag);
    if at >= 0 {
      var rest := s[at + |tag|..];
      SegmentsCollect(!inThink, rest);
      assert Segments(inThink, s)[1..] == Segments(!inThink, rest);
    } else {
      assert s + "" == s;
      assert Collect(!inThink, []) == ("", "");
      assert [s][1..] == [];
    }
  }

  lemma {:induction false} SegmentsFree(inThink: bool, s: string, i: nat)
    requires i < |Segments(inThink, s)|
    ensures Free(Segments(inThink, s)[i], Tag(Inside(inThink, i)))
    decreases |s|
  {
    hide Find, Tag, Free;
    var tag := Tag(inThink);
    var at := Find(s, tag, 0);
    FirstPiece(s, tag);
    if i > 0 {
      var rest := s[at + |tag|..];
      SegmentsFree(!inThink, rest, i - 1);
      assert Segments(inThink, s)[1..] == Segments(!inThink, rest);
      assert Inside(inThink, i) == Inside(!inThink, i - 1);
    }
  }

  /** The content is its pieces with the tags between them; the text is the pieces outside
      the blocks, the thinking those inside; and no piece holds the tag that would end it. */
  lemma OnlyTagsAreLost(inThink: bool, s: string)
    ensures var segments := Segments(inThink, s);
      && Render(inThink, segments) == s
      && Split(inThink, s) == Collect(inThink, segments)
      && forall i: nat :: i < |segments| ==> Free(segments[i], Tag(Inside(inThink, i)))
  {
    hide Segments, Render, Split, Collect, Free;
    SegmentsRender(inThink, s);
    SegmentsCollect(inThink, s);
    forall i: nat | i < |Segments(inThink, s)| ensures Free(Segments(inThink, s)[i], Tag(Inside(inThink, i))) {
      SegmentsFree(inThink, s, i);
    }
  }

  lemma FirstPiece(s: string, pattern: string)
    requires |pattern| > 0
    ensures var at := Find(s, pattern, 0);
      if at >= 0 then at + |pattern| <= |s| && s[at..at + |pattern|] == pattern && Free(s[..at], pattern) else Free(s, pattern)
  {
    var at := Find(s, pattern, 0);
    if at >= 0 {
      forall j: nat ensures !MatchAt(s[..at], pattern, j) {
        if j + |pattern| <= at {
          assert s[0..at] == s[..at];
          MatchInPart(s, 0, at, pattern, j);
        }
      }
    }
  }
}
