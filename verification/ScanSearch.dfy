/**
 Searching a file read chunk by chunk for a query whose matches may overlap and may cross
 chunk boundaries.
 */
module ScanSearch {
  import opened TokenUsage
  import opened Chunks

  /** The positions from `lo` up to `hi` at which the query occurs, in order. */
  function Matches(text: string, query: string, lo: nat, hi: nat): (found: seq<nat>)
    requires lo <= hi
    ensures |found| <= hi - lo
    decreases hi - lo
  {
    if lo == hi then []
    else Matches(text, query, lo, hi - 1) + if MatchAt(text, query, hi - 1) then [hi - 1] else []
  }

  /** The matches that end within the first `end` bytes. */
  function MatchesWithin(text: string, query: string, end: nat): seq<nat> {
    Matches(text, query, 0, if end < |query| then 0 else end - |query| + 1)
  }

  function AllMatches(text: string, query: string): seq<nat> {
    MatchesWithin(text, query, |text|)
  }

  function First(found: seq<nat>, n: nat): seq<nat> {
    if |found| <= n then found else found[..n]
  }

  /** The list of matches is exactly what it should be: strictly increasing, and every
      position at which the query occurs. */
  lemma MatchesUnfold(text: string, query: string, lo: nat, hi: nat)
    requires lo < hi
    ensures Matches(text, query, lo, hi) == Matches(text, query, lo, hi - 1) + if MatchAt(text, query, hi - 1) then [hi - 1] else []
  {
    hide MatchAt;
  }

  lemma {:induction false} MatchMembers(text: string, query: string, lo: nat, hi: nat, p: nat)
    requires lo <= hi
    ensures p in Matches(text, query, lo, hi) <==> lo <= p < hi && MatchAt(text, query, p)
    decreases hi - lo
  {
    hide MatchAt, Matches;
    if lo < hi {
      MatchMembers(text, query, lo, hi - 1, p);
      MatchesUnfold(text, query, lo, hi);
    } else {
      NoMatches(text, query, lo, hi);
    }
  }

  lemma {:induction false} MatchesIncrease(text: string, query: string, lo: nat, hi: nat)
    requires lo <= hi
    ensures var found := Matches(text, query, lo, hi); forall i, j :: 0 <= i < j < |found| ==> found[i] < found[j]
    decreases hi - lo
  {
    hide MatchAt, Matches;
    if lo < hi {
      MatchesIncrease(text, query, lo, hi - 1);
      MatchesUnfold(text, query, lo, hi);
      var before := Matches(text, query, lo, hi - 1);
      forall i | 0 <= i < |before| ensures before[i] < hi - 1 {
        MatchMembers(text, query, lo, hi - 1, before[i]);
      }
    } else {
      NoMatches(text, query, lo, hi);
    }
  }

  lemma MatchesAreMatches(text: string, query: string, lo: nat, hi: nat)
    requires lo <= hi
    ensures var found := Matches(text, query, lo, hi);
      && (forall i, j :: 0 <= i < j < |found| ==> found[i] < found[j])
      && (forall p: nat :: p in found <==> lo <= p < hi && MatchAt(text, query, p))
  {
    hide MatchAt, Matches;
    MatchesIncrease(text, query, lo, hi);
    forall p: nat ensures p in Matches(text, query, lo, hi) <==> lo <= p < hi && MatchAt(text, query, p) {
      MatchMembers(text, query, lo, hi, p);
    }
  }

  lemma AllMatchesComplete(text: string, query: string)
    ensures var found := AllMatches(text, query);
      && (forall i, j :: 0 <= i < j < |found| ==> found[i] < found[j])
      && (forall p: nat :: p in found <==> MatchAt(text, query, p) && (query != "" || p <= |text|))
  {
    MatchesAreMatches(text, query, 0, if |text| < |query| then 0 else |text| - |query| + 1);
  }

  lemma {:induction false} MatchesSplit(text: string, query: string, lo: nat, mid: nat, hi: nat)
    requires lo <= mid <= hi
    ensures Matches(text, query, lo, hi) == Matches(text, query, lo, mid) + Matches(text, query, mid, hi)
    decreases hi - mid
  {
    if mid < hi {
      MatchesSplit(text, query, lo, mid, hi - 1);
    }
  }

  lemma {:induction false} NoMatches(text: string, query: string, lo: nat, hi: nat)
    requires lo <= hi && forall i :: lo <= i < hi ==> !MatchAt(text, query, i)
    ensures Matches(text, query, lo, hi) == []
    decreases hi - lo
  {
    if lo < hi {
      NoMatches(text, query, lo, hi - 1);
    }
  }

  /** The first match in `scan` at or after `from`. */
  method Index(scan: string, query: string, from: nat) returns (at: int)
    requires from + |query| <= |scan|
    ensures -1 <= at && (at >= 0 ==> from <= at && MatchAt(scan, query, at))
    ensures forall i :: from <= i < (if at >= 0 then at else |scan|) ==> !MatchAt(scan, query, i) || |query| == 0
  {
    at := from;
    while at + |query| <= |scan|
      invariant from <= at
      invariant forall i :: from <= i < at ==> !MatchAt(scan, query, i)
    {
      if scan[at..at + |query|] == query {
        return;
      }
      at := at + 1;
    }
    at := -1;
  }

  datatype Status = Complete | LimitReached | LimitTooSmall

  /** Bytes beyond the first of the report of a match: an entry is never empty. */
  type EntrySize = (nat, string, nat) -> nat

  /** The window kept in memory is the end of what has been read. */
  predicate Window(text: string, offset: nat, overlap: nat, carry: string) {
    offset <= |text| && |carry| == Min(overlap, offset) && carry == text[offset - |carry|..offset]
  }

  lemma WindowScan(text: string, offset: nat, overlap: nat, carry: string, chunk: string)
    requires Window(text, offset, overlap, carry) && offset + |chunk| <= |text| && chunk == text[offset..offset + |chunk|]
    ensures carry + chunk == text[offset - |carry|..offset + |chunk|]
  {
  }

  lemma WindowMoves(text: string, offset: nat, overlap: nat, carry: string, chunk: string)
    requires Window(text, offset, overlap, carry) && offset + |chunk| <= |text| && chunk == text[offset..offset + |chunk|]
    ensures var scan := carry + chunk;
      var keep := Min(overlap, |scan|);
      Window(text, offset + |chunk|, overlap, scan[|scan| - keep..])
  {
    WindowScan(text, offset, overlap, carry, chunk);
    var scan, base := carry + chunk, offset - |carry|;
    var keep := Min(overlap, |scan|);
    SliceOfSlice(text, base, offset + |chunk|, |scan| - keep, |scan|);
  }

  lemma WindowStarts(text: string, overlap: nat)
    ensures Window(text, 0, overlap, "")
  {
  }

  /** The window reaches back to the first position not yet searched. */
  lemma WindowReaches(text: string, offset: nat, overlap: nat, carry: string, query: string)
    requires Window(text, offset, overlap, carry) && |query| <= overlap + 1
    ensures |carry| <= offset <= |text| && offset - |carry| <= Bound(query, offset)
  {
  }

  /** The search so far: the matches found are the first that lie before `bound`. */
  predicate Found(text: string, query: string, maxMatches: nat, bound: nat, reported: seq<nat>) {
    reported == First(Matches(text, query, 0, bound), maxMatches)
  }

  /** The first position whose match would end after `end`. */
  function Bound(query: string, end: nat): nat {
    if end < |query| then 0 else end - |query| + 1
  }

  lemma FoundNext(text: string, query: string, maxMatches: nat, bound: nat, at: nat, reported: seq<nat>)
    requires Found(text, query, maxMatches, bound, reported) && |reported| < maxMatches
    requires bound <= at && (forall i :: bound <= i < at ==> !MatchAt(text, query, i))
    ensures Found(text, query, maxMatches, at, reported)
    ensures MatchAt(text, query, at) ==> Found(text, query, maxMatches, at + 1, reported + [at])
    ensures !MatchAt(text, query, at) ==> Found(text, query, maxMatches, at + 1, reported)
  {
    NoMatches(text, query, bound, at);
    MatchesSplit(text, query, 0, bound, at);
  }

  lemma FoundFull(text: string, query: string, maxMatches: nat, bound: nat, later: nat, reported: seq<nat>)
    requires Found(text, query, maxMatches, bound, reported) && bound <= later && |reported| == maxMatches
    ensures Found(text, query, maxMatches, later, reported)
  {
    MatchesSplit(text, query, 0, bound, later);
  }

  lemma OneMatch(text: string, query: string, at: nat)
    requires MatchAt(text, query, at)
    ensures Matches(text, query, at, at + 1) == [at]
  {
    hide MatchAt;
    assert Matches(text, query, at, at) == [];
  }

  lemma FoundPrefix(text: string, query: string, maxMatches: nat, at: nat, later: nat, reported: seq<nat>)
    requires Found(text, query, maxMatches, at, reported) && at < later && MatchAt(text, query, at) && |reported| < maxMatches
    ensures reported < First(Matches(text, query, 0, later), maxMatches)
  {
    hide MatchAt, Matches;
    MatchesSplit(text, query, 0, at, later);
    MatchesSplit(text, query, at, at + 1, later);
    OneMatch(text, query, at);
    var before, rest := Matches(text, query, 0, at), Matches(text, query, at + 1, later);
    assert reported == before;
    assert Matches(text, query, 0, later) == before + ([at] + rest);
  }

  /* ---------- the response limit ---------- */

  ghost predicate AtMost(entry: EntrySize, cost: nat) {
    forall at, scan, position :: 1 + entry(at, scan, position) <= cost
  }

  ghost predicate AtLeast(entry: EntrySize, cost: nat) {
    forall at, scan, position :: cost <= 1 + entry(at, scan, position)
  }

  /** `n` entries take `written` bytes. */
  ghost predicate Accounts(entry: EntrySize, n: nat, written: nat) {
    && (forall cost: nat :: AtMost(entry, cost) ==> written <= cost * n)
    && (forall cost: nat :: AtLeast(entry, cost) ==> cost * n <= written)
  }

  lemma AccountsNothing(entry: EntrySize)
    ensures Accounts(entry, 0, 0)
  {
  }

  lemma AccountsEntry(entry: EntrySize, n: nat, written: nat, at: nat, scan: string, position: nat)
    requires Accounts(entry, n, written)
    ensures Accounts(entry, n + 1, written + 1 + entry(at, scan, position))
  {
    forall cost: nat | AtMost(entry, cost) ensures written + 1 + entry(at, scan, position) <= cost * (n + 1) {
      assert written <= cost * n;
    }
    forall cost: nat | AtLeast(entry, cost) ensures cost * (n + 1) <= written + 1 + entry(at, scan, position) {
      assert cost * n <= written;
    }
  }

  /** The entry behind `n` others would not fit. */
  ghost predicate Overflows(entry: EntrySize, n: nat, limit: nat) {
    forall cost: nat :: AtMost(entry, cost) ==> cost * (n + 1) > limit
  }

  lemma OverflowsNow(entry: EntrySize, n: nat, written: nat, limit: nat)
    requires Accounts(entry, n, written) && written > limit && n > 0
    ensures Overflows(entry, n - 1, limit)
  {
    forall cost: nat | AtMost(entry, cost) ensures cost * n > limit {
      assert written <= cost * n;
    }
  }

  lemma FitsWithin(entry: EntrySize, n: nat, written: nat, limit: nat)
    requires Accounts(entry, n, written) && written <= limit
    ensures forall cost: nat :: AtLeast(entry, cost) ==> cost * n <= limit
  {
  }

  lemma OverflowsAll(entry: EntrySize, n: nat, all: nat, limit: nat)
    requires Overflows(entry, n, limit) && n < all
    ensures forall cost: nat :: AtMost(entry, cost) ==> cost * all > limit
  {
    forall cost: nat | AtMost(entry, cost) ensures cost * all > limit {
      assert cost * (n + 1) <= cost * all;
    }
  }

  /** Scans one window; stops early when the next entry does not fit the response. */
  method ScanWindow(ghost text: string, scan: string, base: nat, offset: nat, query: string, maxMatches: nat,
                    entry: EntrySize, responseLimit: nat, soFar: seq<nat>, spent: nat, last: int)
    returns (reported: seq<nat>, written: nat, lastMatch: int, stopped: bool)
    requires |query| > 0 && base <= offset <= base + |scan| <= |text| && scan == text[base..base + |scan|]
    requires base <= Bound(query, offset)
    requires Found(text, query, maxMatches, Bound(query, offset), soFar) && |soFar| <= maxMatches
    requires last < Bound(query, offset) && (soFar == [] <==> spent == 0)
    requires Accounts(entry, |soFar|, spent) && spent <= responseLimit
    ensures Accounts(entry, |reported|, written) && written <= responseLimit
    ensures stopped ==> Overflows(entry, |reported|, responseLimit)
    ensures !stopped ==>
      && Found(text, query, maxMatches, Bound(query, base + |scan|), reported) && |reported| <= maxMatches
      && lastMatch < Bound(query, base + |scan|)
    ensures stopped ==> reported < First(AllMatches(text, query), maxMatches)
    ensures reported == [] <==> written == 0
  {
    hide Matches, First, Accounts, Overflows;
    reported, written, lastMatch, stopped := soFar, spent, last, false;
    var position := 0;
    ghost var bound := Bound(query, offset);
    ghost var end := Bound(query, base + |scan|);
    while position + |query| <= |scan| && |reported| < maxMatches
      invariant position <= |scan| && bound == Max(Bound(query, offset), base + position) && bound <= end
      invariant Found(text, query, maxMatches, bound, reported) && |reported| <= maxMatches
      invariant lastMatch < bound && (reported == [] <==> written == 0)
      invariant Accounts(entry, |reported|, written) && written <= responseLimit
      decreases |scan| - position
    {
      var relative := Index(scan, query, position);
      NoneBetween(text, scan, base, query, position, if relative < 0 then |scan| - |query| + 1 else relative);
      if relative < 0 {
        FoundEnds(text, query, maxMatches, bound, end, reported);
        bound := end;
        break;
      }
      position := relative;
      var absolute := base + position;
      if absolute + |query| <= offset {
        position := position + 1;
        continue;
      }
      FoundNext(text, query, maxMatches, bound, absolute, reported);
      if absolute != lastMatch {
        var size := 1 + entry(absolute, scan, position);
        AccountsEntry(entry, |reported|, written, absolute, scan, position);
        if written + size > responseLimit {
          OverflowsNow(entry, |reported| + 1, written + size, responseLimit);
          FoundPrefix(text, query, maxMatches, absolute, Bound(query, |text|), reported);
          stopped := true;
          return;
        }
        written := written + size;
        reported := reported + [absolute];
        lastMatch := absolute;
      }
      position := position + 1;
      bound := absolute + 1;
    }
    if |reported| == maxMatches {
      FoundFull(text, query, maxMatches, bound, end, reported);
    }
  }

  lemma FoundEnds(text: string, query: string, maxMatches: nat, bound: nat, end: nat, reported: seq<nat>)
    requires Found(text, query, maxMatches, bound, reported) && |reported| < maxMatches
    requires bound <= end && forall i :: bound <= i < end ==> !MatchAt(text, query, i)
    ensures Found(text, query, maxMatches, end, reported)
  {
    FoundNext(text, query, maxMatches, bound, end, reported);
  }

  lemma NoneBetween(text: string, scan: string, base: nat, query: string, from: nat, to: nat)
    requires base + |scan| <= |text| && scan == text[base..base + |scan|]
    requires from <= to && forall i :: from <= i < to ==> i + |query| <= |scan| && !MatchAt(scan, query, i)
    ensures forall i :: base + from <= i < base + to ==> !MatchAt(text, query, i)
    ensures to + |query| <= |scan| ==> (MatchAt(scan, query, to) <==> MatchAt(text, query, base + to))
  {
    forall i | base + from <= i < base + to ensures !MatchAt(text, query, i) {
      assert !MatchAt(scan, query, i - base);
      SliceOfSlice(text, base, base + |scan|, i - base, i - base + |query|);
    }
    if to + |query| <= |scan| {
      SliceOfSlice(text, base, base + |scan|, to, to + |query|);
    }
  }

  lemma FoundNothing(text: string, query: string, maxMatches: nat)
    requires query != ""
    ensures Found(text, query, maxMatches, Bound(query, 0), [])
  {
  }

  lemma FoundAll(text: string, query: string, maxMatches: nat, reported: seq<nat>)
    requires Found(text, query, maxMatches, Bound(query, |text|), reported)
    ensures reported == First(AllMatches(text, query), maxMatches)
  {
  }

  lemma NoChunks()
    ensures Join([]) == ""
  {
  }

  lemma NextChunk(chunks: seq<string>, k: nat, text: string, offset: nat)
    requires k < |chunks| && offset <= |text| && text[offset..] == Join(chunks[k..])
    ensures var end := offset + |chunks[k]|;
      end <= |text| && chunks[k] == text[offset..end] && text[end..] == Join(chunks[k + 1..])
  {
    var chunk, rest := chunks[k], Join(chunks[k + 1..]);
    assert chunks[k..][1..] == chunks[k + 1..];
    assert text[offset..] == chunk + rest;
    SliceOfSlice(text, offset, |text|, 0, |chunk|);
    SliceOfSlice(text, offset, |text|, |chunk|, |text| - offset);
  }

  /** Whatever the sizes of the chunks, the report is the first `maxMatches` matches of the
      whole file, or a proper prefix of them when the response limit is reached; and all of
      them where even the largest entries would fit. */
  method Search(chunks: seq<string>, query: string, maxMatches: nat, contextBytes: nat, entry: EntrySize, responseLimit: nat)
    returns (reported: seq<nat>, status: Status)
    requires |query| > 0 && maxMatches > 0
    ensures status == Complete ==> reported == First(AllMatches(Join(chunks), query), maxMatches)
    ensures status == LimitReached ==> [] < reported < First(AllMatches(Join(chunks), query), maxMatches)
    ensures status == LimitTooSmall ==> reported == [] && AllMatches(Join(chunks), query) != []
    ensures var all := |First(AllMatches(Join(chunks), query), maxMatches)|;
      && (forall cost: nat :: AtMost(entry, cost) && cost * all <= responseLimit ==> status == Complete)
      && (forall cost: nat :: AtLeast(entry, cost) ==> cost * |reported| <= responseLimit)
  {
    hide Accounts, Overflows, AtMost, AtLeast, Matches, Join, Found, Window, AllMatches, Bound;
    ghost var text := Join(chunks);
    var overlap := Max(|query| - 1, contextBytes);
    var carry, lastMatch := "", -1;
    var offset: nat, written: nat := 0, 0;
    reported := [];
    FoundNothing(text, query, maxMatches);
    AccountsNothing(entry);
    WindowStarts(text, overlap);
    assert text[0..] == text && chunks[0..] == chunks;
    for k := 0 to |chunks|
      invariant offset <= |text| && Window(text, offset, overlap, carry) && text[offset..] == Join(chunks[k..])
      invariant Found(text, query, maxMatches, Bound(query, offset), reported) && |reported| <= maxMatches
      invariant lastMatch < Bound(query, offset) && (reported == [] <==> written == 0)
      invariant Accounts(entry, |reported|, written) && written <= responseLimit
    {
      var chunk := chunks[k];
      WindowReaches(text, offset, overlap, carry, query);
      NextChunk(chunks, k, text, offset);
      WindowScan(text, offset, overlap, carry, chunk);
      WindowMoves(text, offset, overlap, carry, chunk);
      var scan := carry + chunk;
      var stopped;
      reported, written, lastMatch, stopped :=
        ScanWindow(text, scan, offset - |carry|, offset, query, maxMatches, entry, responseLimit, reported, written, lastMatch);
      if stopped {
        FitsWithin(entry, |reported|, written, responseLimit);
        OverflowsAll(entry, |reported|, |First(AllMatches(text, query), maxMatches)|, responseLimit);
        status := if written == 0 then LimitTooSmall else LimitReached;
        return;
      }
      carry := scan[|scan| - Min(overlap, |scan|)..];
      offset := offset + |chunk|;
    }
    assert chunks[|chunks|..] == [];
    NoChunks();
    FoundAll(text, query, maxMatches, reported);
    FitsWithin(entry, |reported|, written, responseLimit);
    status := Complete;
  }
}
