/**
 Head/tail excerpts of tool output and their cost: a sum of positive weights, one per
 rune, where a rune is a start byte with the continuation bytes behind it.
 */
module Excerpts {
  predicate RuneStart(c: char) {
    !(128 <= c as int < 192)
  }

  /** The first rune boundary at or after `i`. */
  function NextStart(text: string, i: nat): (j: nat)
    requires i <= |text|
    ensures i <= j <= |text| && (j < |text| ==> RuneStart(text[j]))
    ensures forall k :: i <= k < j ==> !RuneStart(text[k])
    decreases |text| - i
  {
    if i == |text| || RuneStart(text[i]) then i else NextStart(text, i + 1)
  }

  /** The last rune boundary at or before `i`. */
  function PrevStart(text: string, i: nat): (j: nat)
    requires i < |text|
    ensures j <= i && (j > 0 ==> RuneStart(text[j]))
    ensures forall k :: j < k <= i ==> !RuneStart(text[k])
  {
    if i == 0 || RuneStart(text[i]) then i else PrevStart(text, i - 1)
  }

  type RuneCost = string -> nat

  function TextCost(rune: RuneCost, text: string): nat {
    if text == "" then 0
    else
      var n := NextStart(text, 1);
      rune(text[..n]) + TextCost(rune, text[n..])
  }

  const OMITTED := "\n" + "[... tool output omitted from model context; full result retained in transcript ...]\n"

  /** The first and last bytes of a text, about `size` in all, cut between runes. */
  function HeadTail(text: string, size: nat): string
    requires size < |text|
  {
    text[..PrevStart(text, size / 2)] + OMITTED + text[NextStart(text, |text| - (size - size / 2))..]
  }

  /** An excerpt is the text's beginning, the notice and its end: at most `size` bytes of the
      text, half of them from each side, and short of that only to end between runes. */
  lemma ExcerptShows(text: string, size: nat) returns (i: nat, j: nat)
    requires size < |text|
    ensures i <= j <= |text| && HeadTail(text, size) == text[..i] + OMITTED + text[j..]
    ensures i <= size / 2 && |text| - j <= size - size / 2
    ensures Boundary(text, i) && Boundary(text, j)
    ensures forall k :: i < k <= size / 2 || |text| - (size - size / 2) <= k < j ==> !RuneStart(text[k])
  {
    i, j := PrevStart(text, size / 2), NextStart(text, |text| - (size - size / 2));
  }

  /** A text splits between runes. */
  predicate Boundary(text: string, i: nat) {
    i == 0 || i == |text| || (i < |text| && RuneStart(text[i]))
  }

  lemma CostOfFirst(rune: RuneCost, chunk: string, rest: string)
    requires chunk != "" && NextStart(chunk + rest, 1) == |chunk|
    ensures TextCost(rune, chunk + rest) == rune(chunk) + TextCost(rune, rest)
  {
    assert (chunk + rest)[..|chunk|] == chunk && (chunk + rest)[|chunk|..] == rest;
  }

  lemma {:induction false} CostSplits(rune: RuneCost, a: string, b: string)
    requires b == "" || a == "" || RuneStart(b[0])
    ensures TextCost(rune, a + b) == TextCost(rune, a) + TextCost(rune, b)
  {
    hide NextStart, RuneStart;
    if a == "" {
      assert a + b == b;
    } else {
      var n := NextStart(a, 1);
      NextStartSame(a, b, 1);
      CostSplits(rune, a[n..], b);
      hide TextCost;
      var chunk, rest := a[..n], a[n..];
      assert a == chunk + rest && a + b == chunk + (rest + b);
      CostOfFirst(rune, chunk, rest);
      CostOfFirst(rune, chunk, rest + b);
    }
  }

  lemma {:induction false} NextStartSame(a: string, b: string, i: nat)
    requires i <= |a| && (b == "" || RuneStart(b[0]))
    ensures NextStart(a + b, i) == NextStart(a, i)
    decreases |a| - i
  {
    if i < |a| && !RuneStart(a[i]) {
      NextStartSame(a, b, i + 1);
    }
  }

  /** Longer heads and longer tails cost more. */
  lemma PartsCost(rune: RuneCost, text: string, i: nat, j: nat)
    requires i <= j <= |text| && Boundary(text, i) && Boundary(text, j)
    ensures TextCost(rune, text[..i]) <= TextCost(rune, text[..j])
    ensures TextCost(rune, text[j..]) <= TextCost(rune, text[i..])
  {
    assert text[..j] == text[..i] + text[i..j] && text[i..] == text[i..j] + text[j..];
    CostSplits(rune, text[..i], text[i..j]);
    CostSplits(rune, text[i..j], text[j..]);
  }

  lemma HeadTailCost(rune: RuneCost, text: string, size: nat)
    requires size < |text|
    ensures TextCost(rune, HeadTail(text, size))
      == TextCost(rune, text[..PrevStart(text, size / 2)]) + TextCost(rune, OMITTED)
         + TextCost(rune, text[NextStart(text, |text| - (size - size / 2))..])
  {
    hide TextCost;
    var head, tail := text[..PrevStart(text, size / 2)], text[NextStart(text, |text| - (size - size / 2))..];
    assert OMITTED[0] == '\n';
    CostSplits(rune, head, OMITTED);
    CostSplits(rune, head + OMITTED, tail);
  }

  lemma PrevStartGrows(text: string, i: nat, j: nat)
    requires i <= j < |text|
    ensures PrevStart(text, i) <= PrevStart(text, j)
  {
  }

  lemma NextStartGrows(text: string, i: nat, j: nat)
    requires i <= j <= |text|
    ensures NextStart(text, i) <= NextStart(text, j)
  {
  }

  /** Asking for a longer excerpt never makes it cheaper. */
  lemma ExcerptGrows(rune: RuneCost, text: string, small: nat, large: nat)
    requires small <= large < |text|
    ensures TextCost(rune, HeadTail(text, small)) <= TextCost(rune, HeadTail(text, large))
  {
    hide TextCost;
    HeadTailCost(rune, text, small);
    HeadTailCost(rune, text, large);
    PrevStartGrows(text, small / 2, large / 2);
    PartsCost(rune, text, PrevStart(text, small / 2), PrevStart(text, large / 2));
    NextStartGrows(text, |text| - (large - large / 2), |text| - (small - small / 2));
    PartsCost(rune, text, NextStart(text, |text| - (large - large / 2)), NextStart(text, |text| - (small - small / 2)));
  }

  /** The longest excerpt of at least 128 bytes whose cost is within `allowed`, or 128 bytes. */
  function LongestFitting(rune: RuneCost, text: string, allowed: int, from: nat): (size: nat)
    requires 128 <= from < |text|
    ensures 128 <= size <= from
  {
    if from == 128 || TextCost(rune, HeadTail(text, from)) <= allowed then from
    else LongestFitting(rune, text, allowed, from - 1)
  }

  lemma {:induction false} LongestIsLongest(rune: RuneCost, text: string, allowed: int, from: nat)
    requires 128 <= from < |text|
    ensures var size := LongestFitting(rune, text, allowed, from);
      && (size > 128 ==> TextCost(rune, HeadTail(text, size)) <= allowed)
      && forall larger :: size < larger <= from ==> TextCost(rune, HeadTail(text, larger)) > allowed
  {
    hide TextCost, HeadTail;
    if from > 128 && TextCost(rune, HeadTail(text, from)) > allowed {
      LongestIsLongest(rune, text, allowed, from - 1);
    }
  }

  /** Narrowing the search from above past sizes that do not fit loses nothing. */
  lemma {:induction false} LongestFromBelow(rune: RuneCost, text: string, allowed: int, mid: nat, from: nat)
    requires 128 < mid <= from < |text| && TextCost(rune, HeadTail(text, mid)) > allowed
    ensures LongestFitting(rune, text, allowed, from) == LongestFitting(rune, text, allowed, mid - 1)
  {
    hide TextCost, HeadTail;
    ExcerptGrows(rune, text, mid, from);
    if mid < from {
      LongestFromBelow(rune, text, allowed, mid, from - 1);
    }
  }

  lemma {:induction false} LongestAtLeast(rune: RuneCost, text: string, allowed: int, mid: nat, from: nat)
    requires 128 <= mid <= from < |text| && TextCost(rune, HeadTail(text, mid)) <= allowed
    ensures mid <= LongestFitting(rune, text, allowed, from)
  {
    hide TextCost, HeadTail;
    if from > 128 && from > mid && TextCost(rune, HeadTail(text, from)) > allowed {
      LongestAtLeast(rune, text, allowed, mid, from - 1);
    }
  }

  method ContextHeadTail(text: string, size: nat) returns (excerpt: string)
    requires size < |text|
    ensures excerpt == HeadTail(text, size)
  {
    var head, tail := size / 2, |text| - (size - size / 2);
    while head > 0 && !RuneStart(text[head])
      invariant 0 <= head <= size / 2 && PrevStart(text, head) == PrevStart(text, size / 2)
    {
      head := head - 1;
    }
    while tail < |text| && !RuneStart(text[tail])
      invariant |text| - (size - size / 2) <= tail <= |text|
      invariant NextStart(text, tail) == NextStart(text, |text| - (size - size / 2))
    {
      tail := tail + 1;
    }
    excerpt := text[..head] + OMITTED + text[tail..];
  }
}
