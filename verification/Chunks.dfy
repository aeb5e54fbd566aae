/** Texts that arrive in chunks, and where a pattern occurs in a text. */
module Chunks {
  function Join(chunks: seq<string>): string {
    if chunks == [] then "" else chunks[0] + Join(chunks[1..])
  }

  predicate MatchAt(text: string, pattern: string, i: nat) {
    i + |pattern| <= |text| && text[i..i + |pattern|] == pattern
  }

  lemma SliceOfSlice(text: string, lo: nat, hi: nat, i: nat, j: nat)
    requires lo <= hi <= |text| && i <= j <= hi - lo
    ensures text[lo..hi][i..j] == text[lo + i..lo + j]
  {
    var part := text[lo..hi][i..j];
    assert forall k :: 0 <= k < |part| ==> part[k] == text[lo..hi][i + k] == text[lo + i + k];
  }

  /** A pattern found in a part of a text is found in the text, and the other way round. */
  lemma MatchInPart(text: string, lo: nat, hi: nat, pattern: string, i: nat)
    requires lo <= hi <= |text| && i + |pattern| <= hi - lo
    ensures MatchAt(text[lo..hi], pattern, i) <==> MatchAt(text, pattern, lo + i)
  {
    SliceOfSlice(text, lo, hi, i, i + |pattern|);
  }
}
