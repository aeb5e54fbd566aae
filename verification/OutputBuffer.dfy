/**
 A bounded output buffer: the head of the output streams at once, a rolling tail is kept,
 and the middle is replaced by a marker when the output outgrows its limit.
 */
module OutputBuffer {
  import opened TokenUsage
  import opened Chunks

  const OMITTED := "\n[... middle output omitted ...]\n"

  datatype Buffer = Buffer(head: string, tail: string, total: nat, tooLarge: bool, emitted: string)

  const EMPTY := Buffer("", "", 0, false, "")

  function HeadSize(max: nat): nat { max / 2 }

  function TailSize(max: nat): nat { max - max / 2 }

  function End(s: string, n: nat): string {
    if |s| <= n then s else s[|s| - n..]
  }

  /** What the finished output reads, for the whole input. */
  function Expected(max: nat, input: string): string {
    if |input| <= max then input
    else input[..HeadSize(max)] + OMITTED + input[|input| - TailSize(max)..]
  }

  /* ---------- the operations ---------- */

  function Taken(max: nat, b: Buffer, p: string): nat {
    Min(|p|, Max(0, HeadSize(max) - |b.head|))
  }

  function Rolled(max: nat, tail: string, p: string): string {
    if |p| >= TailSize(max) then p[|p| - TailSize(max)..]
    else tail[Min(|tail|, Max(0, |tail| + |p| - TailSize(max)))..] + p
  }

  /** A write whose output the sink accepts. */
  function Written(max: nat, b: Buffer, p: string): Buffer {
    var take := Taken(max, b, p);
    var total := b.total + |p|;
    Buffer(b.head + p[..take], Rolled(max, b.tail, p[take..]), total, total > max, b.emitted + p[..take])
  }

  function Pending(b: Buffer): string {
    (if b.tooLarge then OMITTED else "") + b.tail
  }

  function Bytes(b: Buffer): string {
    b.head + Pending(b)
  }

  function Flushed(b: Buffer): Buffer {
    b.(emitted := b.emitted + Pending(b))
  }

  function WriteAll(max: nat, b: Buffer, chunks: seq<string>): Buffer
    decreases |chunks|
  {
    if chunks == [] then b else WriteAll(max, Written(max, b, chunks[0]), chunks[1..])
  }

  /* ---------- the object ---------- */

  class LimitedOutputBuffer {
    const max: nat
    const hasSink: bool
    var head: string
    var tail: string
    var total: nat
    var tooLarge: bool
    /** What the sink has accepted, or would have. */
    var emitted: string

    constructor (max: nat, hasSink: bool)
      ensures this.max == max && this.hasSink == hasSink && Now() == EMPTY
    {
      this.max, this.hasSink := max, hasSink;
      head, tail, total, tooLarge, emitted := "", "", 0, false, "";
    }

    function Now(): Buffer
      reads this
    {
      Buffer(head, tail, total, tooLarge, emitted)
    }

    /** `accepts` is whether the sink takes what it is offered; without a sink it always does. */
    method Emit(chunk: string, accepts: bool) returns (ok: bool)
      modifies `emitted
      ensures ok == (accepts || !hasSink || chunk == "")
      ensures emitted == if ok then old(emitted) + chunk else old(emitted)
    {
      ok := true;
      if hasSink && chunk != "" && !accepts {
        return false;
      }
      emitted := emitted + chunk;
    }

    method RollTail(p: string)
      modifies `tail
      ensures tail == Rolled(max, old(tail), p)
    {
      var tailSize := max - max / 2;
      if |p| >= tailSize {
        tail := p[|p| - tailSize..];
      } else {
        var drop := Min(|tail|, Max(0, |tail| + |p| - tailSize));
        tail := tail[drop..] + p;
      }
    }

    method Write(data: string, accepts: bool) returns (written: nat, ok: bool)
      modifies this
      ensures ok == (accepts || !hasSink || Taken(max, old(Now()), data) == 0)
      ensures ok ==> written == |data| && Now() == Written(max, old(Now()), data)
      ensures !ok ==>
        && written == Taken(max, old(Now()), data)
        && Now() == Written(max, old(Now()), data).(tail := old(tail), emitted := old(emitted))
    {
      hide Rolled;
      ghost var before := Now();
      var p := data;
      total := total + |p|;
      tooLarge := total > max;
      var headSize := max / 2;
      var take := Min(|p|, Max(0, headSize - |head|));
      ok := true;
      assert take == Taken(max, before, data);
      assert take == 0 ==> head + p[..take] == head && emitted + p[..take] == emitted;
      if take > 0 {
        head := head + p[..take];
        ok := Emit(p[..take], accepts);
        if !ok {
          return take, false;
        }
      }
      RollTail(p[take..]);
      written := |data|;
    }

    method Flush(accepts: bool) returns (ok: bool)
      modifies this
      ensures ok == (accepts || !hasSink || Pending(old(Now())) == "")
      ensures Now() == if ok then Flushed(old(Now())) else old(Now())
    {
      ok := Emit(Pending(Now()), accepts);
    }

    method Read() returns (bytes: string)
      ensures bytes == Bytes(Now())
    {
      bytes := head + Pending(Now());
    }
  }

  /* ---------- what the buffer shows ---------- */

  /** The buffer after the input: its head, the end of what is behind the head, and the
      head is what has been emitted. */
  predicate Holds(max: nat, input: string, b: Buffer) {
    var h := Min(|input|, HeadSize(max));
    && b.head == input[..h] && b.tail == End(input[h..], TailSize(max))
    && b.total == |input| && b.tooLarge == (|input| > max) && b.emitted == b.head
  }

  lemma EndAppend(s: string, p: string, n: nat)
    ensures End(s + p, n) == if |p| >= n then p[|p| - n..] else End(s, n - |p|) + p
  {
    if |p| >= n {
      assert (s + p)[|s + p| - n..] == p[|p| - n..];
      assert |s + p| <= n ==> s + p == p;
    } else if |s| + |p| > n {
      assert (s + p)[|s + p| - n..] == s[|s| - (n - |p|)..] + p;
    }
  }

  lemma EndOfEnd(s: string, n: nat, k: nat)
    requires k <= n
    ensures End(End(s, n), k) == End(s, k)
  {
  }

  lemma RollEnds(max: nat, rest: string, p: string)
    ensures Rolled(max, End(rest, TailSize(max)), p) == End(rest + p, TailSize(max))
  {
    EndAppend(rest, p, TailSize(max));
    if |p| < TailSize(max) {
      EndOfEnd(rest, TailSize(max), TailSize(max) - |p|);
    }
  }

  lemma WriteHolds(max: nat, input: string, b: Buffer, p: string)
    requires Holds(max, input, b)
    ensures Holds(max, input + p, Written(max, b, p))
  {
    hide Rolled, End;
    var h, take := Min(|input|, HeadSize(max)), Taken(max, b, p);
    assert (input + p)[..h + take] == input[..h] + p[..take];
    assert (input + p)[h + take..] == input[h..] + p[take..] by {
      if take < |p| {
        assert take > 0 ==> h == |input|;
      }
    }
    RollEnds(max, input[h..], p[take..]);
  }

  lemma {:induction false} WritesHold(max: nat, input: string, b: Buffer, chunks: seq<string>)
    requires Holds(max, input, b)
    ensures Holds(max, input + Join(chunks), WriteAll(max, b, chunks))
    decreases |chunks|
  {
    hide Holds, Written;
    if chunks == [] {
      assert input + Join(chunks) == input;
    } else {
      WriteHolds(max, input, b, chunks[0]);
      WritesHold(max, input + chunks[0], Written(max, b, chunks[0]), chunks[1..]);
      assert (input + chunks[0]) + Join(chunks[1..]) == input + Join(chunks);
    }
  }

  lemma HoldsShows(max: nat, input: string, b: Buffer)
    requires Holds(max, input, b)
    ensures Bytes(b) == Expected(max, input) && Flushed(b).emitted == Bytes(b)
  {
    var h := Min(|input|, HeadSize(max));
    assert input[..h] + input[h..] == input;
    if |input| > max {
      assert input[h..][|input| - h - TailSize(max)..] == input[|input| - TailSize(max)..];
      assert b.head + (OMITTED + b.tail) == b.head + OMITTED + b.tail;
    } else {
      assert "" + b.tail == b.tail;
    }
  }

  /** However the output is cut into writes, the bytes read are those of the whole output:
      itself if it fits, else its head, the marker and its end; and all that is emitted,
      the final flush included, is the same. */
  lemma ChunkingIsInvisible(max: nat, chunks: seq<string>)
    ensures var b := WriteAll(max, EMPTY, chunks);
      Bytes(b) == Expected(max, Join(chunks)) && Flushed(b).emitted == Bytes(b)
  {
    hide Holds;
    EmptyHolds(max);
    WritesHold(max, "", EMPTY, chunks);
    assert "" + Join(chunks) == Join(chunks);
    HoldsShows(max, Join(chunks), WriteAll(max, EMPTY, chunks));
  }

  lemma EmptyHolds(max: nat)
    ensures Holds(max, "", EMPTY)
  {
  }
}
