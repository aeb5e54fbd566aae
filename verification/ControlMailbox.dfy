/**
 The live-input mailbox of one execution: three queues, the inputs in flight between
 consumption and acknowledgement, and the registration of the active model turn.
 */
module ControlMailbox {

  const MAX_QUEUE: nat := 64
  const MAX_INPUT: nat := 0x10_0000
  const MAX_BYTES: nat := 0x40_0000

  datatype Route = Send | Steer | FollowUp

  /** An admitted input; `number` is its admission order. */
  datatype Input = Input(number: nat, route: Route, size: nat, text: string)

  datatype Ack = Ack(input: Input, consumed: bool)

  datatype Turn = NoTurn | Turn(overlapped: bool, interrupted: bool)

  datatype Mailbox = Mailbox(
    started: bool, accepting: bool, cancelled: bool,
    pending: seq<Input>, steers: seq<Input>, followups: seq<Input>, inflight: seq<Input>,
    bytes: int, last: nat, turn: Turn)

  const ZERO_MAILBOX := Mailbox(false, false, false, [], [], [], [], 0, 0, NoTurn)

  /* ---------- what each critical section does ---------- */

  function QueueLength(m: Mailbox): nat {
    |m.pending| + |m.steers| + |m.followups| + |m.inflight|
  }

  predicate Admits(m: Mailbox, size: nat) {
    && m.accepting && m.started && !m.cancelled
    && QueueLength(m) < MAX_QUEUE && size <= MAX_INPUT && m.bytes + size <= MAX_BYTES
  }

  function Enqueued(m: Mailbox, route: Route, size: nat, text: string): Mailbox {
    if !Admits(m, size) then m
    else
      var input := Input(m.last + 1, route, size, text);
      var next := m.(bytes := m.bytes + size, last := m.last + 1);
      match route
      case Send => next.(pending := m.pending + [input])
      case Steer => next.(steers := m.steers + [input])
      case FollowUp => next.(followups := m.followups + [input])
  }

  function Interrupted(turn: Turn): Turn {
    if turn.NoTurn? || turn.overlapped then turn else turn.(interrupted := true)
  }

  function Begun(m: Mailbox, overlapped: bool): Mailbox {
    var turn := Turn(overlapped, false);
    m.(turn := if m.steers != [] then Interrupted(turn) else turn)
  }

  function Republished(m: Mailbox, overlapped: bool): Mailbox {
    if m.turn.NoTurn? then m
    else
      var turn := m.turn.(overlapped := overlapped);
      m.(turn := if m.steers != [] then Interrupted(turn) else turn)
  }

  /** Two queues in admission order become one. */
  function Merge(a: seq<Input>, b: seq<Input>): (merged: seq<Input>)
    ensures |merged| == |a| + |b|
    decreases |a| + |b|
  {
    if a == [] then b
    else if b == [] then a
    else if a[0].number < b[0].number then [a[0]] + Merge(a[1..], b)
    else [b[0]] + Merge(a, b[1..])
  }

  function Consumable(m: Mailbox): seq<Input> {
    Merge(m.steers, m.pending)
  }

  function Taken(m: Mailbox): Mailbox {
    m.(inflight := m.inflight + Consumable(m), steers := [], pending := [])
  }

  function Size(inputs: seq<Input>): nat {
    if inputs == [] then 0 else inputs[0].size + Size(inputs[1..])
  }

  function Acks(inputs: seq<Input>, consumed: bool): (acks: seq<Ack>)
    ensures |acks| == |inputs|
  {
    seq(|inputs|, i requires 0 <= i < |inputs| => Ack(inputs[i], consumed))
  }

  function Acknowledged(m: Mailbox): Mailbox {
    m.(bytes := m.bytes - Size(m.inflight), inflight := [])
  }

  /** Promotes follow-ups when nothing else waits; seals when nothing waits at all. */
  function ContinuedOrSealed(m: Mailbox): (Mailbox, bool) {
    if m.pending != [] || m.steers != [] then (m, true)
    else if m.followups != [] then (m.(pending := m.pending + m.followups, followups := []), true)
    else (m.(accepting := false), false)
  }

  function Outstanding(m: Mailbox): seq<Input> {
    m.inflight + m.steers + m.pending + m.followups
  }

  function Finished(m: Mailbox): Mailbox {
    m.(accepting := false, cancelled := true, turn := NoTurn,
       pending := [], steers := [], followups := [], inflight := [], bytes := 0)
  }

  function Cancelled(m: Mailbox): Mailbox {
    m.(accepting := false, cancelled := m.cancelled || m.started,
       turn := if m.turn.NoTurn? then NoTurn else m.turn.(interrupted := true))
  }

  /* ---------- the object ---------- */

  class Control {
    var started: bool
    var accepting: bool
    var cancelled: bool
    var pending: seq<Input>
    var steers: seq<Input>
    var followups: seq<Input>
    var inflight: seq<Input>
    var bytes: int
    var last: nat
    var turn: Turn
    /** What the acknowledgement channels have been sent so far. */
    var acks: seq<Ack>

    function Now(): Mailbox
      reads this
    {
      Mailbox(started, accepting, cancelled, pending, steers, followups, inflight, bytes, last, turn)
    }

    constructor ()
      ensures Now() == ZERO_MAILBOX && acks == []
    {
      started, accepting, cancelled := false, false, false;
      pending, steers, followups, inflight := [], [], [], [];
      bytes, last, turn, acks := 0, 0, NoTurn, [];
    }

    method Start() returns (ok: bool)
      modifies this
      ensures ok == !old(started) && acks == old(acks)
      ensures Now() == if ok then old(Now()).(started := true, accepting := true) else old(Now())
    {
      ok := !started;
      if ok {
        started, accepting := true, true;
      }
    }

    method Enqueue(route: Route, size: nat, text: string) returns (ok: bool)
      modifies this
      ensures ok == Admits(old(Now()), size) && acks == old(acks)
      ensures Now() == Enqueued(old(Now()), route, size, text)
    {
      ok := false;
      if !accepting || !started || cancelled {
        return;
      }
      if QueueLength(Now()) >= MAX_QUEUE || size > MAX_INPUT || bytes + size > MAX_BYTES {
        return;
      }
      last := last + 1;
      var input := Input(last, route, size, text);
      match route {
        case Send => pending := pending + [input];
        case Steer => steers := steers + [input];
        case FollowUp => followups := followups + [input];
      }
      bytes := bytes + size;
      ok := true;
    }

    method InterruptTurn()
      modifies this
      ensures acks == old(acks) && Now() == old(Now()).(turn := Interrupted(old(turn)))
    {
      if turn.NoTurn? || turn.overlapped {
        return;
      }
      turn := turn.(interrupted := true);
    }

    method BeginTurn(overlapped: bool)
      modifies this
      ensures acks == old(acks) && Now() == Begun(old(Now()), overlapped)
    {
      turn := Turn(overlapped, false);
      if |steers| > 0 {
        InterruptTurn();
      }
    }

    method UpdateTurnStarted(overlapped: bool)
      modifies this
      ensures acks == old(acks) && Now() == Republished(old(Now()), overlapped)
    {
      if turn.Turn? {
        turn := turn.(overlapped := overlapped);
        if |steers| > 0 {
          InterruptTurn();
        }
      }
    }

    method EndTurn()
      modifies this
      ensures acks == old(acks) && Now() == old(Now()).(turn := NoTurn)
    {
      turn := NoTurn;
    }

    method Take() returns (inputs: seq<Input>)
      modifies this
      ensures acks == old(acks) && Now() == Taken(old(Now())) && inputs == Consumable(old(Now()))
    {
      inputs := MergeQueued(steers, pending);
      inflight := inflight + inputs;
      steers, pending := [], [];
    }

    method Acknowledge(consumed: bool)
      modifies this
      ensures Now() == Acknowledged(old(Now())) && acks == old(acks) + Acks(old(inflight), consumed)
    {
      ghost var before := acks;
      assert inflight[0..] == inflight;
      for k := 0 to |inflight|
        invariant inflight == old(inflight) && Now() == old(Now()).(bytes := bytes)
        invariant bytes == old(bytes) - Size(inflight) + Size(inflight[k..])
        invariant acks == before + Acks(inflight[..k], consumed)
      {
        assert inflight[k..][1..] == inflight[k + 1..];
        bytes := bytes - inflight[k].size;
        acks := acks + [Ack(inflight[k], consumed)];
        assert Acks(inflight[..k + 1], consumed) == Acks(inflight[..k], consumed) + [Ack(inflight[k], consumed)];
      }
      assert inflight[..|inflight|] == inflight;
      inflight := [];
    }

    method ContinueOrSeal() returns (again: bool)
      modifies this
      ensures acks == old(acks) && (Now(), again) == ContinuedOrSealed(old(Now()))
    {
      if |pending| + |steers| > 0 {
        return true;
      }
      if |followups| > 0 {
        pending := pending + followups;
        followups := [];
        return true;
      }
      accepting := false;
      again := false;
    }

    method Cancel()
      modifies this
      ensures acks == old(acks) && Now() == Cancelled(old(Now()))
    {
      accepting := false;
      if started {
        cancelled := true;
      }
      if turn.Turn? {
        turn := turn.(interrupted := true);
      }
    }

    method RejectAll(inputs: seq<Input>)
      modifies `acks
      ensures acks == old(acks) + Acks(inputs, false)
    {
      assert Acks(inputs[..0], false) == [];
      for k := 0 to |inputs|
        invariant acks == old(acks) + Acks(inputs[..k], false)
      {
        acks := acks + [Ack(inputs[k], false)];
        assert Acks(inputs[..k + 1], false) == Acks(inputs[..k], false) + [Ack(inputs[k], false)];
      }
      assert inputs[..|inputs|] == inputs;
    }

    method Finish()
      modifies this
      ensures Now() == Finished(old(Now())) && acks == old(acks) + Acks(Outstanding(old(Now())), false)
    {
      accepting, cancelled, turn := false, true, NoTurn;
      RejectAll(inflight + steers + pending + followups);
      pending, steers, followups, inflight, bytes := [], [], [], [], 0;
    }
  }

  method MergeQueued(first: seq<Input>, second: seq<Input>) returns (merged: seq<Input>)
    ensures merged == Merge(first, second)
  {
    hide Merge;
    merged := [];
    var left, right := 0, 0;
    assert first[0..] == first && second[0..] == second;
    assert [] + Merge(first, second) == Merge(first, second);
    while left < |first| || right < |second|
      invariant left <= |first| && right <= |second|
      invariant Merge(first, second) == merged + Merge(first[left..], second[right..])
      decreases |first| - left + |second| - right
    {
      MergeStep(first[left..], second[right..]);
      if right == |second| || (left < |first| && first[left].number < second[right].number) {
        assert first[left..][1..] == first[left + 1..];
        Regroup(merged, first[left], Merge(first[left + 1..], second[right..]));
        merged := merged + [first[left]];
        left := left + 1;
      } else {
        assert second[right..][1..] == second[right + 1..];
        Regroup(merged, second[right], Merge(first[left..], second[right + 1..]));
        merged := merged + [second[right]];
        right := right + 1;
      }
    }
    NothingToMerge(first[left..], second[right..]);
    assert merged + [] == merged;
  }

  lemma Regroup(merged: seq<Input>, input: Input, rest: seq<Input>)
    ensures merged + ([input] + rest) == (merged + [input]) + rest
  {
  }

  lemma NothingToMerge(a: seq<Input>, b: seq<Input>)
    requires a == [] && b == []
    ensures Merge(a, b) == []
  {
  }

  lemma MergeStep(a: seq<Input>, b: seq<Input>)
    requires a != [] || b != []
    ensures Merge(a, b) ==
      if b == [] || (a != [] && a[0].number < b[0].number) then [a[0]] + Merge(a[1..], b) else [b[0]] + Merge(a, b[1..])
  {
    if b == [] {
      assert a == [a[0]] + a[1..];
    } else if a == [] {
      assert b == [b[0]] + b[1..];
    }
  }
}
