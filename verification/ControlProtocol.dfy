/**
 Every interleaving of the mailbox's critical sections: who is admitted, consumed and
 acknowledged, and in what order.
 */
module ControlProtocol {
  import opened ControlMailbox

  /** `steering` counts the corrections queued whose call has not yet reached its second
      critical section, the one that interrupts. */
  datatype World = World(mailbox: Mailbox, accepted: seq<Input>, taken: seq<Input>, acks: seq<Ack>, steering: nat)

  datatype Event =
    | StartRun
    | Admit(route: Route, size: nat, text: string)
    | InterruptForSteer
    | BeginTurn(overlapped: bool)
    | OverlapStarts
    | RepublishTurn(overlapped: bool)
    | EndTurn
    | TakeInputs
    | Acknowledge(consumed: bool)
    | ContinueOrSeal
    | CancelRun
    | FinishRun

  function Admitted(w: World, route: Route, size: nat, text: string): World
    requires Admits(w.mailbox, size)
  {
    var input := Input(w.mailbox.last + 1, route, size, text);
    World(Enqueued(w.mailbox, route, size, text), w.accepted + [input], w.taken, w.acks,
          w.steering + if route.Steer? then 1 else 0)
  }

  function Next(w: World, e: Event): World {
    var m := w.mailbox;
    match e
    case StartRun => if m.started then w else w.(mailbox := m.(started := true, accepting := true))
    case Admit(route, size, text) => if Admits(m, size) then Admitted(w, route, size, text) else w
    case InterruptForSteer =>
      if w.steering == 0 then w else w.(mailbox := m.(turn := Interrupted(m.turn)), steering := w.steering - 1)
    case BeginTurn(overlapped) => w.(mailbox := Begun(m, overlapped))
    case OverlapStarts => if m.turn.NoTurn? then w else w.(mailbox := m.(turn := m.turn.(overlapped := true)))
    case RepublishTurn(overlapped) => w.(mailbox := Republished(m, overlapped))
    case EndTurn => w.(mailbox := m.(turn := NoTurn))
    case TakeInputs => w.(mailbox := Taken(m), taken := w.taken + Consumable(m))
    case Acknowledge(consumed) => w.(mailbox := Acknowledged(m), acks := w.acks + Acks(m.inflight, consumed))
    case ContinueOrSeal => w.(mailbox := ContinuedOrSealed(m).0)
    case CancelRun => w.(mailbox := Cancelled(m))
    case FinishRun => w.(mailbox := Finished(m), acks := w.acks + Acks(Outstanding(m), false))
  }

  function Run(w: World, events: seq<Event>): World
    decreases |events|
  {
    if events == [] then w else Run(Next(w, events[0]), events[1..])
  }

  const IDLE := World(ZERO_MAILBOX, [], [], [], 0)

  /* ---------- exactly once ---------- */

  function InputsOf(acks: seq<Ack>): seq<Input> {
    if acks == [] then [] else [acks[0].input] + InputsOf(acks[1..])
  }

  /** Every admitted input is queued, in flight or acknowledged, and only once. */
  predicate Partition(w: World) {
    && |w.accepted| == w.mailbox.last
    && (forall i :: 0 <= i < |w.accepted| ==> w.accepted[i].number == i + 1)
    && multiset(w.accepted) == multiset(Outstanding(w.mailbox)) + multiset(InputsOf(w.acks))
  }

  lemma MultisetCons(x: Input, rest: seq<Input>)
    ensures multiset([x] + rest) == multiset{x} + multiset(rest)
  {
  }

  lemma {:induction false} MergePermutes(a: seq<Input>, b: seq<Input>)
    ensures multiset(Merge(a, b)) == multiset(a) + multiset(b)
    decreases |a| + |b|
  {
    if a != [] && b != [] {
      MergeStep(a, b);
      hide Merge;
      assert a == [a[0]] + a[1..] && b == [b[0]] + b[1..];
      if a[0].number < b[0].number {
        MergePermutes(a[1..], b);
        MultisetCons(a[0], a[1..]);
        MultisetCons(a[0], Merge(a[1..], b));
      } else {
        MergePermutes(a, b[1..]);
        MultisetCons(b[0], b[1..]);
        MultisetCons(b[0], Merge(a, b[1..]));
      }
    }
  }

  lemma {:induction false} InputsOfConcat(a: seq<Ack>, b: seq<Ack>)
    ensures InputsOf(a + b) == InputsOf(a) + InputsOf(b)
  {
    if a == [] {
      assert a + b == b;
    } else {
      assert (a + b)[1..] == a[1..] + b;
      InputsOfConcat(a[1..], b);
    }
  }

  lemma {:induction false} InputsOfAcks(inputs: seq<Input>, consumed: bool)
    ensures InputsOf(Acks(inputs, consumed)) == inputs
  {
    if inputs != [] {
      assert Acks(inputs, consumed)[1..] == Acks(inputs[1..], consumed);
      InputsOfAcks(inputs[1..], consumed);
    }
  }

  /** The inputs not yet acknowledged, however they are spread over the queues. */
  function Parts(m: Mailbox): multiset<Input> {
    multiset(m.inflight) + multiset(m.steers) + multiset(m.pending) + multiset(m.followups)
  }

  lemma MultisetOfParts(m: Mailbox)
    ensures multiset(Outstanding(m)) == Parts(m)
  {
  }

  lemma PartitionByParts(w: World, n: World)
    requires Partition(w) && n.accepted == w.accepted && n.mailbox.last == w.mailbox.last
    requires Parts(n.mailbox) + multiset(InputsOf(n.acks)) == Parts(w.mailbox) + multiset(InputsOf(w.acks))
    ensures Partition(n)
  {
    MultisetOfParts(w.mailbox);
    MultisetOfParts(n.mailbox);
    hide Outstanding, InputsOf, Parts;
  }

  lemma MultisetSnoc(inputs: seq<Input>, x: Input)
    ensures multiset(inputs + [x]) == multiset(inputs) + multiset{x}
  {
  }

  lemma OneMore(a: multiset<Input>, b: multiset<Input>, c: multiset<Input>, d: multiset<Input>, x: multiset<Input>)
    ensures a + (b + x) + c + d == a + b + c + d + x
    ensures a + b + (c + x) + d == a + b + c + d + x
    ensures a + b + c + (d + x) == a + b + c + d + x
  {
  }

  lemma AdmitParts(m: Mailbox, route: Route, size: nat, text: string)
    requires Admits(m, size)
    ensures Parts(Enqueued(m, route, size, text)) == Parts(m) + multiset{Input(m.last + 1, route, size, text)}
  {
    hide Admits;
    var x := Input(m.last + 1, route, size, text);
    OneMore(multiset(m.inflight), multiset(m.steers), multiset(m.pending), multiset(m.followups), multiset{x});
    match route
    case Send => MultisetSnoc(m.pending, x);
    case Steer => MultisetSnoc(m.steers, x);
    case FollowUp => MultisetSnoc(m.followups, x);
  }

  lemma AdmitPartitions(w: World, route: Route, size: nat, text: string)
    requires Partition(w) && Admits(w.mailbox, size)
    ensures Partition(Admitted(w, route, size, text))
  {
    hide InputsOf, Admits, Parts, Outstanding;
    var m, n := w.mailbox, Admitted(w, route, size, text);
    MultisetOfParts(m);
    MultisetOfParts(n.mailbox);
    AdmitParts(m, route, size, text);
    MultisetSnoc(w.accepted, Input(m.last + 1, route, size, text));
  }

  lemma AcknowledgePartitions(w: World, n: World, inputs: seq<Input>, consumed: bool)
    requires Partition(w) && n.accepted == w.accepted && n.mailbox.last == w.mailbox.last
    requires n.acks == w.acks + Acks(inputs, consumed)
    requires Parts(n.mailbox) + multiset(inputs) == Parts(w.mailbox)
    ensures Partition(n)
  {
    hide InputsOf, Partition, Parts, Acks;
    InputsOfConcat(w.acks, Acks(inputs, consumed));
    InputsOfAcks(inputs, consumed);
    PartitionByParts(w, n);
  }

  lemma TakeParts(m: Mailbox)
    ensures Parts(Taken(m)) == Parts(m)
  {
    hide Merge;
    MergePermutes(m.steers, m.pending);
  }

  lemma OtherParts(m: Mailbox)
    ensures Parts(Acknowledged(m)) + multiset(m.inflight) == Parts(m)
    ensures Parts(Finished(m)) == multiset{}
    ensures Parts(ContinuedOrSealed(m).0) == Parts(m)
  {
    assert m.pending == [] ==> m.pending + m.followups == m.followups;
  }

  lemma StepPartitions(w: World, e: Event)
    requires Partition(w)
    ensures Partition(Next(w, e))
  {
    hide Merge, InputsOf, Admits, Interrupted, Partition, Outstanding, Acks, Parts, Taken, Acknowledged, Finished, ContinuedOrSealed, Admitted;
    var m, n := w.mailbox, Next(w, e);
    TakeParts(m);
    OtherParts(m);
    KeepsLast(m);
    match e
    case Admit(route, size, text) => if Admits(m, size) { AdmitPartitions(w, route, size, text); }
    case TakeInputs => PartitionByParts(w, n);
    case Acknowledge(consumed) => AcknowledgePartitions(w, n, m.inflight, consumed);
    case FinishRun =>
      MultisetOfParts(m);
      AcknowledgePartitions(w, n, Outstanding(m), false);
    case ContinueOrSeal => PartitionByParts(w, n);
    case _ =>
      SameParts(m, n.mailbox);
      PartitionByParts(w, n);
  }

  lemma KeepsLast(m: Mailbox)
    ensures Taken(m).last == Acknowledged(m).last == Finished(m).last == ContinuedOrSealed(m).0.last == m.last
  {
  }

  lemma SameParts(m: Mailbox, n: Mailbox)
    requires n.inflight == m.inflight && n.steers == m.steers && n.pending == m.pending && n.followups == m.followups
    ensures Parts(n) == Parts(m)
  {
  }

  /* ---------- sizes and limits ---------- */

  predicate WithinLimits(m: Mailbox) {
    && m.bytes == Size(Outstanding(m))
    && m.bytes <= MAX_BYTES
    && QueueLength(m) <= MAX_QUEUE
  }

  lemma {:induction false} SizeConcat(a: seq<Input>, b: seq<Input>)
    ensures Size(a + b) == Size(a) + Size(b)
  {
    if a == [] {
      assert a + b == b;
    } else {
      assert (a + b)[1..] == a[1..] + b;
      SizeConcat(a[1..], b);
    }
  }

  lemma {:induction false} MergeSize(a: seq<Input>, b: seq<Input>)
    ensures Size(Merge(a, b)) == Size(a) + Size(b)
    decreases |a| + |b|
  {
    if a != [] && b != [] {
      if a[0].number < b[0].number {
        MergeSize(a[1..], b);
      } else {
        MergeSize(a, b[1..]);
      }
    }
  }

  lemma SizeOfParts(m: Mailbox)
    ensures Size(Outstanding(m)) == Size(m.inflight) + Size(m.steers) + Size(m.pending) + Size(m.followups)
  {
    SizeConcat(m.inflight, m.steers);
    SizeConcat(m.inflight + m.steers, m.pending);
    SizeConcat(m.inflight + m.steers + m.pending, m.followups);
  }

  lemma SizeOfOne(inputs: seq<Input>, input: Input)
    ensures Size(inputs + [input]) == Size(inputs) + input.size
  {
    SizeConcat(inputs, [input]);
    assert [input][1..] == [];
  }

  lemma StepWithinLimits(w: World, e: Event)
    requires WithinLimits(w.mailbox)
    ensures WithinLimits(Next(w, e).mailbox)
  {
    hide Merge, Size, Interrupted;
    var m, n := w.mailbox, Next(w, e).mailbox;
    SizeOfParts(m);
    SizeOfParts(n);
    NoSize();
    hide Outstanding;
    match e
    case Admit(route, size, text) =>
      var input := Input(m.last + 1, route, size, text);
      SizeOfOne(m.pending, input);
      SizeOfOne(m.steers, input);
      SizeOfOne(m.followups, input);
    case TakeInputs =>
      MergeSize(m.steers, m.pending);
      SizeConcat(m.inflight, Merge(m.steers, m.pending));
    case ContinueOrSeal => SizeConcat(m.pending, m.followups);
    case _ =>
  }

  lemma NoSize()
    ensures Size([]) == 0
  {
  }

  /* ---------- order ---------- */

  predicate Increasing(inputs: seq<Input>) {
    forall i, j :: 0 <= i < j < |inputs| ==> inputs[i].number < inputs[j].number
  }

  /** The follow-ups among the inputs, or all the others. */
  function Routed(inputs: seq<Input>, followUp: bool): seq<Input> {
    if inputs == [] then []
    else (if inputs[0].route.FollowUp? == followUp then [inputs[0]] else []) + Routed(inputs[1..], followUp)
  }

  /** What was sent or steered comes in admission order, and so do the follow-ups, counting
      those still held back. */
  predicate InOrder(stream: seq<Input>, heldBack: seq<Input>) {
    Increasing(Routed(stream, false)) && Increasing(Routed(stream + heldBack, true))
  }

  /** The inputs in the order they are consumed: those taken, then those the next take gets. */
  function Stream(w: World): seq<Input> {
    w.taken + Consumable(w.mailbox)
  }

  predicate Ordered(w: World) {
    InOrder(Stream(w), w.mailbox.followups) && Numbered(w)
  }

  predicate Numbered(w: World) {
    var m := w.mailbox;
    && (forall x | x in w.taken :: x.number <= m.last)
    && (forall x | x in m.steers :: x.number <= m.last)
    && (forall x | x in m.pending :: x.number <= m.last)
    && (forall x | x in m.followups :: x.number <= m.last && x.route.FollowUp?)
  }

  lemma {:induction false} RoutedConcat(a: seq<Input>, b: seq<Input>, followUp: bool)
    ensures Routed(a + b, followUp) == Routed(a, followUp) + Routed(b, followUp)
  {
    if a == [] {
      assert a + b == b;
    } else {
      assert (a + b)[1..] == a[1..] + b && (a + b)[0] == a[0];
      RoutedConcat(a[1..], b, followUp);
      assert ([a[0]] + Routed(a[1..], followUp)) + Routed(b, followUp) == [a[0]] + (Routed(a[1..], followUp) + Routed(b, followUp));
    }
  }

  lemma {:induction false} RoutedMembers(inputs: seq<Input>, followUp: bool)
    ensures forall x | x in Routed(inputs, followUp) :: x in inputs
  {
    if inputs != [] {
      RoutedMembers(inputs[1..], followUp);
    }
  }

  lemma RoutedOne(x: Input, followUp: bool)
    ensures Routed([x], followUp) == if x.route.FollowUp? == followUp then [x] else []
  {
    assert [x][1..] == [];
  }

  /** The latest input of a queue goes last in the merge. */
  lemma {:induction false} MergeLatest(a: seq<Input>, b: seq<Input>, x: Input)
    requires (forall y | y in a :: y.number < x.number) && (forall y | y in b :: y.number < x.number)
    ensures Merge(a, b + [x]) == Merge(a, b) + [x]
    ensures Merge(a + [x], b) == Merge(a, b) + [x]
    decreases |a| + |b|
  {
    if a == [] {
      assert a + [x] == [x];
      MergeOne(b, x);
    } else if b == [] {
      assert b + [x] == [x];
      MergeBeforeOne(a, x);
    } else if a[0].number < b[0].number {
      MergeLatest(a[1..], b, x);
      assert (a + [x])[1..] == a[1..] + [x] && (a + [x])[0] == a[0] && (b + [x])[0] == b[0];
    } else {
      MergeLatest(a, b[1..], x);
      assert (b + [x])[1..] == b[1..] + [x] && (a + [x])[0] == a[0] && (b + [x])[0] == b[0];
    }
  }

  lemma {:induction false} MergeOne(b: seq<Input>, x: Input)
    requires forall y | y in b :: y.number < x.number
    ensures Merge([x], b) == b + [x]
  {
    if b != [] {
      assert b[0] in b;
      MergeOne(b[1..], x);
      assert b == [b[0]] + b[1..];
    }
  }

  lemma {:induction false} MergeBeforeOne(a: seq<Input>, x: Input)
    requires forall y | y in a :: y.number < x.number
    ensures Merge(a, [x]) == a + [x]
  {
    if a != [] {
      assert a[0] in a;
      MergeBeforeOne(a[1..], x);
      assert a == [a[0]] + a[1..];
    }
  }

  lemma {:induction false} MergeMembers(a: seq<Input>, b: seq<Input>, x: Input)
    requires x in Merge(a, b)
    ensures x in a || x in b
    decreases |a| + |b|
  {
    if a != [] && b != [] {
      if a[0].number < b[0].number {
        if x in Merge(a[1..], b) { MergeMembers(a[1..], b, x); }
      } else {
        if x in Merge(a, b[1..]) { MergeMembers(a, b[1..], x); }
      }
    }
  }

  /** Two queues in admission order merge into one. */
  lemma {:induction false} MergeOrders(a: seq<Input>, b: seq<Input>)
    requires Increasing(a) && Increasing(b)
    requires forall i, j :: 0 <= i < |a| && 0 <= j < |b| ==> a[i].number != b[j].number
    ensures Increasing(Merge(a, b))
    decreases |a| + |b|
  {
    if a != [] || b != [] {
      MergeStep(a, b);
      var first := b == [] || (a != [] && a[0].number < b[0].number);
      var rest := if first then Merge(a[1..], b) else Merge(a, b[1..]);
      if first {
        MergeOrders(a[1..], b);
      } else {
        MergeOrders(a, b[1..]);
      }
      var head := if first then a[0] else b[0];
      forall y | y in rest ensures head.number < y.number {
        if first {
          MergeMembers(a[1..], b, y);
        } else {
          MergeMembers(a, b[1..], y);
        }
      }
      hide Merge;
      IncreasingStart(head, rest);
    } else {
      NothingToMerge(a, b);
    }
  }

  lemma IncreasingStart(x: Input, rest: seq<Input>)
    requires Increasing(rest) && forall y | y in rest :: x.number < y.number
    ensures Increasing([x] + rest)
  {
  }

  lemma StepKeepsNumbers(w: World, e: Event)
    requires Numbered(w)
    ensures Numbered(Next(w, e))
  {
    hide Merge, Interrupted, Admits;
    var m := w.mailbox;
    if e.TakeInputs? {
      forall x | x in Merge(m.steers, m.pending) ensures x.number <= m.last {
        MergeMembers(m.steers, m.pending, x);
      }
    }
  }

  lemma AdmitKeepsNumbers(w: World, route: Route, size: nat, text: string)
    requires Numbered(w) && Admits(w.mailbox, size)
    ensures Numbered(Admitted(w, route, size, text))
  {
    hide Admits;
  }

  lemma IncreasingEnd(a: seq<Input>, x: Input)
    requires Increasing(a) && forall y | y in a :: y.number < x.number
    ensures Increasing(a + [x])
  {
    assert forall i :: 0 <= i < |a| ==> a[i] in a;
  }

  lemma IncreasingPrefix(a: seq<Input>, b: seq<Input>)
    requires Increasing(a + b)
    ensures Increasing(a)
  {
    assert forall i :: 0 <= i < |a| ==> (a + b)[i] == a[i];
  }

  lemma StreamNumbers(w: World, x: Input)
    requires Numbered(w) && (x in w.taken || x in Consumable(w.mailbox) || x in w.mailbox.followups)
    ensures x.number <= w.mailbox.last
  {
    hide Merge;
    if x in Consumable(w.mailbox) {
      MergeMembers(w.mailbox.steers, w.mailbox.pending, x);
    }
  }

  lemma ExtendHeldBack(stream: seq<Input>, heldBack: seq<Input>, x: Input)
    requires InOrder(stream, heldBack) && x.route.FollowUp?
    requires forall y | y in stream + heldBack :: y.number < x.number
    ensures InOrder(stream, heldBack + [x])
  {
    hide Routed;
    var all := stream + heldBack;
    RoutedOne(x, true);
    RoutedConcat(all, [x], true);
    RoutedMembers(all, true);
    IncreasingEnd(Routed(all, true), x);
    assert stream + (heldBack + [x]) == all + [x];
  }

  lemma ExtendStream(stream: seq<Input>, heldBack: seq<Input>, x: Input)
    requires InOrder(stream, heldBack) && !x.route.FollowUp?
    requires forall y | y in stream :: y.number < x.number
    ensures InOrder(stream + [x], heldBack)
  {
    hide Routed;
    RoutedOne(x, false);
    RoutedOne(x, true);
    RoutedConcat(stream, [x], false);
    RoutedMembers(stream, false);
    IncreasingEnd(Routed(stream, false), x);
    RoutedConcat(stream, heldBack, true);
    RoutedConcat(stream, [x], true);
    RoutedConcat(stream + [x], heldBack, true);
    assert Routed(stream, true) + [] == Routed(stream, true);
  }

  lemma ReleaseHeldBack(stream: seq<Input>, heldBack: seq<Input>)
    requires InOrder(stream, heldBack) && forall x | x in heldBack :: x.route.FollowUp?
    ensures InOrder(stream + heldBack, [])
  {
    hide Routed;
    NoneRouted(heldBack);
    RoutedConcat(stream, heldBack, false);
    assert Routed(stream, false) + [] == Routed(stream, false);
    assert (stream + heldBack) + [] == stream + heldBack;
  }

  lemma {:induction false} NoneRouted(inputs: seq<Input>)
    requires forall x | x in inputs :: x.route.FollowUp?
    ensures Routed(inputs, false) == []
  {
    if inputs != [] {
      assert inputs[0] in inputs;
      NoneRouted(inputs[1..]);
    }
  }

  lemma DropQueued(taken: seq<Input>, queued: seq<Input>, heldBack: seq<Input>)
    requires InOrder(taken + queued, heldBack)
    ensures InOrder(taken, [])
  {
    hide Routed;
    RoutedConcat(taken, queued, false);
    IncreasingPrefix(Routed(taken, false), Routed(queued, false));
    assert (taken + queued) + heldBack == taken + (queued + heldBack);
    RoutedConcat(taken, queued + heldBack, true);
    IncreasingPrefix(Routed(taken, true), Routed(queued + heldBack, true));
    assert taken + [] == taken;
  }

  lemma AdmittedLatest(w: World, x: Input)
    requires Numbered(w) && x.number == w.mailbox.last + 1
    ensures forall y | y in w.mailbox.steers :: y.number < x.number
    ensures forall y | y in w.mailbox.pending :: y.number < x.number
    ensures forall y | y in Stream(w) + w.mailbox.followups :: y.number < x.number
  {
    hide Merge;
    forall y | y in Stream(w) + w.mailbox.followups ensures y.number < x.number {
      StreamNumbers(w, y);
    }
  }

  lemma StreamAdmits(w: World, route: Route, size: nat, text: string)
    requires Numbered(w) && Admits(w.mailbox, size)
    ensures var x, n := Input(w.mailbox.last + 1, route, size, text), Admitted(w, route, size, text);
      && Stream(n) == (if route.FollowUp? then Stream(w) else Stream(w) + [x])
      && n.mailbox.followups == (if route.FollowUp? then w.mailbox.followups + [x] else w.mailbox.followups)
  {
    var m, x := w.mailbox, Input(w.mailbox.last + 1, route, size, text);
    AdmittedLatest(w, x);
    hide Merge, Admits, Numbered;
    MergeLatest(m.steers, m.pending, x);
    assert w.taken + (Consumable(m) + [x]) == (w.taken + Consumable(m)) + [x];
  }

  lemma AdmitOrders(w: World, route: Route, size: nat, text: string)
    requires Ordered(w) && Admits(w.mailbox, size)
    ensures Ordered(Admitted(w, route, size, text))
  {
    AdmitKeepsNumbers(w, route, size, text);
    AdmittedLatest(w, Input(w.mailbox.last + 1, route, size, text));
    StreamAdmits(w, route, size, text);
    hide Stream, Admits, Admitted, Numbered, InOrder;
    var x := Input(w.mailbox.last + 1, route, size, text);
    if route.FollowUp? {
      ExtendHeldBack(Stream(w), w.mailbox.followups, x);
    } else {
      ExtendStream(Stream(w), w.mailbox.followups, x);
    }
  }

  lemma StreamsMove(w: World)
    ensures Stream(w) == w.taken + Consumable(w.mailbox) && Stream(Next(w, TakeInputs)) == Stream(w)
    ensures Stream(Next(w, FinishRun)) == w.taken
    ensures w.mailbox.pending == [] && w.mailbox.steers == [] ==>
      Stream(Next(w, ContinueOrSeal)) == Stream(w) + w.mailbox.followups && Next(w, ContinueOrSeal).mailbox.followups == []
  {
    assert Merge([], []) == [] && w.taken + [] == w.taken;
  }

  lemma StepOrders(w: World, e: Event)
    requires Ordered(w)
    ensures Ordered(Next(w, e))
  {
    hide InOrder, Numbered, Admits, Admitted, Interrupted, Merge, Stream;
    StepKeepsNumbers(w, e);
    StreamsMove(w);
    HeldBackAreFollowUps(w);
    StreamKept(w, e);
    var m := w.mailbox;
    match e
    case Admit(route, size, text) => if Admits(m, size) { AdmitOrders(w, route, size, text); }
    case ContinueOrSeal => if m.steers == [] && m.pending == [] { ReleaseHeldBack(Stream(w), m.followups); }
    case FinishRun => DropQueued(w.taken, Consumable(m), m.followups);
    case _ =>
  }

  /** Events that consume, reject and promote nothing leave both streams alone. */
  lemma StreamKept(w: World, e: Event)
    ensures !e.Admit? && !e.TakeInputs? && !e.ContinueOrSeal? && !e.FinishRun? ==>
      Stream(Next(w, e)) == Stream(w) && Next(w, e).mailbox.followups == w.mailbox.followups
  {
    hide Merge, Admits, Admitted, Interrupted;
  }

  lemma HeldBackAreFollowUps(w: World)
    requires Numbered(w)
    ensures forall x | x in w.mailbox.followups :: x.route.FollowUp?
  {
  }

  /* ---------- corrections ---------- */

  /** A queued correction has interrupted the turn it can interrupt, or its call still will. */
  predicate Prompt(w: World) {
    var m := w.mailbox;
    m.steers != [] && m.turn.Turn? && !m.turn.overlapped ==> m.turn.interrupted || w.steering > 0
  }

  lemma StepIsPrompt(w: World, e: Event)
    requires Prompt(w)
    ensures Prompt(Next(w, e))
  {
    hide Merge, Size;
  }

  /** While the second half of a correction is due, a correction is still queued. */
  predicate Attached(w: World) {
    w.steering > 0 ==> w.mailbox.steers != []
  }

  /** The event interrupts a turn although no correction is queued for it. */
  predicate Strays(w: World, e: Event) {
    var turn := w.mailbox.turn;
    e.InterruptForSteer? && w.steering > 0 && w.mailbox.steers == [] && turn.Turn? && !turn.overlapped && !turn.interrupted
  }

  /** The event empties the queue between the two halves of a correction. */
  predicate Detaches(w: World, e: Event) {
    (e.TakeInputs? || e.FinishRun?) && w.steering > 0
  }

  lemma StepAttachedIff(w: World, e: Event)
    ensures Attached(w) ==> (Attached(Next(w, e)) <==> !Detaches(w, e))
    ensures Detaches(w, e) ==> !Attached(Next(w, e))
    ensures Strays(w, e) ==> !Attached(w)
  {
    hide Merge, Size;
  }

  /** A detached correction interrupts the next turn whatever it is, an attached one never
      interrupts a turn it was not queued for. */
  lemma NextTurnStraysIff(w: World)
    ensures Strays(Next(w, BeginTurn(false)), InterruptForSteer) <==> !Attached(w)
    ensures !Attached(w) ==> Next(Next(w, BeginTurn(false)), InterruptForSteer).mailbox.turn == Turn(false, true)
  {
  }

  lemma {:induction false} RunSnoc(w: World, events: seq<Event>, e: Event)
    ensures Run(w, events + [e]) == Next(Run(w, events), e)
    decreases |events|
  {
    hide Next;
    if events == [] {
      assert [e][1..] == [];
    } else {
      assert (events + [e])[1..] == events[1..] + [e];
      RunSnoc(Next(w, events[0]), events[1..], e);
    }
  }

  lemma {:induction false} AttachedUntil(w: World, events: seq<Event>, k: nat)
    requires Attached(w) && k <= |events|
    requires forall j :: 0 <= j < k ==> !Detaches(Run(w, events[..j]), events[j])
    ensures Attached(Run(w, events[..k]))
  {
    hide Run, Next, Attached, Detaches;
    if k == 0 {
      assert Run(w, []) == w by { RunNothing(w); }
    } else {
      AttachedUntil(w, events, k - 1);
      assert events[..k] == events[..k - 1] + [events[k - 1]];
      RunSnoc(w, events[..k - 1], events[k - 1]);
      StepAttachedIff(Run(w, events[..k - 1]), events[k - 1]);
    }
  }

  lemma RunNothing(w: World)
    ensures Run(w, []) == w
  {
  }

  /** Over every run: a correction can come to interrupt a turn it was not queued for if and
      only if inputs were taken, or the run finished, between the two halves of a correction. */
  lemma RunStraysIff(w: World, events: seq<Event>)
    requires Attached(w)
    ensures (exists k :: 0 <= k <= |events| && Strays(Next(Run(w, events[..k]), BeginTurn(false)), InterruptForSteer))
      <==> (exists k :: 0 <= k < |events| && Detaches(Run(w, events[..k]), events[k]))
  {
    hide Run, Next, Attached, Detaches, Strays;
    if k :| 0 <= k <= |events| && Strays(Next(Run(w, events[..k]), BeginTurn(false)), InterruptForSteer) {
      NextTurnStraysIff(Run(w, events[..k]));
      if forall j :: 0 <= j < k ==> !Detaches(Run(w, events[..j]), events[j]) {
        AttachedUntil(w, events, k);
      }
    }
    if k :| 0 <= k < |events| && Detaches(Run(w, events[..k]), events[k]) {
      assert events[..k + 1] == events[..k] + [events[k]];
      RunSnoc(w, events[..k], events[k]);
      StepAttachedIff(Run(w, events[..k]), events[k]);
      NextTurnStraysIff(Run(w, events[..k + 1]));
    }
  }

  /** An interruption that strays in a run has such an event before it. */
  lemma StrayHasCause(w: World, events: seq<Event>, k: nat)
    requires Attached(w) && k < |events| && Strays(Run(w, events[..k]), events[k])
    ensures exists j :: 0 <= j < k && Detaches(Run(w, events[..j]), events[j])
  {
    hide Run, Next, Attached, Detaches, Strays;
    StepAttachedIff(Run(w, events[..k]), events[k]);
    if forall j :: 0 <= j < k ==> !Detaches(Run(w, events[..j]), events[j]) {
      AttachedUntil(w, events, k);
    }
  }

  const CORRECTION := Input(1, Steer, 1, "x")
  const CORRECTED: Mailbox := ZERO_MAILBOX.(started := true, accepting := true, steers := [CORRECTION], bytes := 1, last := 1, turn := Turn(false, false))

  lemma CorrectionQueued()
    ensures Next(Next(Next(IDLE, StartRun), BeginTurn(false)), Admit(Steer, 1, "x")) == World(CORRECTED, [CORRECTION], [], [], 1)
  {
    hide Merge, Size, Taken, Acknowledged, Finished, Cancelled, ContinuedOrSealed, Republished;
    var running := Next(IDLE, StartRun);
    var active := Next(running, BeginTurn(false));
    assert active.mailbox.turn == Turn(false, false) && Admits(active.mailbox, 1);
    assert [] + [CORRECTION] == [CORRECTION];
  }

  lemma CorrectionConsumed(queued: World)
    requires queued == World(CORRECTED, [CORRECTION], [], [], 1)
    ensures var consumed := Next(Next(Next(queued, EndTurn), TakeInputs), Acknowledge(true));
      && |consumed.acks| == 1 && consumed.steering == 1
      && consumed.mailbox.steers == [] && consumed.mailbox.pending == [] && consumed.mailbox.turn == NoTurn
  {
    hide Admits, Admitted, Finished, Cancelled, ContinuedOrSealed, Republished, Begun, Interrupted;
    var over := Next(queued, EndTurn);
    assert Consumable(over.mailbox) == [CORRECTION];
  }

  /** The interrupting half of a correction may reach a later turn than the one that was
      active when the correction was queued: here the correction has been consumed and
      acknowledged, and the next turn, with nothing queued, is interrupted. */
  lemma LaterTurnInterrupted()
    ensures var queued := Next(Next(Next(IDLE, StartRun), BeginTurn(false)), Admit(Steer, 1, "x"));
      var consumed := Next(Next(Next(queued, EndTurn), TakeInputs), Acknowledge(true));
      var w := Next(Next(consumed, BeginTurn(false)), InterruptForSteer);
      && |consumed.acks| == 1 && consumed.mailbox.steers == [] && consumed.mailbox.pending == []
      && w.mailbox.turn == Turn(false, true)
  {
    var queued := Next(Next(Next(IDLE, StartRun), BeginTurn(false)), Admit(Steer, 1, "x"));
    CorrectionQueued();
    CorrectionConsumed(queued);
    hide Next;
    NextTurnStraysIff(Next(Next(Next(queued, EndTurn), TakeInputs), Acknowledge(true)));
  }

  /* ---------- every run ---------- */

  predicate Sound(w: World) {
    Partition(w) && WithinLimits(w.mailbox) && Ordered(w) && Prompt(w)
  }

  /** At every step of every interleaving: each admitted input is in exactly one place, the
      limits and the byte count are kept, consumption follows admission, and no correction
      is forgotten. */
  lemma {:induction false} RunSound(w: World, events: seq<Event>)
    requires Sound(w)
    ensures Sound(Run(w, events))
    decreases |events|
  {
    hide Partition, WithinLimits, Ordered, Prompt, Next;
    if events != [] {
      StepPartitions(w, events[0]);
      StepWithinLimits(w, events[0]);
      StepOrders(w, events[0]);
      StepIsPrompt(w, events[0]);
      RunSound(Next(w, events[0]), events[1..]);
    }
  }

  lemma IdleSound()
    ensures Sound(IDLE)
  {
    assert Outstanding(ZERO_MAILBOX) == [];
  }

  /** Acknowledgements: no input is acknowledged twice, none that was not admitted, and
      after the run has finished every admitted input has been. */
  lemma AcknowledgedOnce(events: seq<Event>)
    ensures var w := Run(IDLE, events);
      && (forall x :: multiset(InputsOf(w.acks))[x] <= multiset(w.accepted)[x] <= 1)
      && multiset(InputsOf(Next(w, FinishRun).acks)) == multiset(w.accepted)
  {
    hide Run, InputsOf, WithinLimits, Ordered, Prompt;
    IdleSound();
    RunSound(IDLE, events);
    var w := Run(IDLE, events);
    StepPartitions(w, FinishRun);
    forall x ensures multiset(w.accepted)[x] <= 1 {
      NumberedOnce(w.accepted, x, 0);
    }
  }

  lemma {:induction false} NumberedOnce(inputs: seq<Input>, x: Input, base: nat)
    requires forall i :: 0 <= i < |inputs| ==> inputs[i].number == base + i + 1
    ensures multiset(inputs)[x] <= 1
    ensures multiset(inputs)[x] == 1 ==> base < x.number <= base + |inputs|
  {
    if inputs != [] {
      var rest := inputs[1..];
      assert inputs == [inputs[0]] + rest;
      NumberedOnce(rest, x, base + 1);
    }
  }

  /* ---------- sealing ---------- */

  predicate Sealed(m: Mailbox) {
    m.started && !m.accepting && m.pending == [] && m.steers == [] && m.followups == []
  }

  /** When the run is told not to continue, nothing is queued; and nothing ever is again. */
  lemma SealedForGood(w: World, events: seq<Event>)
    requires w.mailbox.started && !ContinuedOrSealed(w.mailbox).1
    ensures var sealed := Next(w, ContinueOrSeal);
      && Sealed(sealed.mailbox)
      && Sealed(Run(sealed, events).mailbox) && Run(sealed, events).accepted == w.accepted
  {
    StaysSealed(Next(w, ContinueOrSeal), events);
  }

  lemma {:induction false} StaysSealed(w: World, events: seq<Event>)
    requires Sealed(w.mailbox)
    ensures Sealed(Run(w, events).mailbox) && Run(w, events).accepted == w.accepted
    decreases |events|
  {
    if events != [] {
      assert Sealed(Next(w, events[0]).mailbox) && Next(w, events[0]).accepted == w.accepted;
      StaysSealed(Next(w, events[0]), events[1..]);
    }
  }
}
