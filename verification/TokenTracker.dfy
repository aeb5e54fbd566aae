/**
 Token reservations of child agents against their parent's remaining budget. The tracker
 is an object updated under its lock; the protocol is every interleaving of its critical
 sections, with the waiters that block on its notification channel.
 */
module TokenTracker {
  import opened TokenUsage

  /** `channel` numbers the notification channels; the current one is the latest made. */
  datatype Tracker = Tracker(remaining: int, active: int, channel: nat, batchSize: int, batchShare: int)

  datatype Attempt = Claimed(claim: int) | MustWait(channel: nat) | Exhausted

  function NewTracker(remaining: int): Tracker {
    Tracker(Max(0, remaining), 0, 0, 0, 0)
  }

  function Prepared(t: Tracker, size: int): Tracker {
    if size >= 1 && size > t.batchSize then t.(batchSize := size, batchShare := (t.remaining + size - 1) / size) else t
  }

  /** The size of the next claim; a request or a batch share only ever lowers it. */
  function Claim(t: Tracker, requested: int): int {
    var share := if t.batchShare > 0 then Min(t.remaining, t.batchShare) else t.remaining;
    if requested > 0 && requested < share then requested else share
  }

  /** One critical section of a reservation. */
  function Attempted(t: Tracker, requested: int): (Tracker, Attempt) {
    if t.remaining <= 0 then (t, if t.active == 0 then Exhausted else MustWait(t.channel))
    else
      var claim := Claim(t, requested);
      (t.(remaining := t.remaining - claim, active := t.active + 1), Claimed(claim))
  }

  function Spent(claim: int, usage: Usage): int {
    Min(claim, Add(ZERO, usage).total)
  }

  /** The critical section of a settlement; the old channel is closed after it. */
  function SettledBy(t: Tracker, claim: int, spent: int): Tracker {
    t.(remaining := t.remaining + claim - spent, active := t.active - 1, channel := t.channel + 1)
  }

  /* ---------- the object ---------- */

  class AgentToolTokenTracker {
    var remaining: int
    var active: int
    var channel: nat
    var batchSize: int
    var batchShare: int

    function Now(): Tracker
      reads this
    {
      Tracker(remaining, active, channel, batchSize, batchShare)
    }

    constructor (budget: int)
      ensures Now() == NewTracker(budget)
    {
      remaining, active, channel, batchSize, batchShare := Max(0, budget), 0, 0, 0, 0;
    }

    method PrepareBatch(size: int)
      modifies this
      ensures Now() == Prepared(old(Now()), size)
    {
      if size < 1 {
        return;
      }
      if size > batchSize {
        batchSize := size;
        batchShare := (remaining + size - 1) / size;
      }
    }

    method TryReserve(requested: int) returns (attempt: Attempt)
      modifies this
      ensures (Now(), attempt) == Attempted(old(Now()), requested)
    {
      if remaining <= 0 {
        return if active == 0 then Exhausted else MustWait(channel);
      }
      var claim := remaining;
      if batchShare > 0 {
        claim := Min(claim, batchShare);
      }
      if requested > 0 && requested < claim {
        claim := requested;
      }
      remaining := remaining - claim;
      active := active + 1;
      attempt := Claimed(claim);
    }

    /** Returns the channel the caller must close. */
    method Settle(claim: int, usage: Usage) returns (notify: nat)
      modifies this
      ensures Now() == SettledBy(old(Now()), claim, Spent(claim, usage)) && notify == old(channel)
    {
      hide Add;
      var spent := Min(claim, Add(ZERO, usage).total);
      remaining := remaining + (claim - spent);
      active := active - 1;
      notify := channel;
      channel := channel + 1;
    }
  }

  class AgentToolTokenReservation {
    const tracker: AgentToolTokenTracker
    const claim: int
    var settled: bool

    constructor (tracker: AgentToolTokenTracker, claim: int)
      ensures this.tracker == tracker && this.claim == claim && !settled
    {
      this.tracker, this.claim, settled := tracker, claim, false;
    }

    /** Only the first call has an effect; it hands back the channel to close. */
    method Settle(usage: Usage) returns (notify: nat)
      modifies this, tracker
      ensures settled
      ensures old(settled) ==> tracker.Now() == old(tracker.Now())
      ensures !old(settled) ==>
        tracker.Now() == SettledBy(old(tracker.Now()), claim, Spent(claim, usage)) && notify == old(tracker.channel)
    {
      notify := 0;
      if !settled {
        settled := true;
        notify := tracker.Settle(claim, usage);
      }
    }
  }

  /* ---------- the protocol ---------- */

  /** A child call: asking, waiting on a channel, holding a claim, settling it (its channel
      not yet closed), or done. */
  datatype Child =
    | Asking(requested: int)
    | Waiting(requested: int, channel: nat)
    | Holding(claim: int)
    | Settling(spent: int, channel: nat)
    | Settled(spent: int)
    | Refused
    | Cancelled

  datatype World = World(tracker: Tracker, children: seq<Child>, closed: set<nat>)

  datatype Event =
    | Batch(size: int)
    | Arrive(requested: int)
    | Reserve(child: nat)
    | Wake(child: nat)
    | Cancel(child: nat)
    | SettleLocked(child: nat, usage: Usage)
    | CloseChannel(child: nat)

  /** One atomic step; an event that is not enabled changes nothing. */
  function Next(w: World, e: Event): World {
    match e
    case Batch(size) => w.(tracker := Prepared(w.tracker, size))
    case Arrive(requested) => w.(children := w.children + [Asking(requested)])
    case Reserve(i) =>
      if i < |w.children| && w.children[i].Asking? then
        var requested := w.children[i].requested;
        var (tracker, attempt) := Attempted(w.tracker, requested);
        var child := match attempt
          case Claimed(claim) => Holding(claim)
          case MustWait(channel) => Waiting(requested, channel)
          case Exhausted => Refused;
        w.(tracker := tracker, children := w.children[i := child])
      else w
    case Wake(i) =>
      if i < |w.children| && w.children[i].Waiting? && w.children[i].channel in w.closed
      then w.(children := w.children[i := Asking(w.children[i].requested)]) else w
    case Cancel(i) =>
      if i < |w.children| && (w.children[i].Asking? || w.children[i].Waiting?)
      then w.(children := w.children[i := Cancelled]) else w
    case SettleLocked(i, usage) =>
      if i < |w.children| && w.children[i].Holding? then
        var claim := w.children[i].claim;
        var spent := Spent(claim, usage);
        World(SettledBy(w.tracker, claim, spent), w.children[i := Settling(spent, w.tracker.channel)], w.closed)
      else w
    case CloseChannel(i) =>
      if i < |w.children| && w.children[i].Settling?
      then w.(children := w.children[i := Settled(w.children[i].spent)], closed := w.closed + {w.children[i].channel}) else w
  }

  function Run(w: World, events: seq<Event>): World
    decreases |events|
  {
    if events == [] then w else Run(Next(w, events[0]), events[1..])
  }

  function Start(budget: int): World {
    World(NewTracker(budget), [], {})
  }

  /* ---------- the accounts ---------- */

  /** What a child has taken out of the parent's budget: its claim, or what it spent. */
  function Taken(c: Child): int {
    match c
    case Holding(claim) => claim
    case Settling(spent, _) => spent
    case Settled(spent) => spent
    case _ => 0
  }

  function Total(children: seq<Child>): int {
    if children == [] then 0 else Taken(children[0]) + Total(children[1..])
  }

  function Holders(children: seq<Child>): nat {
    if children == [] then 0 else (if children[0].Holding? then 1 else 0) + Holders(children[1..])
  }

  predicate ChildOk(c: Child) {
    match c
    case Holding(claim) => claim > 0
    case Settling(spent, _) => spent >= 0
    case Settled(spent) => spent >= 0
    case _ => true
  }

  /** Someone will close the channel, or has. */
  predicate WillClose(w: World, channel: nat) {
    || channel in w.closed
    || (channel == w.tracker.channel && w.tracker.active > 0)
    || exists i :: 0 <= i < |w.children| && w.children[i].Settling? && w.children[i].channel == channel
  }

  predicate Conserved(w: World, budget: int) {
    && w.tracker.remaining + Total(w.children) == Max(0, budget)
    && 0 <= w.tracker.remaining
    && w.tracker.active == Holders(w.children)
    && 0 <= w.tracker.batchShare && 0 <= w.tracker.batchSize
    && forall i :: 0 <= i < |w.children| ==> ChildOk(w.children[i])
  }

  predicate NobodyForgotten(w: World) {
    forall i :: 0 <= i < |w.children| && w.children[i].Waiting? ==> WillClose(w, w.children[i].channel)
  }

  lemma {:induction false} TotalUpdate(children: seq<Child>, i: nat, c: Child)
    requires i < |children|
    ensures Total(children[i := c]) == Total(children) - Taken(children[i]) + Taken(c)
    ensures Holders(children[i := c])
      == Holders(children) - (if children[i].Holding? then 1 else 0) + (if c.Holding? then 1 else 0)
  {
    if i > 0 {
      TotalUpdate(children[1..], i - 1, c);
      assert children[i := c][1..] == children[1..][i - 1 := c];
    } else {
      assert children[i := c][1..] == children[1..];
    }
  }

  lemma {:induction false} TotalArrive(children: seq<Child>, c: Child)
    requires Taken(c) == 0 && !c.Holding?
    ensures Total(children + [c]) == Total(children) && Holders(children + [c]) == Holders(children)
  {
    if children != [] {
      assert (children + [c])[1..] == children[1..] + [c];
      TotalArrive(children[1..], c);
    }
  }

  /** A claim is positive, and within what is left, what was requested and the batch share. */
  lemma ClaimBounds(t: Tracker, requested: int)
    requires t.remaining > 0
    ensures var claim := Claim(t, requested);
      && 0 < claim <= t.remaining
      && (requested > 0 ==> claim <= requested) && (t.batchShare > 0 ==> claim <= t.batchShare)
  {
  }

  /** And it is the greatest such number: a child gets what it may have. */
  lemma ClaimIsGreatest(t: Tracker, requested: int, amount: int)
    requires t.remaining > 0 && amount <= t.remaining
    requires (requested > 0 ==> amount <= requested) && (t.batchShare > 0 ==> amount <= t.batchShare)
    ensures var (after, attempt) := Attempted(t, requested);
      && attempt.Claimed? && amount <= attempt.claim
      && after == t.(remaining := t.remaining - attempt.claim, active := t.active + 1)
  {
  }

  /** A settlement charges what the child reports, up to its claim, and returns the rest. */
  lemma SettlementCharges(t: Tracker, claim: int, usage: Usage)
    requires claim > 0 && Consistent(usage)
    ensures var after := SettledBy(t, claim, Spent(claim, usage));
      && after.remaining == t.remaining + Max(0, claim - usage.total) && after.active == t.active - 1
      && after.batchSize == t.batchSize && after.batchShare == t.batchShare && after.channel != t.channel
  {
    hide Add;
    AddTotal(ZERO, usage);
  }

  lemma SpentBounds(claim: int, usage: Usage)
    requires claim > 0
    ensures 0 <= Spent(claim, usage) <= claim
  {
    AddClosed(ZERO, usage);
  }

  /** The predetermined share covers the batch: `size` shares are at least what is left. */
  lemma SharesCover(remaining: int, size: int)
    requires remaining >= 0 && size >= 1
    ensures var share := (remaining + size - 1) / size;
      && share >= 0 && share * size >= remaining && (share > 0 ==> (share - 1) * size < remaining)
  {
    var share := (remaining + size - 1) / size;
    assert share * size + (remaining + size - 1) % size == remaining + size - 1;
  }

  /** Every step keeps the accounts balanced. */
  lemma StepConserves(w: World, e: Event, budget: int)
    requires Conserved(w, budget)
    ensures Conserved(Next(w, e), budget)
  {
    hide Spent, Claim, Total, Holders;
    match e
    case Batch(size) =>
      if size >= 1 {
        SharesCover(w.tracker.remaining, size);
      }
    case Arrive(requested) => TotalArrive(w.children, Asking(requested));
    case Reserve(i) =>
      if i < |w.children| && w.children[i].Asking? {
        if w.tracker.remaining > 0 {
          ClaimBounds(w.tracker, w.children[i].requested);
        }
        TotalUpdate(w.children, i, Next(w, e).children[i]);
      }
    case SettleLocked(i, usage) =>
      if i < |w.children| && w.children[i].Holding? {
        SpentBounds(w.children[i].claim, usage);
        TotalUpdate(w.children, i, Next(w, e).children[i]);
      }
    case Wake(i) => if i < |w.children| { TotalUpdate(w.children, i, Next(w, e).children[i]); }
    case Cancel(i) => if i < |w.children| { TotalUpdate(w.children, i, Next(w, e).children[i]); }
    case CloseChannel(i) => if i < |w.children| { TotalUpdate(w.children, i, Next(w, e).children[i]); }
  }

  lemma {:induction false} SomeHolder(children: seq<Child>, i: nat)
    requires i < |children| && children[i].Holding?
    ensures Holders(children) > 0
  {
    if i > 0 {
      SomeHolder(children[1..], i - 1);
    }
  }

  /** No step loses a wake-up. */
  lemma StepForgetsNobody(w: World, e: Event, budget: int)
    requires Conserved(w, budget) && NobodyForgotten(w)
    ensures NobodyForgotten(Next(w, e))
  {
    hide Spent, Claim, Total, Holders;
    var n := Next(w, e);
    forall i | 0 <= i < |n.children| && n.children[i].Waiting? ensures WillClose(n, n.children[i].channel) {
      var channel := n.children[i].channel;
      if e.Reserve? && e.child == i {
        if i < |w.children| && w.children[i].Waiting? {
          assert n == w;
        }
      } else {
        assert i < |w.children| && w.children[i] == n.children[i];
        assert WillClose(w, channel);
        if channel !in w.closed && !(channel == w.tracker.channel && w.tracker.active > 0) {
          var k :| 0 <= k < |w.children| && w.children[k].Settling? && w.children[k].channel == channel;
          assert n.children[k] == w.children[k] || channel in n.closed;
        } else if e.SettleLocked? && e.child < |w.children| && w.children[e.child].Holding? {
          assert n.children[e.child] == Settling(Spent(w.children[e.child].claim, e.usage), w.tracker.channel);
        }
      }
    }
  }

  /** Under every interleaving the budget is conserved and no waiter is forgotten. */
  lemma {:induction false} RunConserves(w: World, events: seq<Event>, budget: int)
    requires Conserved(w, budget) && NobodyForgotten(w)
    ensures Conserved(Run(w, events), budget) && NobodyForgotten(Run(w, events))
    decreases |events|
  {
    hide Conserved, NobodyForgotten, Next;
    if events != [] {
      StepConserves(w, events[0], budget);
      StepForgetsNobody(w, events[0], budget);
      RunConserves(Next(w, events[0]), events[1..], budget);
    }
  }

  lemma StartConserves(budget: int)
    ensures Conserved(Start(budget), budget) && NobodyForgotten(Start(budget))
  {
  }

  /** Once nothing is reserved and no settlement is under way, every waiter's channel is
      closed, and the next attempt of each ends its wait one way or the other. */
  lemma NobodyStaysBlocked(budget: int, events: seq<Event>, i: nat)
    requires var w := Run(Start(budget), events);
      && i < |w.children| && w.children[i].Waiting?
      && (forall k :: 0 <= k < |w.children| ==> !w.children[k].Holding? && !w.children[k].Settling?)
    ensures var w := Run(Start(budget), events);
      var woken := Next(w, Wake(i));
      var asked := Next(woken, Reserve(i));
      && woken.children[i].Asking?
      && (if w.tracker.remaining > 0 then asked.children[i].Holding? else asked.children[i].Refused?)
  {
    hide Run, Claim;
    StartConserves(budget);
    RunConserves(Start(budget), events, budget);
    var w := Run(Start(budget), events);
    NoHolders(w.children);
    assert WillClose(w, w.children[i].channel);
  }

  lemma {:induction false} NoHolders(children: seq<Child>)
    requires forall k :: 0 <= k < |children| ==> !children[k].Holding?
    ensures Holders(children) == 0
  {
    if children != [] {
      NoHolders(children[1..]);
    }
  }

  /** Settling again, whenever and with whatever usage, changes nothing. */
  lemma SettleOnce(w: World, i: nat, usage: Usage, events: seq<Event>, again: Usage)
    requires i < |w.children| && w.children[i].Holding?
    ensures var later := Run(Next(w, SettleLocked(i, usage)), events);
      Next(later, SettleLocked(i, again)) == later
  {
    hide Spent;
    StaysSettled(Next(w, SettleLocked(i, usage)), i, events);
  }

  lemma {:induction false} StaysSettled(w: World, i: nat, events: seq<Event>)
    requires i < |w.children| && (w.children[i].Settling? || w.children[i].Settled?)
    ensures var later := Run(w, events);
      i < |later.children| && (later.children[i].Settling? || later.children[i].Settled?)
    decreases |events|
  {
    hide Spent, Claim;
    if events != [] {
      StaysSettled(Next(w, events[0]), i, events[1..]);
    }
  }

  /* ---------- sharing a batch ---------- */

  /** What is left of `budget` after k claims of `share` tokens each. */
  function LeftAfter(budget: int, share: int, k: nat): int {
    if k == 0 then budget else Max(0, LeftAfter(budget, share, k - 1) - share)
  }

  lemma {:induction false} LeftAfterIs(budget: int, share: int, k: nat)
    requires 0 <= budget && 0 <= share
    ensures LeftAfter(budget, share, k) == Max(0, budget - k * share)
  {
    if k > 0 {
      LeftAfterIs(budget, share, k - 1);
      assert k * share == (k - 1) * share + share;
    }
  }

  function Reserves(order: seq<nat>): (events: seq<Event>)
    ensures |events| == |order| && forall k :: 0 <= k < |order| ==> events[k] == Reserve(order[k])
  {
    seq(|order|, k requires 0 <= k < |order| => Reserve(order[k]))
  }

  lemma {:induction false} RunSnoc(w: World, events: seq<Event>, e: Event)
    ensures Run(w, events + [e]) == Next(Run(w, events), e)
    decreases |events|
  {
    hide Next;
    if events == [] {
      assert [e][1..] == [];
    } else {
      assert (events + [e])[1..] == events[1..] + [e];
      RunSnoc(Next(w, events[0]), events[1..], e);
    }
  }

  /** Children that set no budget of their own, reserving one after the other. */
  predicate Unrequested(w: World, order: seq<nat>) {
    && (forall k :: 0 <= k < |order| ==>
          order[k] < |w.children| && w.children[order[k]].Asking? && w.children[order[k]].requested <= 0)
    && (forall i, k :: 0 <= i < k < |order| ==> order[i] != order[k])
  }

  lemma ReserveUnrequested(w: World, i: nat)
    requires i < |w.children| && w.children[i].Asking? && w.children[i].requested <= 0
    requires w.tracker.batchShare > 0 && w.tracker.remaining >= 0 && w.tracker.active >= 0
    requires w.tracker.remaining == 0 ==> w.tracker.active > 0
    ensures var n, left, share := Next(w, Reserve(i)), w.tracker.remaining, w.tracker.batchShare;
      && n.tracker.remaining == Max(0, left - share) && n.tracker.batchShare == share && n.tracker.active > 0
      && |n.children| == |w.children|
      && (if left > 0 then n.children[i] == Holding(Min(share, left)) else n.children[i].Waiting?)
      && (forall j :: 0 <= j < |w.children| && j != i ==> n.children[j] == w.children[j])
  {
  }

  /** Each gets a full share while there is one, the one after those what is left, and the
      others wait. */
  lemma {:induction false} ReservesShare(w: World, order: seq<nat>)
    requires Unrequested(w, order) && w.tracker.batchShare > 0 && w.tracker.remaining > 0 && w.tracker.active >= 0
    ensures var v, share := Run(w, Reserves(order)), w.tracker.batchShare;
      && v.tracker.remaining == LeftAfter(w.tracker.remaining, share, |order|) && v.tracker.batchShare == share
      && |v.children| == |w.children|
      && (|order| > 0 ==> v.tracker.active > 0) && v.tracker.active >= 0
      && (forall i :: 0 <= i < |w.children| && i !in order ==> v.children[i] == w.children[i])
      && (forall k :: 0 <= k < |order| ==>
            var left, child := LeftAfter(w.tracker.remaining, share, k), v.children[order[k]];
            if left > 0 then child == Holding(Min(share, left)) else child.Waiting?)
  {
    hide Next, Run;
    if order == [] {
      assert Reserves(order) == [];
      RunNothing(w);
    } else {
      var n, share := |order| - 1, w.tracker.batchShare;
      var before, i := order[..n], order[n];
      assert Unrequested(w, before) && i !in before;
      ReservesShare(w, before);
      assert Reserves(order) == Reserves(before) + [Reserve(i)];
      RunSnoc(w, Reserves(before), Reserve(i));
      var u := Run(w, Reserves(before));
      assert u.children[i] == w.children[i];
      LeftPositiveOrNone(w.tracker.remaining, share, n);
      ReserveUnrequested(u, i);
      var v := Next(u, Reserve(i));
      forall k | 0 <= k < n ensures v.children[order[k]] == u.children[before[k]] {
        assert order[k] == before[k];
      }
      forall j | 0 <= j < |w.children| && j !in order ensures v.children[j] == w.children[j] {
        assert j !in before;
      }
    }
  }

  lemma RunNothing(w: World)
    ensures Run(w, []) == w
  {
  }

  lemma LeftPositiveOrNone(budget: int, share: int, k: nat)
    requires 0 < budget
    ensures LeftAfter(budget, share, k) >= 0 && (k == 0 ==> LeftAfter(budget, share, k) > 0)
  {
  }

  /** A batch of n children prepared on a fresh tracker: n unrequested reservations in any
      order take the whole budget between them. The k-th gets a claim exactly when k full
      shares leave something, and the share is the least of which n cover the budget. */
  lemma BatchTakesAll(budget: int, asking: World, n: nat, order: seq<nat>)
    requires 0 < budget && 0 < n && asking.tracker == NewTracker(budget)
    requires Unrequested(asking, order) && |order| == n
    ensures var prepared := Next(asking, Batch(n));
      var v, share := Run(prepared, Reserves(order)), prepared.tracker.batchShare;
      && v.tracker.remaining == 0 && |v.children| == |asking.children|
      && share * n >= budget > (share - 1) * n
      && (forall k :: 0 <= k < n ==>
            var child := v.children[order[k]];
            if k * share < budget then child == Holding(Min(share, budget - k * share)) else child.Waiting?)
  {
    hide Run;
    var prepared := Next(asking, Batch(n));
    SharesCover(budget, n);
    var share := prepared.tracker.batchShare;
    assert share > 0 by { SharePositive(budget, n, share); }
    ReservesShare(prepared, order);
    LeftAfterIs(budget, share, n);
    assert n * share == share * n;
    forall k | 0 <= k < n ensures LeftAfter(budget, share, k) == Max(0, budget - k * share) {
      LeftAfterIs(budget, share, k);
    }
  }

  lemma SharePositive(budget: int, n: int, share: int)
    requires 0 < budget && 0 < n && 0 <= share && share * n >= budget
    ensures 0 < share
  {
  }

  /** The share is rounded up, so the last children of a batch can be left waiting although
      there is a token for each. */
  lemma LastChildWaits()
    ensures var asking := World(NewTracker(5), [Asking(0), Asking(0), Asking(0), Asking(0)], {});
      var v := Run(Next(asking, Batch(4)), Reserves([0, 1, 2, 3]));
      |v.children| == 4 && v.children[..3] == [Holding(2), Holding(2), Holding(1)] && v.children[3].Waiting?
  {
    var asking := World(NewTracker(5), [Asking(0), Asking(0), Asking(0), Asking(0)], {});
    hide Run;
    var order: seq<nat> := [0, 1, 2, 3];
    assert Next(asking, Batch(4)).children == asking.children;
    BatchTakesAll(5, asking, 4, order);
    SharesCover(5, 4);
    assert Next(asking, Batch(4)).tracker.batchShare == 2;
    ReservesShare(Next(asking, Batch(4)), order);
    var v := Run(Next(asking, Batch(4)), Reserves(order));
    assert v.children[order[0]] == Holding(2) && v.children[order[1]] == Holding(2) && v.children[order[2]] == Holding(1);
    assert v.children[order[3]].Waiting?;
  }

  /** A later batch changes the share only when it is larger than all before. */
  lemma SmallerBatchKeepsShare(t: Tracker, size: int)
    ensures Prepared(t, size) == t || (size > t.batchSize && Prepared(t, size).remaining == t.remaining
      && Prepared(t, size).active == t.active && Prepared(t, size).batchSize == size)
    ensures size <= t.batchSize || size < 1 ==> Prepared(t, size) == t
  {
  }
}
