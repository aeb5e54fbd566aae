/**
 What senders of live input get: when an input is admitted, that waiting follow-ups are
 served, and what the acknowledgements say.
 */
module ControlService {
  import opened ControlMailbox
  import opened ControlProtocol

  /* ---------- admission ---------- */

  predicate Open(m: Mailbox) {
    m.started && m.accepting && !m.cancelled
  }

  predicate NothingQueued(m: Mailbox) {
    m.steers == [] && m.pending == [] && m.followups == []
  }

  /** The run is told to stop, is over, or asks whether to go on with nothing queued. */
  predicate Closes(w: World, e: Event) {
    e.CancelRun? || e.FinishRun? || (e.ContinueOrSeal? && NothingQueued(w.mailbox))
  }

  lemma StepOpenIff(w: World, e: Event)
    requires w.mailbox.started
    ensures Next(w, e).mailbox.started
    ensures Open(Next(w, e).mailbox) <==> Open(w.mailbox) && !Closes(w, e)
  {
    hide Merge, Size, Acks, Interrupted;
  }

  lemma {:induction false} RunOpenIff(w: World, events: seq<Event>)
    requires Open(w.mailbox)
    ensures Run(w, events).mailbox.started
    ensures Open(Run(w, events).mailbox) <==> forall k :: 0 <= k < |events| ==> !Closes(Run(w, events[..k]), events[k])
    decreases |events|
  {
    hide Next, Run, Closes;
    if events == [] {
      RunNothing(w);
    } else {
      var n := |events| - 1;
      var before, e := events[..n], events[n];
      RunOpenIff(w, before);
      assert events == before + [e];
      RunSnoc(w, before, e);
      StepOpenIff(Run(w, before), e);
      assert forall k :: 0 <= k < n ==> before[..k] == events[..k] && before[k] == events[k];
    }
  }

  /** Over every run: an input is admitted if and only if nothing has closed the mailbox since
      the start, fewer than 64 of the inputs admitted are still unacknowledged, and it leaves
      the sizes within a megabyte for itself and four for all unacknowledged ones. */
  lemma AdmittedIff(events: seq<Event>, size: nat)
    ensures var start := Next(IDLE, StartRun);
      var w := Run(start, events);
      && |InputsOf(w.acks)| <= |w.accepted|
      && (Admits(w.mailbox, size) <==>
            && (forall k :: 0 <= k < |events| ==> !Closes(Run(start, events[..k]), events[k]))
            && |w.accepted| - |InputsOf(w.acks)| < 64
            && size <= 1024 * 1024 && Size(Outstanding(w.mailbox)) + size <= 4 * 1024 * 1024)
  {
    hide Run, Next, Closes, InputsOf, Ordered, Prompt, Size, Outstanding;
    var start := Next(IDLE, StartRun);
    StartOpens();
    RunOpenIff(start, events);
    RunSound(start, events);
    Unacknowledged(Run(start, events));
  }

  lemma StartOpens()
    ensures Sound(Next(IDLE, StartRun)) && Open(Next(IDLE, StartRun).mailbox)
  {
    hide Partition, WithinLimits, Ordered, Prompt;
    IdleSound();
    StepPartitions(IDLE, StartRun);
    StepWithinLimits(IDLE, StartRun);
    StepOrders(IDLE, StartRun);
    StepIsPrompt(IDLE, StartRun);
  }

  /** What is not acknowledged is what takes up the places. */
  lemma Unacknowledged(w: World)
    requires Partition(w)
    ensures |w.accepted| - |InputsOf(w.acks)| == QueueLength(w.mailbox)
  {
    hide InputsOf;
    SameCount(w.accepted, Outstanding(w.mailbox), InputsOf(w.acks));
  }

  lemma SameCount(all: seq<Input>, a: seq<Input>, b: seq<Input>)
    requires multiset(all) == multiset(a) + multiset(b)
    ensures |all| == |a| + |b|
  {
    assert |multiset(all)| == |multiset(a)| + |multiset(b)|;
  }

  /* ---------- follow-ups ---------- */

  /** Asked at a natural end, the mailbox keeps the run going exactly when anything is queued,
      and then the next take consumes something: what waited anyway, or else all follow-ups. */
  lemma ContinuationFeeds(w: World)
    ensures var m, more, next := w.mailbox, ContinuedOrSealed(w.mailbox).1, Next(w, ContinueOrSeal);
      var served := Next(next, TakeInputs);
      && (more <==> !NothingQueued(m))
      && (more ==> Consumable(next.mailbox) != [])
      && served.taken == w.taken + (if m.steers + m.pending == [] then m.followups else Consumable(m))
      && served.mailbox.followups == (if m.steers + m.pending == [] then [] else m.followups)
      && (more ==> next.mailbox.accepting == m.accepting)
  {
    hide Acks, Size;
  }

  lemma TakeServes(w: World)
    ensures var v := Next(w, TakeInputs);
      && v.taken == w.taken + Consumable(w.mailbox) && v.mailbox.steers == [] && v.mailbox.pending == []
      && v.mailbox.followups == w.mailbox.followups
  {
  }

  /** Nobody is left waiting: a take, the question whether to go on and another take consume
      everything queued, corrections and messages first, follow-ups last. */
  lemma EverythingIsServed(w: World)
    ensures var v := Next(Next(Next(w, TakeInputs), ContinueOrSeal), TakeInputs);
      NothingQueued(v.mailbox) && v.taken == w.taken + Consumable(w.mailbox) + w.mailbox.followups
  {
    hide Next, ContinuedOrSealed;
    var taken := Next(w, TakeInputs);
    TakeServes(w);
    ContinuationFeeds(taken);
    TakeServes(Next(taken, ContinueOrSeal));
  }

  /* ---------- acknowledgements ---------- */

  /** Only inputs that were consumed are in flight or acknowledged as consumed. */
  predicate TakenFirst(w: World) {
    && (forall x | x in w.mailbox.inflight :: x in w.taken)
    && (forall a | a in w.acks && a.consumed :: a.input in w.taken)
  }

  lemma StepTakesFirst(w: World, e: Event)
    requires TakenFirst(w)
    ensures TakenFirst(Next(w, e))
  {
    hide Merge, Size, Interrupted, Admits;
  }

  lemma {:induction false} RunTakesFirst(w: World, events: seq<Event>)
    requires TakenFirst(w)
    ensures TakenFirst(Run(w, events))
    decreases |events|
  {
    hide Next, TakenFirst;
    if events != [] {
      StepTakesFirst(w, events[0]);
      RunTakesFirst(Next(w, events[0]), events[1..]);
    }
  }

  /** A sender told that its input was consumed can rely on it. */
  lemma ConsumedMeansTaken(events: seq<Event>, a: Ack)
    requires a in Run(IDLE, events).acks && a.consumed
    ensures a.input in Run(IDLE, events).taken
  {
    hide Run;
    RunTakesFirst(IDLE, events);
  }

  /** Acknowledging answers exactly the inputs in flight, all with the verdict given, and
      finishing answers everything outstanding with a refusal; nothing else answers anybody. */
  lemma AcknowledgementsTell(w: World, e: Event)
    ensures var answered := if e.Acknowledge? then w.mailbox.inflight else if e.FinishRun? then Outstanding(w.mailbox) else [];
      var n := Next(w, e);
      && |n.acks| == |w.acks| + |answered| && n.acks[..|w.acks|] == w.acks
      && (forall i :: 0 <= i < |answered| ==> n.acks[|w.acks| + i] == Ack(answered[i], e.Acknowledge? && e.consumed))
      && (answered != [] ==> n.mailbox.inflight == [])
  {
    hide Merge, Size, Interrupted, Admits;
  }

  /* ---------- turns that overlap tools ---------- */

  /** A turn during which tools have begun is interrupted by nothing but cancellation. */
  lemma OverlappedTurnGoesOn(w: World, e: Event)
    requires w.mailbox.turn == Turn(true, false)
    requires Next(w, e).mailbox.turn.Turn? && Next(w, e).mailbox.turn.interrupted
    ensures e.CancelRun? || (e.BeginTurn? && !e.overlapped) || (e.RepublishTurn? && !e.overlapped)
  {
    hide Merge, Size, Admits, Acks;
  }

  /** A turn once interrupted stays so until it ends, and cancellation interrupts any turn. */
  lemma InterruptionStays(w: World, e: Event)
    requires w.mailbox.turn.Turn? && !e.BeginTurn? && !e.EndTurn? && !e.FinishRun?
    ensures var turn := Next(w, e).mailbox.turn;
      turn.Turn? && (w.mailbox.turn.interrupted || e.CancelRun? ==> turn.interrupted)
  {
    hide Merge, Size, Admits, Acks;
  }
}
