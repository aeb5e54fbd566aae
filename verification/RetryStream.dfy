/**
 A provider stream that is reopened after failures until its first content is delivered.
 The outside world answers by position: what each attempt yields, whether each opening
 succeeds, and what the retry policy says each time it is asked.
 */
module RetryStream {
  import opened Wrappers

  datatype Cause = Cause(cancels: bool, text: string)

  datatype Kind = Blank | Content | ErrorEvent | DoneEvent

  datatype Event = Event(kind: Kind, text: string, cause: Option<Cause>)

  const NOTHING := Event(Blank, "", None)

  datatype Received = Received(event: Event, cause: Option<Cause>)

  datatype Approval = Approved | Declined | Vetoed(cause: Cause)

  /** `receive` takes the attempt and how much of it has been received. */
  datatype Env = Env(receive: (nat, nat) -> Received, open: nat -> Option<Cause>, approve: nat -> Approval)

  datatype Failure = Plain(cause: Cause) | Partial(cause: Cause) | OutOfRetries(cause: Cause) | StreamClosed

  datatype Result = Result(event: Event, failure: Option<Failure>)

  /** `opens` counts openings, `asks` questions to the retry policy; `delivered` logs the
      content events handed to the caller. */
  datatype State = State(
    current: nat, position: nat, retries: nat, opens: nat, asks: nat,
    emitted: bool, terminal: bool, closed: bool, delivered: seq<Event>)

  const DEFAULT_RETRIES: nat := 5

  function MaxRetries(configured: int): nat {
    if configured <= 0 then DEFAULT_RETRIES else configured
  }

  /* ---------- opening ---------- */

  /** The attempt opened, or the failure that ended the trying. */
  datatype Opening = Opening(result: Option<nat>, failure: Option<Failure>, retries: nat, opens: nat, asks: nat)

  function Open(env: Env, max: nat, retries: nat, opens: nat, asks: nat): (r: Opening)
    requires retries <= max
    ensures retries <= r.retries <= max && r.opens - opens == r.retries - retries + 1
    ensures r.result.Some? ==> r.result.value == r.opens - 1
    ensures r.result.Some? <==> r.failure.None?
    decreases max - retries
  {
    var failed := env.open(opens);
    if failed.None? then Opening(Some(opens), None, retries, opens + 1, asks)
    else if failed.value.cancels then Opening(None, Some(Plain(failed.value)), retries, opens + 1, asks)
    else if retries >= max then Opening(None, Some(OutOfRetries(failed.value)), retries, opens + 1, asks)
    else
      match env.approve(asks)
      case Vetoed(cause) => Opening(None, Some(Plain(cause)), retries, opens + 1, asks + 1)
      case Declined => Opening(None, Some(Plain(failed.value)), retries, opens + 1, asks + 1)
      case Approved => Open(env, max, retries + 1, opens + 1, asks + 1)
  }

  /* ---------- receiving ---------- */

  /** What the stream makes of something received: whether it is content, whether it ends the
      stream, and what to return, or why to retry. */
  datatype Verdict = Verdict(content: bool, ends: bool, result: Result, retry: Option<Cause>)

  const NO_REASON := Cause(false, "provider returned an error event after partial output")

  function PlainResult(event: Event, cause: Option<Cause>): Result {
    Result(event, if cause.None? then None else Some(Plain(cause.value)))
  }

  function CauseOf(r: Received): Option<Cause> {
    if r.event.kind.ErrorEvent? && r.event.cause.Some? then r.event.cause else r.cause
  }

  function Classify(emitted: bool, r: Received): Verdict {
    var cause := CauseOf(r);
    match r.event.kind
    case DoneEvent =>
      Verdict(false, true, if r.cause.Some? then Result(NOTHING, Some(Partial(r.cause.value))) else Result(r.event, None), None)
    case Content =>
      Verdict(true, r.cause.Some?, Result(r.event, if r.cause.Some? then Some(Partial(r.cause.value)) else None), None)
    case _ =>
      if emitted then ClassifyPartial(r.event, cause)
      else if cause.None? then Verdict(false, r.event.kind.ErrorEvent?, PlainResult(r.event, r.cause), None)
      else Verdict(false, false, PlainResult(r.event, cause), cause)
  }

  function ClassifyPartial(event: Event, cause: Option<Cause>): Verdict {
    if cause.None? && !event.kind.ErrorEvent? then Verdict(false, false, Result(event, None), None)
    else
      var reason := if cause.None? then NO_REASON else cause.value;
      Verdict(false, true, Result(if event.kind.ErrorEvent? then NOTHING else event, Some(Partial(reason))), None)
  }

  /** The state once something received has been judged. */
  function Judged(s: State, event: Event, v: Verdict): State {
    s.(position := s.position + 1, emitted := s.emitted || v.content, terminal := s.terminal || v.ends,
       delivered := if event.kind.Content? then s.delivered + [event] else s.delivered)
  }

  /** An error event carries the failure itself; anything else is returned beside it. */
  function RetryFailure(event: Event, failure: Failure): Result {
    if event.kind.ErrorEvent? then Result(event.(cause := if failure.StreamClosed? then None else Some(failure.cause)), None)
    else Result(event, Some(failure))
  }

  /** A retry: either the stream goes on from a new attempt, or there is a result to return. */
  function Retry(env: Env, max: nat, s: State, received: Received, cause: Cause): (r: (State, Option<Result>))
    requires s.retries <= max
    ensures s.retries <= r.0.retries <= max
    ensures r.1.None? ==> s.retries < r.0.retries
  {
    var event := received.event;
    if cause.cancels then (s, Some(Result(NOTHING, Some(Plain(cause)))))
    else if s.retries >= max then (s, Some(RetryFailure(event, OutOfRetries(cause))))
    else
      match env.approve(s.asks)
      case Vetoed(reason) => (s.(asks := s.asks + 1), Some(Result(NOTHING, Some(Plain(reason)))))
      case Declined =>
        if event.kind.ErrorEvent? then (s.(asks := s.asks + 1, terminal := true), Some(PlainResult(event, received.cause)))
        else (s.(asks := s.asks + 1), Some(Result(event, Some(Plain(cause)))))
      case Approved =>
        var o := Open(env, max, s.retries + 1, s.opens, s.asks + 1);
        var next := s.(retries := o.retries, opens := o.opens, asks := o.asks);
        if o.result.None? then (next, Some(RetryFailure(event, o.failure.value)))
        else (next.(current := o.result.value, position := 0), None)
  }

  function NextEvent(env: Env, max: nat, s: State): (State, Result)
    requires s.retries <= max
    decreases max - s.retries
  {
    if s.closed then (s, Result(NOTHING, Some(StreamClosed)))
    else
      var r := env.receive(s.current, s.position);
      if s.terminal then (Judged(s, r.event, Verdict(false, false, Result(r.event, None), None)), PlainResult(r.event, r.cause))
      else
        var v := Classify(s.emitted, r);
        var judged := Judged(s, r.event, v);
        if v.retry.None? then (judged, v.result)
        else
          var (next, result) := Retry(env, max, judged, r, v.retry.value);
          if result.Some? then (next, result.value) else NextEvent(env, max, next)
  }

  /** A stream is opened before anything is received from it. */
  function Start(env: Env, max: nat): (Opening, State) {
    var o := Open(env, max, 0, 0, 0);
    (o, State(if o.result.Some? then o.result.value else 0, 0, o.retries, o.opens, o.asks, false, false, false, []))
  }

  datatype Action = Receive | Close

  function Act(env: Env, max: nat, s: State, a: Action): State
    requires s.retries <= max
  {
    if a.Close? then s.(closed := true) else NextEvent(env, max, s).0
  }

  /* ---------- the object ---------- */

  class RetryingStream {
    const max: nat
    var current: nat
    var position: nat
    var retries: nat
    var opens: nat
    var asks: nat
    var emitted: bool
    var terminal: bool
    var closed: bool
    var delivered: seq<Event>

    function Now(): State
      reads this
    {
      State(current, position, retries, opens, asks, emitted, terminal, closed, delivered)
    }

    constructor (max: nat, s: State)
      ensures this.max == max && Now() == s
    {
      this.max := max;
      current, position, retries, opens, asks := s.current, s.position, s.retries, s.opens, s.asks;
      emitted, terminal, closed, delivered := s.emitted, s.terminal, s.closed, s.delivered;
    }

    /** Takes the next event of the current attempt; content is logged as delivered. */
    method ReadCurrent(env: Env) returns (r: Received)
      modifies `position, `delivered
      ensures r == env.receive(old(current), old(position))
      ensures Now() == Judged(old(Now()), r.event, Verdict(false, false, Result(r.event, None), None))
    {
      r := env.receive(current, position);
      position := position + 1;
      if r.event.kind.Content? {
        delivered := delivered + [r.event];
      }
    }

    method ClassifyReceived(r: Received) returns (result: Result, retry: Option<Cause>)
      modifies `emitted, `terminal
      ensures var v := Classify(old(emitted), r);
        && result == v.result && retry == v.retry
        && emitted == (old(emitted) || v.content) && terminal == (old(terminal) || v.ends)
    {
      var event := r.event;
      var cause := r.cause;
      if event.kind.ErrorEvent? && event.cause.Some? {
        cause := event.cause;
      }
      if event.kind.DoneEvent? {
        terminal := true;
        return if r.cause.Some? then Result(NOTHING, Some(Partial(r.cause.value))) else Result(event, None), None;
      }
      if event.kind.Content? {
        emitted := true;
        if r.cause.Some? {
          terminal := true;
          return Result(event, Some(Partial(r.cause.value))), None;
        }
        return Result(event, None), None;
      }
      if emitted {
        result := ClassifyPartialFailure(event, cause);
        return result, None;
      }
      if cause.None? {
        if event.kind.ErrorEvent? {
          terminal := true;
        }
        return PlainResult(event, r.cause), None;
      }
      result, retry := PlainResult(event, cause), cause;
    }

    method ClassifyPartialFailure(event: Event, cause: Option<Cause>) returns (result: Result)
      modifies `terminal
      ensures result == ClassifyPartial(event, cause).result && terminal == (old(terminal) || ClassifyPartial(event, cause).ends)
    {
      var reason := cause;
      if reason.None? {
        if !event.kind.ErrorEvent? {
          return Result(event, None);
        }
        reason := Some(NO_REASON);
      }
      terminal := true;
      result := Result(if event.kind.ErrorEvent? then NOTHING else event, Some(Partial(reason.value)));
    }

    /** None when the stream goes on from a newly opened attempt. */
    method Reopen(env: Env, received: Received, cause: Cause) returns (result: Option<Result>)
      requires retries <= max
      modifies this
      ensures (Now(), result) == Retry(env, max, old(Now()), received, cause)
    {
      hide Open, RetryFailure, PlainResult;
      var event := received.event;
      if cause.cancels {
        return Some(Result(NOTHING, Some(Plain(cause))));
      }
      if retries >= max {
        return Some(RetryFailure(event, OutOfRetries(cause)));
      }
      var approval := env.approve(asks);
      asks := asks + 1;
      if approval.Vetoed? {
        return Some(Result(NOTHING, Some(Plain(approval.cause))));
      }
      if approval.Declined? {
        if event.kind.ErrorEvent? {
          terminal := true;
          return Some(PlainResult(event, received.cause));
        }
        return Some(Result(event, Some(Plain(cause))));
      }
      retries := retries + 1;
      var o := OpenStreamWithRetry(env, max, retries, opens, asks);
      retries, opens, asks := o.retries, o.opens, o.asks;
      if o.result.None? {
        return Some(RetryFailure(event, o.failure.value));
      }
      current, position := o.result.value, 0;
      result := None;
    }

    method Recv(env: Env) returns (result: Result)
      requires retries <= max
      modifies this
      ensures (Now(), result) == NextEvent(env, max, old(Now())) && retries <= max
    {
      hide Classify, Retry;
      while true
        invariant retries <= max
        invariant NextEvent(env, max, old(Now())) == NextEvent(env, max, Now())
        decreases max - retries
      {
        if closed {
          return Result(NOTHING, Some(StreamClosed));
        }
        var r := ReadCurrent(env);
        if terminal {
          return PlainResult(r.event, r.cause);
        }
        var retry;
        result, retry := ClassifyReceived(r);
        if retry.None? {
          return;
        }
        var ended := Reopen(env, r, retry.value);
        if ended.Some? {
          return ended.value;
        }
      }
    }
  }

  method OpenStreamWithRetry(env: Env, max: nat, retries: nat, opens: nat, asks: nat) returns (o: Opening)
    requires retries <= max
    ensures o == Open(env, max, retries, opens, asks)
  {
    var tried, openings, asked := retries, opens, asks;
    while true
      invariant tried <= max
      invariant Open(env, max, retries, opens, asks) == Open(env, max, tried, openings, asked)
      decreases max - tried
    {
      var failed := env.open(openings);
      openings := openings + 1;
      if failed.None? {
        return Opening(Some(openings - 1), None, tried, openings, asked);
      }
      if failed.value.cancels {
        return Opening(None, Some(Plain(failed.value)), tried, openings, asked);
      }
      if tried >= max {
        return Opening(None, Some(OutOfRetries(failed.value)), tried, openings, asked);
      }
      var approval := env.approve(asked);
      asked := asked + 1;
      if approval.Vetoed? {
        return Opening(None, Some(Plain(approval.cause)), tried, openings, asked);
      }
      if approval.Declined? {
        return Opening(None, Some(Plain(failed.value)), tried, openings, asked);
      }
      tried := tried + 1;
    }
  }

  /* ---------- what every life of a stream keeps ---------- */

  /** The content events among the first `n` received from an attempt. */
  function ContentOf(env: Env, attempt: nat, n: nat): seq<Event> {
    if n == 0 then []
    else
      var e := env.receive(attempt, n - 1).event;
      ContentOf(env, attempt, n - 1) + if e.kind.Content? then [e] else []
  }

  predicate Kept(env: Env, max: nat, s: State) {
    && s.retries <= max && s.opens == s.retries + 1
    && s.delivered == ContentOf(env, s.current, s.position)
    && (!s.emitted && !s.terminal ==> s.delivered == [])
  }

  lemma JudgedKeeps(env: Env, max: nat, s: State)
    requires Kept(env, max, s) && !s.terminal
    ensures var r := env.receive(s.current, s.position);
      var v := Classify(s.emitted, r);
      var judged := Judged(s, r.event, v);
      Kept(env, max, judged) && (v.retry.Some? ==> judged.delivered == [] && judged.delivered == s.delivered)
  {
  }

  /** One receive: everything delivered is the content of one attempt, openings stay within
      the allowance, and once content has been delivered the attempt never changes. */
  lemma {:induction false} RecvKeeps(env: Env, max: nat, s: State)
    requires Kept(env, max, s)
    ensures var n := NextEvent(env, max, s).0;
      && Kept(env, max, n)
      && s.delivered <= n.delivered
      && (s.delivered != [] ==> n.current == s.current && n.opens == s.opens)
    decreases max - s.retries
  {
    hide Classify, Retry, ContentOf;
    if !s.closed {
      var r := env.receive(s.current, s.position);
      if s.terminal {
        TerminalKeeps(env, max, s);
      } else {
        JudgedKeeps(env, max, s);
        var v := Classify(s.emitted, r);
        if v.retry.Some? {
          var judged := Judged(s, r.event, v);
          RetryKeeps(env, max, judged, r, v.retry.value);
          var (next, result) := Retry(env, max, judged, r, v.retry.value);
          if result.None? {
            RecvKeeps(env, max, next);
          }
        }
      }
    }
  }

  lemma TerminalKeeps(env: Env, max: nat, s: State)
    requires Kept(env, max, s) && s.terminal
    ensures var r := env.receive(s.current, s.position);
      Kept(env, max, Judged(s, r.event, Verdict(false, false, Result(r.event, None), None)))
  {
  }

  lemma RetryKeeps(env: Env, max: nat, s: State, r: Received, cause: Cause)
    requires Kept(env, max, s) && s.delivered == []
    ensures Kept(env, max, Retry(env, max, s, r, cause).0) && Retry(env, max, s, r, cause).0.delivered == []
  {
    hide Open;
  }

  function Life(env: Env, max: nat, s: State, actions: seq<Action>): (n: State)
    requires Kept(env, max, s)
    decreases |actions|
  {
    if actions == [] then s
    else
      RecvKeeps(env, max, s);
      Life(env, max, Act(env, max, s, actions[0]), actions[1..])
  }

  /** Over the whole life of a stream the source is opened at most once more than retries are
      allowed, and the content events delivered are, in order, the first ones of one attempt. */
  lemma {:induction false} LifeKeeps(env: Env, max: nat, s: State, actions: seq<Action>)
    requires Kept(env, max, s)
    ensures var n := Life(env, max, s, actions);
      && Kept(env, max, n) && n.opens <= max + 1
      && s.delivered <= n.delivered
      && (s.delivered != [] ==> n.current == s.current && n.opens == s.opens)
    decreases |actions|
  {
    hide Kept, NextEvent;
    KeptOpens(env, max, s);
    if actions != [] {
      RecvKeeps(env, max, s);
      ActKeeps(env, max, s, actions[0]);
      LifeKeeps(env, max, Act(env, max, s, actions[0]), actions[1..]);
    }
  }

  lemma KeptOpens(env: Env, max: nat, s: State)
    requires Kept(env, max, s)
    ensures s.opens <= max + 1 && s.retries <= max
  {
  }

  lemma ActKeeps(env: Env, max: nat, s: State, a: Action)
    requires Kept(env, max, s) && Kept(env, max, NextEvent(env, max, s).0)
    ensures Kept(env, max, Act(env, max, s, a))
    ensures Act(env, max, s, a) == if a.Close? then s.(closed := true) else NextEvent(env, max, s).0
  {
    hide NextEvent, ContentOf;
  }

  lemma StartKeeps(env: Env, max: nat)
    ensures Kept(env, max, Start(env, max).1)
  {
  }

  /** A stream with the configured allowance, from its opening on. */
  lemma StreamLife(env: Env, configured: int, actions: seq<Action>)
    ensures var max := MaxRetries(configured);
      && Start(env, max).0.opens <= max + 1
      && Kept(env, max, Start(env, max).1)
      && var n := Life(env, max, Start(env, max).1, actions);
      n.opens <= max + 1 && n.delivered == ContentOf(env, n.current, n.position)
  {
    hide Open, Life, ContentOf;
    var max := MaxRetries(configured);
    StartKeeps(env, max);
    LifeKeeps(env, max, Start(env, max).1, actions);
  }

  /* ---------- when a stream is reopened, and what is returned ---------- */

  /** An opening that failed, and after which the policy wanted another; the policy has been
      asked `shift` times more than there were openings. */
  predicate TriedAgain(env: Env, attempt: nat, shift: int) {
    && 0 <= attempt + shift
    && env.open(attempt).Some? && !env.open(attempt).value.cancels && env.approve(attempt + shift) == Approved
  }

  /** How the last opening ended the trying: with a success, or with a cancellation, a spent
      allowance or the policy's refusal. */
  predicate TryingEnded(env: Env, max: nat, o: Opening, attempt: nat, ask: nat) {
    && o.opens == attempt + 1
    && match env.open(attempt)
       case None => o.result == Some(attempt) && o.failure == None && o.asks == ask
       case Some(cause) =>
         var answer := env.approve(ask);
         && o.result == None
         && (if cause.cancels then o.failure == Some(Plain(cause)) && o.asks == ask
             else if o.retries == max then o.failure == Some(OutOfRetries(cause)) && o.asks == ask
             else answer != Approved && o.failure == Some(Plain(if answer.Vetoed? then answer.cause else cause)) && o.asks == ask + 1)
  }

  /** Opening goes on exactly through the failures that the policy approves. */
  lemma {:induction false} OpenExplained(env: Env, max: nat, retries: nat, opens: nat, asks: nat, shift: int)
    requires retries <= max && shift == asks - opens
    ensures var o := Open(env, max, retries, opens, asks);
      var tries := o.retries - retries;
      && (forall j :: opens <= j < opens + tries ==> TriedAgain(env, j, shift))
      && TryingEnded(env, max, o, opens + tries, asks + tries)
    decreases max - retries
  {
    var failed := env.open(opens);
    if failed.Some? && !failed.value.cancels && retries < max && env.approve(asks).Approved? {
      OpenExplained(env, max, retries + 1, opens + 1, asks + 1, shift);
    }
  }

  /** The failure a receive brought, whether beside an event or in an error event. */
  function Broke(r: Received): Option<Cause> {
    if r.event.kind.ErrorEvent? && r.event.cause.Some? then r.event.cause else r.cause
  }

  /** Where a stream goes on after a failure before its first content. */
  function Reopened(env: Env, max: nat, s: State, cause: Cause): Option<State>
    requires s.retries <= max
  {
    if cause.cancels || s.retries == max || env.approve(s.asks) != Approved then None
    else
      var o := Open(env, max, s.retries + 1, s.opens, s.asks + 1);
      if o.result.None? then None
      else Some(s.(current := o.result.value, position := 0, retries := o.retries, opens := o.opens, asks := o.asks))
  }

  /** Content is always returned; so is every event that came without a failure. A failure
      is final once content has been delivered. Before that the stream goes on from a new
      attempt wherever it may, and otherwise the caller is told. */
  lemma RecvMeans(env: Env, max: nat, s: State)
    requires s.retries <= max && !s.closed && !s.terminal
    ensures var r, cause := env.receive(s.current, s.position), Broke(env.receive(s.current, s.position));
      var (n, result) := NextEvent(env, max, s);
      match r.event.kind
      case Content =>
        && result == Result(r.event, if r.cause.Some? then Some(Partial(r.cause.value)) else None)
        && n == s.(position := s.position + 1, emitted := true, terminal := r.cause.Some?, delivered := s.delivered + [r.event])
      case DoneEvent =>
        && result == (if r.cause.Some? then Result(NOTHING, Some(Partial(r.cause.value))) else Result(r.event, None))
        && n == s.(position := s.position + 1, terminal := true)
      case _ =>
        if cause.None? && !(s.emitted && r.event.kind.ErrorEvent?)
        then result == Result(r.event, None) && n == s.(position := s.position + 1, terminal := r.event.kind.ErrorEvent?)
        else if s.emitted
        then
          && result.failure.Some? && result.failure.value.Partial? && (cause.Some? ==> result.failure.value.cause == cause.value)
          && n == s.(position := s.position + 1, terminal := true)
        else
          var again := Reopened(env, max, s, cause.value);
          if again.Some? then again.value.retries <= max && NextEvent(env, max, s) == NextEvent(env, max, again.value)
          else (result.failure.Some? || result.event.kind.ErrorEvent?) && n.current == s.current && n.position == s.position + 1
  {
    hide Open;
    var r := env.receive(s.current, s.position);
    if r.event.kind.ErrorEvent? || r.event.kind.Blank? {
      if Broke(r).Some? && !s.emitted {
        RetryMeans(env, max, s, r, Broke(r).value);
      }
    }
  }

  lemma RetryMeans(env: Env, max: nat, s: State, r: Received, cause: Cause)
    requires s.retries <= max && !r.event.kind.Content? && Broke(r) == Some(cause)
    ensures var moved := s.(position := s.position + 1);
      var (n, result) := Retry(env, max, moved, r, cause);
      && (Reopened(env, max, s, cause).Some? <==> result.None?)
      && (result.None? ==> n == Reopened(env, max, s, cause).value)
      && (result.Some? ==>
            && (result.value.failure.Some? || result.value.event.kind.ErrorEvent?)
            && n.current == s.current && n.position == s.position + 1)
  {
    hide Open;
  }
}
