/**
 Executing a batch of tool calls: groups of parallel calls between calls that must run
 alone, worked off by a bounded pool of workers.
 */
module ToolBatch {
  import opened Wrappers

  const WORKERS: nat := 32
  const MAX_CALLS: nat := 1024

  function Min(a: int, b: int): int { if a < b then a else b }

  datatype Call = Call(id: string, name: string, sequential: bool)

  datatype Output = Output(callId: string, name: string, content: string)

  /** How the execution of one call ends. */
  datatype Outcome = Ran(output: Output) | Failed | NotExecuted

  /* ---------- groups ---------- */

  /** The end of the run of parallel calls from `start` on. */
  function ParallelEnd(calls: seq<Call>, start: nat): (end: nat)
    requires start <= |calls|
    ensures start <= end <= |calls|
    ensures forall i :: start <= i < end ==> !calls[i].sequential
    ensures end < |calls| ==> calls[end].sequential
    decreases |calls| - start
  {
    if start == |calls| || calls[start].sequential then start else ParallelEnd(calls, start + 1)
  }

  /** The end of the group that starts at `start`: a run of parallel calls, or one call. */
  function GroupEnd(calls: seq<Call>, parallel: bool, start: nat): (end: nat)
    requires start < |calls|
    ensures start < end <= |calls|
    ensures end == start + 1 || (parallel && forall i :: start <= i < end ==> !calls[i].sequential)
    ensures calls[start].sequential ==> end == start + 1
  {
    if parallel && ParallelEnd(calls, start) > start then ParallelEnd(calls, start) else start + 1
  }

  /** Group after group leads from `start` to `lo`. */
  predicate Reachable(calls: seq<Call>, parallel: bool, start: nat, lo: nat)
    requires start <= |calls| && lo <= |calls|
    decreases |calls| - start
  {
    start == lo || (start < lo && Reachable(calls, parallel, GroupEnd(calls, parallel, start), lo))
  }

  lemma {:induction false} ReachesNext(calls: seq<Call>, parallel: bool, start: nat, lo: nat)
    requires start <= lo < |calls| && Reachable(calls, parallel, start, lo)
    ensures Reachable(calls, parallel, start, GroupEnd(calls, parallel, lo))
    decreases |calls| - start
  {
    hide GroupEnd;
    if start < lo {
      ReachesNext(calls, parallel, GroupEnd(calls, parallel, start), lo);
    }
  }

  /* ---------- the pool as a protocol ---------- */

  datatype Status = Waiting | Held | Running | Done(outcome: Outcome)

  /** `lo..hi` is the group at work, `next` the next of its calls to hand out; `workers`
      holds the call each worker has. `starts` logs every execution begun. */
  datatype Pool = Pool(
    status: seq<Status>, lo: nat, hi: nat, next: nat, workers: seq<Option<nat>>,
    cancelled: bool, halted: bool, starts: seq<nat>)

  datatype Event =
    | OpenGroup
    | Hand(worker: nat)
    | Skip(worker: nat)
    | Begin(worker: nat)
    | End(worker: nat, outcome: Outcome)
    | CancelContext
    | StopDispatch
    | CloseGroup

  function NewPool(calls: seq<Call>, parallel: bool): (p: Pool)
    ensures Consistent(calls, parallel, p) && StartedOnce(p) && StartsLogged(p)
  {
    Pool(seq(|calls|, _ => Waiting), 0, 0, 0, [], false, false, [])
  }

  predicate Idle(p: Pool) {
    forall w :: 0 <= w < |p.workers| ==> p.workers[w].None?
  }

  predicate Has(p: Pool, w: nat, status: Status) {
    w < |p.workers| && p.workers[w].Some? && p.workers[w].value < |p.status| && p.status[p.workers[w].value] == status
  }

  /** The calls from `lo` to `hi` marked as never executed. */
  function Skipped(status: seq<Status>, lo: nat, hi: nat): (s: seq<Status>)
    requires lo <= hi <= |status|
    ensures |s| == |status|
    ensures forall i :: 0 <= i < |s| ==> s[i] == if lo <= i < hi then Done(NotExecuted) else status[i]
  {
    seq(|status|, i requires 0 <= i < |status| => if lo <= i < hi then Done(NotExecuted) else status[i])
  }

  predicate AllRan(status: seq<Status>, lo: nat, hi: nat)
    requires lo <= hi <= |status|
  {
    forall i :: lo <= i < hi ==> status[i].Done? && status[i].outcome.Ran?
  }

  predicate AnyFailed(status: seq<Status>, lo: nat, hi: nat)
    requires lo <= hi <= |status|
  {
    exists i :: lo <= i < hi && !(status[i].Done? && status[i].outcome.Ran?)
  }

  /** One atomic step; an event that is not enabled changes nothing. */
  function Next(calls: seq<Call>, parallel: bool, p: Pool, e: Event): Pool
    requires |p.status| == |calls| && p.lo <= p.next <= p.hi <= |calls|
  {
    match e
    case OpenGroup =>
      if p.workers == [] && !p.halted && p.hi < |calls| then
        var end := GroupEnd(calls, parallel, p.hi);
        p.(lo := p.hi, next := p.hi, hi := end, workers := seq(Min(WORKERS, end - p.hi), _ => None))
      else p
    case Hand(w) =>
      if w < |p.workers| && p.workers[w].None? && p.next < p.hi
      then p.(workers := p.workers[w := Some(p.next)], status := p.status[p.next := Held], next := p.next + 1) else p
    case Skip(w) =>
      if Has(p, w, Held) && p.cancelled
      then p.(workers := p.workers[w := None], status := p.status[p.workers[w].value := Done(NotExecuted)]) else p
    case Begin(w) =>
      if Has(p, w, Held)
      then p.(status := p.status[p.workers[w].value := Running], starts := p.starts + [p.workers[w].value]) else p
    case End(w, outcome) =>
      if Has(p, w, Running)
      then p.(workers := p.workers[w := None], status := p.status[p.workers[w].value := Done(outcome)]) else p
    case CancelContext => p.(cancelled := true)
    case StopDispatch =>
      if p.cancelled && p.workers != [] then p.(status := Skipped(p.status, p.next, p.hi), next := p.hi) else p
    case CloseGroup =>
      if p.workers != [] && Idle(p) && p.next == p.hi then
        if AnyFailed(p.status, p.lo, p.hi)
        then p.(workers := [], halted := true, status := Skipped(p.status, p.hi, |p.status|))
        else p.(workers := [])
      else p
  }

  /** The pool's state is consistent: what is behind is done, what is ahead waits, and a call
      is at work exactly when one worker has it. */
  predicate Consistent(calls: seq<Call>, parallel: bool, p: Pool) {
    && |p.status| == |calls| && p.lo <= p.next <= p.hi <= |calls|
    && Reachable(calls, parallel, 0, p.lo)
    && AllRan(p.status, 0, p.lo)
    && (forall i :: p.next <= i < |calls| ==> if p.halted then p.status[i].Done? else p.status[i].Waiting?)
    && (forall i :: p.lo <= i < p.next ==> !p.status[i].Waiting?)
    && |p.workers| <= WORKERS
    && (p.workers == [] ==>
          && p.next == p.hi && (forall i :: p.lo <= i < p.hi ==> p.status[i].Done?)
          && (p.halted <==> AnyFailed(p.status, p.lo, p.hi)))
    && (p.workers != [] ==> p.lo < p.hi && !p.halted)
    && (if p.lo == p.hi then p.lo == 0 else p.hi == GroupEnd(calls, parallel, p.lo))
    && (p.halted ==> forall i :: p.hi <= i < |calls| ==> p.status[i] == Done(NotExecuted))
    && (forall w :: 0 <= w < |p.workers| && p.workers[w].Some? ==>
          p.lo <= p.workers[w].value < p.next && (Has(p, w, Held) || Has(p, w, Running)))
    && (forall v, w :: 0 <= v < w < |p.workers| && p.workers[v].Some? ==> p.workers[v] != p.workers[w])
    && (forall i :: 0 <= i < |calls| && (p.status[i].Held? || p.status[i].Running?) ==> Some(i) in p.workers)
  }

  predicate StartedOnce(p: Pool) {
    && (forall i, j :: 0 <= i < j < |p.starts| ==> p.starts[i] != p.starts[j])
    && (forall k :: 0 <= k < |p.starts| ==>
          p.starts[k] < |p.status| && (p.status[p.starts[k]].Running? || p.status[p.starts[k]].Done?))
  }

  predicate StartsLogged(p: Pool) {
    forall i :: 0 <= i < |p.status| && Executed(p.status[i]) ==> i in p.starts
  }

  /** Only an execution brings a call here. */
  predicate Executed(status: Status) {
    status.Running? || (status.Done? && !status.outcome.NotExecuted?)
  }

  function Run(calls: seq<Call>, parallel: bool, p: Pool, events: seq<Event>): (q: Pool)
    requires Consistent(calls, parallel, p)
    ensures Consistent(calls, parallel, q)
    decreases |events|
  {
    if events == [] then p
    else
      StepConsistent(calls, parallel, p, events[0]);
      Run(calls, parallel, Next(calls, parallel, p, events[0]), events[1..])
  }

  lemma BeginStays(calls: seq<Call>, parallel: bool, p: Pool, w: nat)
    requires Consistent(calls, parallel, p) && Has(p, w, Held)
    ensures Consistent(calls, parallel, p.(status := p.status[p.workers[w].value := Running], starts := p.starts + [p.workers[w].value]))
  {
  }

  lemma ReleaseStays(calls: seq<Call>, parallel: bool, p: Pool, w: nat, outcome: Outcome)
    requires Consistent(calls, parallel, p) && (Has(p, w, Held) || Has(p, w, Running))
    ensures Consistent(calls, parallel, p.(workers := p.workers[w := None], status := p.status[p.workers[w].value := Done(outcome)]))
  {
    var k := p.workers[w].value;
    var n := p.(workers := p.workers[w := None], status := p.status[k := Done(outcome)]);
    forall i | 0 <= i < |calls| && (n.status[i].Held? || n.status[i].Running?) ensures Some(i) in n.workers {
      assert p.status[i] == n.status[i];
      var v :| 0 <= v < |p.workers| && p.workers[v] == Some(i);
      assert n.workers[v] == Some(i);
    }
  }

  lemma HandStays(calls: seq<Call>, parallel: bool, p: Pool, w: nat)
    requires Consistent(calls, parallel, p) && w < |p.workers| && p.workers[w].None? && p.next < p.hi
    ensures Consistent(calls, parallel, Next(calls, parallel, p, Hand(w)))
  {
    var n := Next(calls, parallel, p, Hand(w));
    forall i | 0 <= i < |calls| && (n.status[i].Held? || n.status[i].Running?) ensures Some(i) in n.workers {
      if i != p.next {
        assert p.status[i] == n.status[i];
        var v :| 0 <= v < |p.workers| && p.workers[v] == Some(i);
        assert n.workers[v] == Some(i);
      } else {
        assert n.workers[w] == Some(i);
      }
    }
  }

  lemma CloseStays(calls: seq<Call>, parallel: bool, p: Pool)
    requires Consistent(calls, parallel, p) && p.workers != [] && Idle(p) && p.next == p.hi
    ensures Consistent(calls, parallel, Next(calls, parallel, p, CloseGroup))
  {
    forall i | p.lo <= i < p.hi ensures p.status[i].Done? {
      assert p.status[i].Held? || p.status[i].Running? ==> Some(i) in p.workers;
    }
  }

  lemma OpenStays(calls: seq<Call>, parallel: bool, p: Pool)
    requires Consistent(calls, parallel, p) && p.workers == [] && !p.halted && p.hi < |calls|
    ensures Consistent(calls, parallel, Next(calls, parallel, p, OpenGroup))
  {
    hide GroupEnd, Reachable;
    if p.lo < p.hi {
      ReachesNext(calls, parallel, 0, p.lo);
    }
    assert AllRan(p.status, 0, p.hi);
  }

  lemma StopStays(calls: seq<Call>, parallel: bool, p: Pool)
    requires Consistent(calls, parallel, p) && p.workers != []
    ensures Consistent(calls, parallel, p.(status := Skipped(p.status, p.next, p.hi), next := p.hi))
  {
  }

  lemma StepConsistent(calls: seq<Call>, parallel: bool, p: Pool, e: Event)
    requires Consistent(calls, parallel, p)
    ensures Consistent(calls, parallel, Next(calls, parallel, p, e))
  {
    var n := Next(calls, parallel, p, e);
    match e
    case OpenGroup => if n != p { OpenStays(calls, parallel, p); }
    case Hand(w) => if n != p { HandStays(calls, parallel, p, w); }
    case Skip(w) => if n != p { ReleaseStays(calls, parallel, p, w, NotExecuted); }
    case Begin(w) => if n != p { BeginStays(calls, parallel, p, w); }
    case End(w, outcome) => if n != p { ReleaseStays(calls, parallel, p, w, outcome); }
    case CancelContext =>
    case StopDispatch => if n != p { StopStays(calls, parallel, p); }
    case CloseGroup => if n != p { CloseStays(calls, parallel, p); }
  }

  lemma StepStartsOnce(calls: seq<Call>, parallel: bool, p: Pool, e: Event)
    requires Consistent(calls, parallel, p) && StartedOnce(p)
    ensures StartedOnce(Next(calls, parallel, p, e))
  {
  }

  lemma StepLogsStart(calls: seq<Call>, parallel: bool, p: Pool, e: Event)
    requires Consistent(calls, parallel, p) && StartsLogged(p)
    ensures StartsLogged(Next(calls, parallel, p, e))
  {
    hide Reachable, GroupEnd, AllRan, AnyFailed;
  }

  /* ---------- what every interleaving keeps ---------- */

  predicate RunningAt(p: Pool, i: nat) {
    i < |p.status| && p.status[i].Running?
  }

  /** At every step of every interleaving: no call has been started twice, none has ended that
      was not started, unless as never executed, and the calls
      running are held by at most 32 workers, all in one group; a call that must run alone
      runs alone, with everything before it done and nothing after it started. */
  lemma {:induction false} RunSafe(calls: seq<Call>, parallel: bool, p: Pool, events: seq<Event>)
    requires Consistent(calls, parallel, p) && StartedOnce(p) && StartsLogged(p)
    ensures var q := Run(calls, parallel, p, events);
      && Consistent(calls, parallel, q) && StartedOnce(q) && StartsLogged(q)
    decreases |events|
  {
    hide StartedOnce, StartsLogged, Next;
    if events != [] {
      StepConsistent(calls, parallel, p, events[0]);
      StepStartsOnce(calls, parallel, p, events[0]);
      StepLogsStart(calls, parallel, p, events[0]);
      RunSafe(calls, parallel, Next(calls, parallel, p, events[0]), events[1..]);
    }
  }

  lemma RunsAlone(calls: seq<Call>, parallel: bool, events: seq<Event>, i: nat, j: nat)
    requires var p := Run(calls, parallel, NewPool(calls, parallel), events); RunningAt(p, i) && RunningAt(p, j)
    ensures i < |calls| && j < |calls| && (calls[i].sequential || calls[j].sequential || !parallel ==> i == j)
    ensures var p := Run(calls, parallel, NewPool(calls, parallel), events);
      && (forall k :: 0 <= k < |calls| && k < p.lo ==> p.status[k].Done?)
      && (forall k :: p.hi <= k < |calls| ==> p.status[k].Waiting?)
      && p.lo <= i < p.hi && p.lo <= j < p.hi
  {
    hide Run;
    RunSafe(calls, parallel, NewPool(calls, parallel), events);
    var p := Run(calls, parallel, NewPool(calls, parallel), events);
    assert Some(i) in p.workers && Some(j) in p.workers;
  }

  /** The calls at work, as a set; its size is bounded by the number of workers. */
  function AtWork(workers: seq<Option<nat>>): (s: set<nat>)
    ensures |s| <= |workers|
    ensures forall i :: Some(i) in workers ==> i in s
  {
    if workers == [] then {}
    else
      assert forall i :: Some(i) in workers ==> workers[0] == Some(i) || Some(i) in workers[1..];
      (if workers[0].Some? then {workers[0].value} else {}) + AtWork(workers[1..])
  }

  lemma AtMostWorkers(calls: seq<Call>, parallel: bool, events: seq<Event>)
    ensures var p := Run(calls, parallel, NewPool(calls, parallel), events);
      && |AtWork(p.workers)| <= WORKERS
      && forall i :: RunningAt(p, i) ==> i in AtWork(p.workers)
  {
    hide Run;
    RunSafe(calls, parallel, NewPool(calls, parallel), events);
  }

  lemma DoneForGood(calls: seq<Call>, parallel: bool, p: Pool, e: Event, i: nat)
    requires Consistent(calls, parallel, p) && i < |calls| && p.status[i].Done?
    ensures Next(calls, parallel, p, e).status[i] == p.status[i]
  {
    hide Reachable, GroupEnd, AllRan;
  }

  lemma {:induction false} RunKeepsDone(calls: seq<Call>, parallel: bool, p: Pool, events: seq<Event>, i: nat)
    requires Consistent(calls, parallel, p) && i < |calls| && p.status[i].Done?
    ensures Run(calls, parallel, p, events).status[i] == p.status[i]
    decreases |events|
  {
    hide Reachable, GroupEnd, AllRan, AnyFailed;
    if events != [] {
      StepConsistent(calls, parallel, p, events[0]);
      DoneForGood(calls, parallel, p, events[0], i);
      RunKeepsDone(calls, parallel, Next(calls, parallel, p, events[0]), events[1..], i);
    }
  }

  /** How the execution of a call ends is what stays recorded of it, whatever follows. */
  lemma EndDecides(calls: seq<Call>, parallel: bool, p: Pool, w: nat, outcome: Outcome, rest: seq<Event>)
    requires Consistent(calls, parallel, p) && Has(p, w, Running)
    ensures Run(calls, parallel, p, [End(w, outcome)] + rest).status[p.workers[w].value] == Done(outcome)
  {
    hide Reachable, GroupEnd, AllRan, AnyFailed;
    var i, events := p.workers[w].value, [End(w, outcome)] + rest;
    assert events[1..] == rest;
    StepConsistent(calls, parallel, p, End(w, outcome));
    var n := Next(calls, parallel, p, End(w, outcome));
    RunKeepsDone(calls, parallel, n, rest, i);
  }

  /** A run of parallel calls is one group, as long as it can be. */
  lemma GroupIsMaximal(calls: seq<Call>, start: nat)
    requires start < |calls| && !calls[start].sequential
    ensures var end := GroupEnd(calls, true, start);
      && (forall i :: start <= i < end ==> !calls[i].sequential)
      && (end < |calls| ==> calls[end].sequential)
  {
  }

  /** The first `k` workers take and begin one call each. */
  function Takes(k: nat): (events: seq<Event>)
    ensures |events| == 2 * k
  {
    if k == 0 then [] else Takes(k - 1) + [Hand(k - 1), Begin(k - 1)]
  }

  lemma {:induction false} RunConcat(calls: seq<Call>, parallel: bool, p: Pool, a: seq<Event>, b: seq<Event>)
    requires Consistent(calls, parallel, p)
    ensures Run(calls, parallel, p, a + b) == Run(calls, parallel, Run(calls, parallel, p, a), b)
    decreases |a|
  {
    hide Reachable, AllRan, GroupEnd, AnyFailed;
    if a == [] {
      assert a + b == b;
    } else {
      assert (a + b)[1..] == a[1..] + b;
      StepConsistent(calls, parallel, p, a[0]);
      RunConcat(calls, parallel, Next(calls, parallel, p, a[0]), a[1..], b);
    }
  }

  /** A group just opened, after its first `k` workers have begun. */
  predicate Begun(p: Pool, k: nat) {
    && k <= |p.workers| && p.next - p.lo == k && p.next <= p.hi <= |p.status|
    && (forall i :: p.lo <= i < p.next ==> p.status[i] == Running)
    && (forall w :: k <= w < |p.workers| ==> p.workers[w] == None)
  }

  /** One more worker takes the next call and begins it. */
  lemma TakesNext(calls: seq<Call>, parallel: bool, p: Pool, k: nat)
    requires |p.status| == |calls| && Begun(p, k) && k < |p.workers| && p.next < p.hi
    ensures var handed := Next(calls, parallel, p, Hand(k));
      && |handed.status| == |calls| && handed.lo <= handed.next <= handed.hi <= |calls|
      && var n := Next(calls, parallel, handed, Begin(k));
      Begun(n, k + 1) && n.lo == p.lo && n.hi == p.hi && |n.workers| == |p.workers|
  {
    var handed := Next(calls, parallel, p, Hand(k));
    assert handed == p.(workers := p.workers[k := Some(p.next)], status := p.status[p.next := Held], next := p.next + 1);
    assert Has(handed, k, Held);
  }

  lemma RunTwo(calls: seq<Call>, parallel: bool, p: Pool, e: Event, f: Event)
    requires Consistent(calls, parallel, p)
    ensures var n := Next(calls, parallel, p, e);
      && |n.status| == |calls| && n.lo <= n.next <= n.hi <= |calls|
      && Run(calls, parallel, p, [e, f]) == Next(calls, parallel, n, f)
  {
    hide Next;
    StepConsistent(calls, parallel, p, e);
    var n := Next(calls, parallel, p, e);
    StepConsistent(calls, parallel, n, f);
    assert [e, f][1..] == [f] && [f][1..] == [];
    hide Reachable, AllRan, GroupEnd, AnyFailed;
    assert Run(calls, parallel, n, [f]) == Run(calls, parallel, Next(calls, parallel, n, f), []);
  }

  lemma {:induction false} BeginAll(calls: seq<Call>, parallel: bool, p: Pool, k: nat)
    requires Consistent(calls, parallel, p) && Begun(p, 0) && k <= |p.workers| && p.lo + k <= p.hi
    ensures var n := Run(calls, parallel, p, Takes(k));
      Begun(n, k) && n.lo == p.lo && n.hi == p.hi && |n.workers| == |p.workers|
  {
    hide Begun, Next, Reachable, AllRan, GroupEnd, AnyFailed;
    if k > 0 {
      BeginAll(calls, parallel, p, k - 1);
      var n := Run(calls, parallel, p, Takes(k - 1));
      BegunNext(n, k - 1);
      TakesNext(calls, parallel, n, k - 1);
      RunTwo(calls, parallel, n, Hand(k - 1), Begin(k - 1));
      RunConcat(calls, parallel, p, Takes(k - 1), [Hand(k - 1), Begin(k - 1)]);
    }
  }

  lemma BegunNext(p: Pool, k: nat)
    requires Begun(p, k)
    ensures p.next == p.lo + k && forall i :: p.lo <= i < p.lo + k ==> RunningAt(p, i)
  {
  }

  lemma OpensGroup(calls: seq<Call>, parallel: bool, p: Pool)
    requires Consistent(calls, parallel, p) && p.workers == [] && !p.halted && p.hi < |calls|
    ensures var n := Next(calls, parallel, p, OpenGroup);
      Begun(n, 0) && n.lo == p.hi && n.hi == GroupEnd(calls, parallel, p.hi) && |n.workers| == Min(32, n.hi - n.lo)
  {
    hide GroupEnd, Reachable, AllRan, AnyFailed;
  }

  /** Parallel calls can indeed run together: whenever a group opens, its calls, or 32 of
      them, can all come to be running at once. */
  lemma RunsTogether(calls: seq<Call>, parallel: bool, p: Pool)
    requires Consistent(calls, parallel, p) && p.workers == [] && !p.halted && p.hi < |calls|
    ensures var end := GroupEnd(calls, parallel, p.hi);
      var together := Min(32, end - p.hi);
      var q := Run(calls, parallel, p, [OpenGroup] + Takes(together));
      q.hi == end && forall i :: p.hi <= i < p.hi + together ==> RunningAt(q, i)
  {
    hide GroupEnd, Reachable, AllRan, AnyFailed, Begun, Next;
    var n, together := Next(calls, parallel, p, OpenGroup), Min(32, GroupEnd(calls, parallel, p.hi) - p.hi);
    OpensGroup(calls, parallel, p);
    StepConsistent(calls, parallel, p, OpenGroup);
    BeginAll(calls, parallel, n, together);
    var events := [OpenGroup] + Takes(together);
    assert events[1..] == Takes(together);
    BegunNext(Run(calls, parallel, n, Takes(together)), together);
  }

  /* ---------- progress ---------- */

  function Left(status: Status): nat {
    match status
    case Waiting => 3
    case Held => 2
    case Running => 1
    case Done(_) => 0
  }

  function LeftOver(status: seq<Status>): nat {
    if status == [] then 0 else Left(status[0]) + LeftOver(status[1..])
  }

  /** Bounds the steps a batch can still take. */
  function Work(p: Pool): nat {
    LeftOver(p.status) + 2 * Max(0, |p.status| - p.hi) + (if p.workers == [] then 0 else 1) + (if p.cancelled then 0 else 1)
  }

  function Max(a: int, b: int): int { if a < b then b else a }

  lemma {:induction false} LeftOverUpdate(status: seq<Status>, i: nat, s: Status)
    requires i < |status|
    ensures LeftOver(status[i := s]) == LeftOver(status) - Left(status[i]) + Left(s)
  {
    if i == 0 {
      assert status[i := s][1..] == status[1..];
    } else {
      assert status[i := s][1..] == status[1..][i - 1 := s];
      LeftOverUpdate(status[1..], i - 1, s);
    }
  }

  lemma {:induction false} LeftOverLess(a: seq<Status>, b: seq<Status>)
    requires |a| == |b| && forall i :: 0 <= i < |a| ==> Left(a[i]) <= Left(b[i])
    ensures LeftOver(a) <= LeftOver(b)
    ensures a != b && (forall i :: 0 <= i < |a| && a[i] != b[i] ==> Left(a[i]) < Left(b[i])) ==> LeftOver(a) < LeftOver(b)
  {
    if a != [] {
      LeftOverLess(a[1..], b[1..]);
      assert a == [a[0]] + a[1..] && b == [b[0]] + b[1..];
    }
  }

  lemma StopWorks(calls: seq<Call>, parallel: bool, p: Pool)
    requires Consistent(calls, parallel, p)
    ensures p.next == p.hi ==> Next(calls, parallel, p, StopDispatch) == p
    ensures p.next < p.hi && p.cancelled && p.workers != [] ==> LeftOver(Next(calls, parallel, p, StopDispatch).status) < LeftOver(p.status)
  {
    hide Reachable, GroupEnd, AllRan, AnyFailed, LeftOver;
    var skipped := Skipped(p.status, p.next, p.hi);
    if p.next == p.hi {
      assert skipped == p.status;
    } else if !p.halted {
      assert p.status[p.next] != skipped[p.next];
      LeftOverLess(skipped, p.status);
    }
  }

  lemma CloseWorks(calls: seq<Call>, parallel: bool, p: Pool)
    requires Consistent(calls, parallel, p)
    ensures LeftOver(Next(calls, parallel, p, CloseGroup).status) <= LeftOver(p.status)
  {
    hide Reachable, GroupEnd, AllRan, AnyFailed, LeftOver;
    LeftOverLess(Skipped(p.status, p.hi, |p.status|), p.status);
  }

  lemma CallWorks(calls: seq<Call>, parallel: bool, p: Pool, e: Event)
    requires Consistent(calls, parallel, p) && Next(calls, parallel, p, e) != p
    requires e.Hand? || e.Skip? || e.Begin? || e.End?
    ensures LeftOver(Next(calls, parallel, p, e).status) < LeftOver(p.status)
  {
    hide Reachable, GroupEnd, AllRan, AnyFailed, LeftOver;
    match e
    case Hand(w) => LeftOverUpdate(p.status, p.next, Held);
    case Skip(w) => LeftOverUpdate(p.status, p.workers[w].value, Done(NotExecuted));
    case Begin(w) => LeftOverUpdate(p.status, p.workers[w].value, Running);
    case End(w, outcome) => LeftOverUpdate(p.status, p.workers[w].value, Done(outcome));
  }

  /** Whatever happens brings the end of the batch closer. */
  lemma StepWorks(calls: seq<Call>, parallel: bool, p: Pool, e: Event)
    requires Consistent(calls, parallel, p) && Next(calls, parallel, p, e) != p
    ensures Work(Next(calls, parallel, p, e)) < Work(p)
  {
    hide Reachable, GroupEnd, AllRan, AnyFailed, LeftOver, Idle;
    match e
    case StopDispatch => StopWorks(calls, parallel, p);
    case CloseGroup => CloseWorks(calls, parallel, p);
    case OpenGroup =>
    case CancelContext =>
    case _ => CallWorks(calls, parallel, p, e);
  }

  /** Until the batch is over, some step can be taken that needs no cancellation. */
  lemma NeverStuck(calls: seq<Call>, parallel: bool, p: Pool) returns (e: Event)
    requires Consistent(calls, parallel, p) && !Over(p)
    ensures Next(calls, parallel, p, e) != p && !e.CancelContext? && !e.StopDispatch? && !e.Skip?
  {
    hide Reachable, GroupEnd, AllRan, AnyFailed;
    if p.workers == [] {
      e := OpenGroup;
      assert |Next(calls, parallel, p, e).workers| > 0;
    } else if w: nat :| w < |p.workers| && p.workers[w].Some? {
      e := if Has(p, w, Held) then Begin(w) else End(w, Failed);
      assert Next(calls, parallel, p, e).status[p.workers[w].value] != p.status[p.workers[w].value];
    } else if p.next < p.hi {
      e := Hand(0);
      assert Next(calls, parallel, p, e).workers[0] != p.workers[0];
    } else {
      e := CloseGroup;
      assert Next(calls, parallel, p, e).workers == [];
    }
  }

  /** Every event of the run changes something. */
  predicate Effective(calls: seq<Call>, parallel: bool, p: Pool, events: seq<Event>)
    requires Consistent(calls, parallel, p)
    decreases |events|
  {
    events != [] ==>
      && Next(calls, parallel, p, events[0]) != p
      && (StepConsistent(calls, parallel, p, events[0]);
          Effective(calls, parallel, Next(calls, parallel, p, events[0]), events[1..]))
  }

  lemma {:induction false} EffectiveBound(calls: seq<Call>, parallel: bool, p: Pool, events: seq<Event>)
    requires Consistent(calls, parallel, p) && Effective(calls, parallel, p, events)
    ensures |events| + Work(Run(calls, parallel, p, events)) <= Work(p)
    decreases |events|
  {
    hide Next, Work, Reachable, GroupEnd, AllRan, AnyFailed;
    if events != [] {
      StepConsistent(calls, parallel, p, events[0]);
      StepWorks(calls, parallel, p, events[0]);
      EffectiveBound(calls, parallel, Next(calls, parallel, p, events[0]), events[1..]);
    }
  }

  lemma {:induction false} AllLeft(status: seq<Status>)
    requires forall i :: 0 <= i < |status| ==> status[i].Waiting?
    ensures LeftOver(status) == 3 * |status|
  {
    if status != [] {
      AllLeft(status[1..]);
    }
  }

  /** Every interleaving ends: after at most five steps a call and one cancellation nothing
      can happen any more, and where nothing can happen the batch is over. */
  lemma BatchEnds(calls: seq<Call>, parallel: bool, events: seq<Event>)
    requires Effective(calls, parallel, NewPool(calls, parallel), events)
    ensures |events| <= 5 * |calls| + 1
    ensures var p := Run(calls, parallel, NewPool(calls, parallel), events);
      (forall e: Event | e.OpenGroup? || e.Hand? || e.Begin? || e.End? || e.CloseGroup? :: Next(calls, parallel, p, e) == p) ==> Over(p)
  {
    hide Run, Next, Over, Consistent, Effective, LeftOver;
    var start := NewPool(calls, parallel);
    AllLeft(start.status);
    EffectiveBound(calls, parallel, start, events);
    var p := Run(calls, parallel, start, events);
    if !Over(p) {
      var e := NeverStuck(calls, parallel, p);
      assert e.OpenGroup? || e.Hand? || e.Begin? || e.End? || e.CloseGroup?;
    }
  }

  /* ---------- the report ---------- */

  /** A result or a failure, with the position of the call it belongs to. */
  datatype Success = Success(index: nat, output: Output)
  datatype Failure = Failure(index: nat, callId: string, executed: bool)

  datatype Report = Report(successes: seq<Success>, failures: seq<Failure>)

  /** Names the call in an output that left its fields blank. */
  function Named(call: Call, output: Output): Output {
    Output(if output.callId == "" then call.id else output.callId, if output.name == "" then call.name else output.name, output.content)
  }

  function FailureOf(calls: seq<Call>, i: nat, outcome: Outcome): Failure
    requires i < |calls|
  {
    Failure(i, calls[i].id, outcome.Failed?)
  }

  /** The report of the calls from `lo` to `hi`, each in its place. */
  function ReportOf(calls: seq<Call>, outcomes: seq<Outcome>, named: bool, lo: nat, hi: nat): Report
    requires |outcomes| == |calls| && lo <= hi <= |calls|
    decreases hi - lo
  {
    if lo == hi then Report([], [])
    else
      var before, i := ReportOf(calls, outcomes, named, lo, hi - 1), hi - 1;
      match outcomes[i]
      case Ran(output) => before.(successes := before.successes + [Success(i, if named then Named(calls[i], output) else output)])
      case _ => before.(failures := before.failures + [FailureOf(calls, i, outcomes[i])])
  }

  function Append(a: Report, b: Report): Report {
    Report(a.successes + b.successes, a.failures + b.failures)
  }

  predicate GroupFails(outcomes: seq<Outcome>, lo: nat, hi: nat)
    requires lo <= hi <= |outcomes|
  {
    exists i :: lo <= i < hi && !outcomes[i].Ran?
  }

  /** The calls behind a failed group are never executed. */
  function Unexecuted(calls: seq<Call>, lo: nat): (failures: seq<Failure>)
    requires lo <= |calls|
    ensures |failures| == |calls| - lo
    ensures forall k :: 0 <= k < |failures| ==> failures[k] == Failure(lo + k, calls[lo + k].id, false)
  {
    seq(|calls| - lo, k requires 0 <= k < |calls| - lo => Failure(lo + k, calls[lo + k].id, false))
  }

  /** Group after group until one fails; outputs are named only in a failed parallel group. */
  function BatchReport(calls: seq<Call>, outcomes: seq<Outcome>, parallel: bool, start: nat): Report
    requires |outcomes| == |calls| && start <= |calls|
    decreases |calls| - start
  {
    if start == |calls| then Report([], [])
    else
      var end := GroupEnd(calls, parallel, start);
      if GroupFails(outcomes, start, end)
      then Append(ReportOf(calls, outcomes, true, start, end), Report([], Unexecuted(calls, end)))
      else Append(ReportOf(calls, outcomes, false, start, end), BatchReport(calls, outcomes, parallel, end))
  }

  predicate Ascending(indices: seq<nat>) {
    forall i, j :: 0 <= i < j < |indices| ==> indices[i] < indices[j]
  }

  function SuccessIndices(r: Report): (s: seq<nat>)
    ensures |s| == |r.successes| && forall k :: 0 <= k < |s| ==> s[k] == r.successes[k].index
  {
    seq(|r.successes|, k requires 0 <= k < |r.successes| => r.successes[k].index)
  }

  function FailureIndices(r: Report): (s: seq<nat>)
    ensures |s| == |r.failures| && forall k :: 0 <= k < |s| ==> s[k] == r.failures[k].index
  {
    seq(|r.failures|, k requires 0 <= k < |r.failures| => r.failures[k].index)
  }

  /** Each call from `lo` to `hi` is in one of the two lists, once, and both are in call order. */
  predicate Partitions(r: Report, lo: nat, hi: nat) {
    && Ascending(SuccessIndices(r)) && Ascending(FailureIndices(r))
    && (forall i :: i in SuccessIndices(r) ==> lo <= i < hi)
    && (forall i :: i in FailureIndices(r) ==> lo <= i < hi)
    && (forall i :: lo <= i < hi ==> (i in SuccessIndices(r) <==> i !in FailureIndices(r)))
  }

  lemma AppendPartitions(a: Report, b: Report, lo: nat, mid: nat, hi: nat)
    requires lo <= mid <= hi && Partitions(a, lo, mid) && Partitions(b, mid, hi)
    ensures Partitions(Append(a, b), lo, hi)
  {
    var r := Append(a, b);
    assert SuccessIndices(r) == SuccessIndices(a) + SuccessIndices(b);
    assert FailureIndices(r) == FailureIndices(a) + FailureIndices(b);
    AscendingConcat(SuccessIndices(a), SuccessIndices(b), mid);
    AscendingConcat(FailureIndices(a), FailureIndices(b), mid);
    hide Append;
    forall i: nat
      ensures i in SuccessIndices(r) <==> i in SuccessIndices(a) || i in SuccessIndices(b)
      ensures i in FailureIndices(r) <==> i in FailureIndices(a) || i in FailureIndices(b)
    {
    }
  }

  lemma AscendingConcat(a: seq<nat>, b: seq<nat>, mid: nat)
    requires Ascending(a) && Ascending(b) && (forall i :: i in a ==> i < mid) && (forall i :: i in b ==> mid <= i)
    ensures Ascending(a + b)
  {
    forall i, j | 0 <= i < j < |a + b| ensures (a + b)[i] < (a + b)[j] {
      if i < |a| <= j {
        assert a[i] in a && b[j - |a|] in b;
      }
    }
  }

  function OneReport(calls: seq<Call>, outcomes: seq<Outcome>, named: bool, i: nat): Report
    requires |outcomes| == |calls| && i < |calls|
  {
    match outcomes[i]
    case Ran(output) => Report([Success(i, if named then Named(calls[i], output) else output)], [])
    case _ => Report([], [FailureOf(calls, i, outcomes[i])])
  }

  lemma OnePartitions(calls: seq<Call>, outcomes: seq<Outcome>, named: bool, i: nat)
    requires |outcomes| == |calls| && i < |calls|
    ensures Partitions(OneReport(calls, outcomes, named, i), i, i + 1)
  {
    var r := OneReport(calls, outcomes, named, i);
    assert outcomes[i].Ran? ==> SuccessIndices(r) == [i];
    assert !outcomes[i].Ran? ==> FailureIndices(r) == [i];
  }

  lemma {:induction false} GroupPartitions(calls: seq<Call>, outcomes: seq<Outcome>, named: bool, lo: nat, hi: nat)
    requires |outcomes| == |calls| && lo <= hi <= |calls|
    ensures Partitions(ReportOf(calls, outcomes, named, lo, hi), lo, hi)
    decreases hi - lo
  {
    hide Partitions;
    if lo < hi {
      GroupPartitions(calls, outcomes, named, lo, hi - 1);
      OnePartitions(calls, outcomes, named, hi - 1);
      AppendPartitions(ReportOf(calls, outcomes, named, lo, hi - 1), OneReport(calls, outcomes, named, hi - 1), lo, hi - 1, hi);
      assert ReportOf(calls, outcomes, named, lo, hi)
        == Append(ReportOf(calls, outcomes, named, lo, hi - 1), OneReport(calls, outcomes, named, hi - 1));
    } else {
      NothingReported(lo);
    }
  }

  lemma UnexecutedPartition(calls: seq<Call>, lo: nat)
    requires lo <= |calls|
    ensures Partitions(Report([], Unexecuted(calls, lo)), lo, |calls|)
  {
    var r := Report([], Unexecuted(calls, lo));
    assert FailureIndices(r) == seq(|calls| - lo, k => lo + k);
    forall i | lo <= i < |calls| ensures i in FailureIndices(r) {
      assert FailureIndices(r)[i - lo] == i;
    }
  }

  /** Every call of the batch is reported exactly once: as a result or as a failure. */
  lemma {:induction false} BatchPartitions(calls: seq<Call>, outcomes: seq<Outcome>, parallel: bool, start: nat)
    requires |outcomes| == |calls| && start <= |calls|
    ensures Partitions(BatchReport(calls, outcomes, parallel, start), start, |calls|)
    decreases |calls| - start
  {
    hide Partitions;
    if start < |calls| {
      var end := GroupEnd(calls, parallel, start);
      if GroupFails(outcomes, start, end) {
        GroupPartitions(calls, outcomes, true, start, end);
        UnexecutedPartition(calls, end);
        AppendPartitions(ReportOf(calls, outcomes, true, start, end), Report([], Unexecuted(calls, end)), start, end, |calls|);
      } else {
        GroupPartitions(calls, outcomes, false, start, end);
        BatchPartitions(calls, outcomes, parallel, end);
        AppendPartitions(ReportOf(calls, outcomes, false, start, end), BatchReport(calls, outcomes, parallel, end), start, end, |calls|);
      }
    } else {
      NothingReported(start);
    }
  }

  lemma NothingReported(start: nat)
    ensures Partitions(Report([], []), start, start)
  {
  }

  /* ---------- the report of every interleaving ---------- */

  predicate Over(p: Pool) {
    p.workers == [] && (p.halted || p.hi == |p.status|)
  }

  function Outcomes(p: Pool): (outcomes: seq<Outcome>)
    requires forall i :: 0 <= i < |p.status| ==> p.status[i].Done?
    ensures |outcomes| == |p.status| && forall i :: 0 <= i < |outcomes| ==> p.status[i] == Done(outcomes[i])
  {
    seq(|p.status|, i requires 0 <= i < |p.status| => p.status[i].outcome)
  }

  lemma {:induction false} ReportConcat(calls: seq<Call>, outcomes: seq<Outcome>, named: bool, lo: nat, mid: nat, hi: nat)
    requires |outcomes| == |calls| && lo <= mid <= hi <= |calls|
    ensures ReportOf(calls, outcomes, named, lo, hi) == Append(ReportOf(calls, outcomes, named, lo, mid), ReportOf(calls, outcomes, named, mid, hi))
    decreases hi - mid
  {
    if mid < hi {
      ReportConcat(calls, outcomes, named, lo, mid, hi - 1);
    }
  }

  /** Naming the outputs changes neither the failures nor whose results there are. */
  lemma {:induction false} NamingKeeps(calls: seq<Call>, outcomes: seq<Outcome>, lo: nat, hi: nat)
    requires |outcomes| == |calls| && lo <= hi <= |calls|
    ensures var a, b := ReportOf(calls, outcomes, true, lo, hi), ReportOf(calls, outcomes, false, lo, hi);
      a.failures == b.failures && SuccessIndices(a) == SuccessIndices(b)
    decreases hi - lo
  {
    if lo < hi {
      NamingKeeps(calls, outcomes, lo, hi - 1);
    }
  }

  lemma {:induction false} UnexecutedReport(calls: seq<Call>, outcomes: seq<Outcome>, named: bool, lo: nat, hi: nat)
    requires |outcomes| == |calls| && lo <= hi <= |calls| && forall i :: lo <= i < hi ==> outcomes[i] == NotExecuted
    ensures ReportOf(calls, outcomes, named, lo, hi) == Report([], Unexecuted(calls, lo)[..hi - lo])
    decreases hi - lo
  {
    if lo < hi {
      UnexecutedReport(calls, outcomes, named, lo, hi - 1);
      assert Unexecuted(calls, lo)[..hi - lo] == Unexecuted(calls, lo)[..hi - 1 - lo] + [Failure(hi - 1, calls[hi - 1].id, false)];
    }
  }

  /** The two reports name the same calls as failed, for the same reasons, and as run. */
  predicate SameReport(a: Report, b: Report) {
    a.failures == b.failures && SuccessIndices(a) == SuccessIndices(b)
  }

  lemma SameAppend(a: Report, a': Report, b: Report, b': Report)
    requires SameReport(a, a') && SameReport(b, b')
    ensures SameReport(Append(a, b), Append(a', b'))
  {
    assert SuccessIndices(Append(a, b)) == SuccessIndices(a) + SuccessIndices(b);
    assert SuccessIndices(Append(a', b')) == SuccessIndices(a') + SuccessIndices(b');
  }

  lemma {:induction false} GroupsReport(calls: seq<Call>, outcomes: seq<Outcome>, parallel: bool, start: nat, lo: nat, hi: nat)
    requires |outcomes| == |calls| && start <= lo <= hi <= |calls| && Reachable(calls, parallel, start, lo)
    requires forall i :: start <= i < lo ==> outcomes[i].Ran?
    requires if lo == hi then lo == |calls| else hi == GroupEnd(calls, parallel, lo)
    requires lo < hi && GroupFails(outcomes, lo, hi) ==> forall i :: hi <= i < |calls| ==> outcomes[i] == NotExecuted
    requires lo < hi && !GroupFails(outcomes, lo, hi) ==> hi == |calls|
    ensures SameReport(BatchReport(calls, outcomes, parallel, start), ReportOf(calls, outcomes, false, start, |calls|))
    decreases |calls| - start
  {
    hide GroupEnd, SameReport, ReportOf, Append;
    if start < |calls| {
      var end := GroupEnd(calls, parallel, start);
      ReportConcat(calls, outcomes, false, start, end, |calls|);
      NamingKeepsReport(calls, outcomes, start, end);
      if start < lo {
        ReachableWithin(calls, parallel, end, lo);
        GroupsReport(calls, outcomes, parallel, end, lo, hi);
        SameAppend(ReportOf(calls, outcomes, false, start, end), ReportOf(calls, outcomes, false, start, end),
          BatchReport(calls, outcomes, parallel, end), ReportOf(calls, outcomes, false, end, |calls|));
      } else if GroupFails(outcomes, lo, hi) {
        UnexecutedReport(calls, outcomes, false, end, |calls|);
        assert Unexecuted(calls, end)[..|calls| - end] == Unexecuted(calls, end);
        SameAppend(ReportOf(calls, outcomes, true, start, end), ReportOf(calls, outcomes, false, start, end),
          Report([], Unexecuted(calls, end)), ReportOf(calls, outcomes, false, end, |calls|));
      } else {
        NothingLeft(calls, outcomes, parallel);
        SameAppend(ReportOf(calls, outcomes, false, start, end), ReportOf(calls, outcomes, false, start, end),
          BatchReport(calls, outcomes, parallel, end), ReportOf(calls, outcomes, false, end, |calls|));
      }
    } else {
      NothingLeft(calls, outcomes, parallel);
    }
  }

  lemma NothingLeft(calls: seq<Call>, outcomes: seq<Outcome>, parallel: bool)
    requires |outcomes| == |calls|
    ensures SameReport(BatchReport(calls, outcomes, parallel, |calls|), ReportOf(calls, outcomes, false, |calls|, |calls|))
    ensures BatchReport(calls, outcomes, parallel, |calls|) == ReportOf(calls, outcomes, false, |calls|, |calls|)
  {
  }

  lemma NamingKeepsReport(calls: seq<Call>, outcomes: seq<Outcome>, lo: nat, hi: nat)
    requires |outcomes| == |calls| && lo <= hi <= |calls|
    ensures SameReport(ReportOf(calls, outcomes, true, lo, hi), ReportOf(calls, outcomes, false, lo, hi))
    ensures forall r: Report :: SameReport(r, r)
  {
    NamingKeeps(calls, outcomes, lo, hi);
  }

  lemma ReachableWithin(calls: seq<Call>, parallel: bool, start: nat, lo: nat)
    requires start <= |calls| && lo <= |calls| && Reachable(calls, parallel, start, lo)
    ensures start <= lo
  {
  }

  /* ---------- what the report says of each call ---------- */

  /** The output of a call as it is handed on; a blank field is filled in only where named. */
  predicate HandedOn(call: Call, output: Output, reported: Output, named: bool) {
    && reported.content == output.content
    && (output.callId != "" || !named ==> reported.callId == output.callId)
    && (output.name != "" || !named ==> reported.name == output.name)
    && (output.callId == "" && named ==> reported.callId == call.id)
    && (output.name == "" && named ==> reported.name == call.name)
  }

  predicate SuccessTells(calls: seq<Call>, outcomes: seq<Outcome>, s: Success, named: nat) {
    && s.index < |calls| && s.index < |outcomes| && outcomes[s.index].Ran?
    && HandedOn(calls[s.index], outcomes[s.index].output, s.output, named <= s.index)
  }

  predicate FailureTells(calls: seq<Call>, outcomes: seq<Outcome>, f: Failure) {
    && f.index < |calls| && f.index < |outcomes| && !outcomes[f.index].Ran?
    && f.callId == calls[f.index].id && (f.executed <==> outcomes[f.index].Failed?)
  }

  /** Each entry tells how its call ended; outputs are named from call `named` on. */
  predicate Tells(calls: seq<Call>, outcomes: seq<Outcome>, r: Report, named: nat) {
    && (forall k :: 0 <= k < |r.successes| ==> SuccessTells(calls, outcomes, r.successes[k], named))
    && (forall k :: 0 <= k < |r.failures| ==> FailureTells(calls, outcomes, r.failures[k]))
  }

  lemma TellsAppend(calls: seq<Call>, outcomes: seq<Outcome>, a: Report, b: Report, named: nat)
    requires Tells(calls, outcomes, a, named) && Tells(calls, outcomes, b, named)
    ensures Tells(calls, outcomes, Append(a, b), named)
  {
    hide SuccessTells, FailureTells;
  }

  lemma {:induction false} GroupTells(calls: seq<Call>, outcomes: seq<Outcome>, named: bool, lo: nat, hi: nat, start: nat)
    requires |outcomes| == |calls| && lo <= hi <= |calls|
    requires if named then start <= lo else hi <= start
    ensures Tells(calls, outcomes, ReportOf(calls, outcomes, named, lo, hi), start)
    decreases hi - lo
  {
    if lo < hi {
      GroupTells(calls, outcomes, named, lo, hi - 1, start);
    }
  }

  lemma {:induction false} BatchTells(calls: seq<Call>, outcomes: seq<Outcome>, parallel: bool, start: nat, lo: nat, hi: nat)
    requires |outcomes| == |calls| && start <= lo <= hi <= |calls| && Reachable(calls, parallel, start, lo)
    requires forall i :: start <= i < lo ==> outcomes[i].Ran?
    requires if lo == hi then lo == |calls| else hi == GroupEnd(calls, parallel, lo)
    requires lo < hi && GroupFails(outcomes, lo, hi) ==> forall i :: hi <= i < |calls| ==> outcomes[i] == NotExecuted
    requires lo < hi && !GroupFails(outcomes, lo, hi) ==> hi == |calls|
    ensures Tells(calls, outcomes, BatchReport(calls, outcomes, parallel, start), if GroupFails(outcomes, lo, hi) then lo else |calls|)
    decreases |calls| - start
  {
    hide GroupEnd, Tells, ReportOf, Append;
    var named := if GroupFails(outcomes, lo, hi) then lo else |calls|;
    if start < |calls| {
      var end := GroupEnd(calls, parallel, start);
      if start < lo {
        ReachableWithin(calls, parallel, end, lo);
        BatchTells(calls, outcomes, parallel, end, lo, hi);
        GroupTells(calls, outcomes, false, start, end, named);
        TellsAppend(calls, outcomes, ReportOf(calls, outcomes, false, start, end), BatchReport(calls, outcomes, parallel, end), named);
      } else if GroupFails(outcomes, lo, hi) {
        GroupTells(calls, outcomes, true, start, end, named);
        UnexecutedTells(calls, outcomes, end, named);
        TellsAppend(calls, outcomes, ReportOf(calls, outcomes, true, start, end), Report([], Unexecuted(calls, end)), named);
      } else {
        GroupTells(calls, outcomes, false, start, end, named);
        NothingTold(calls, outcomes, parallel, named);
        TellsAppend(calls, outcomes, ReportOf(calls, outcomes, false, start, end), BatchReport(calls, outcomes, parallel, end), named);
      }
    } else {
      NothingTold(calls, outcomes, parallel, named);
    }
  }

  lemma UnexecutedTells(calls: seq<Call>, outcomes: seq<Outcome>, lo: nat, named: nat)
    requires |outcomes| == |calls| && lo <= |calls| && forall i :: lo <= i < |calls| ==> outcomes[i] == NotExecuted
    ensures Tells(calls, outcomes, Report([], Unexecuted(calls, lo)), named)
  {
  }

  lemma NothingTold(calls: seq<Call>, outcomes: seq<Outcome>, parallel: bool, named: nat)
    requires |outcomes| == |calls|
    ensures Tells(calls, outcomes, BatchReport(calls, outcomes, parallel, |calls|), named)
  {
  }

  /** A result hands on what its call ended with; a blank call ID or name is filled in exactly
      where the group at work when the batch stopped is reported. A failure names its call
      and tells whether it was executed. */
  predicate ReportsPool(calls: seq<Call>, p: Pool, r: Report) {
    && (forall k :: 0 <= k < |r.successes| ==>
          var i, reported := r.successes[k].index, r.successes[k].output;
          && i < |calls| && i < |p.status| && p.status[i].Done? && p.status[i].outcome.Ran?
          && HandedOn(calls[i], p.status[i].outcome.output, reported, p.halted && p.lo <= i))
    && (forall k :: 0 <= k < |r.failures| ==>
          var i := r.failures[k].index;
          && i < |calls| && i < |p.status| && p.status[i].Done? && !p.status[i].outcome.Ran?
          && r.failures[k].callId == calls[i].id
          && (r.failures[k].executed <==> p.status[i] == Done(Failed)))
  }

  /** However the workers interleave, a finished batch reports every call once: those that
      ran with their results, in call order, and all others as failures, those behind the
      failed group as never executed. */
  lemma EveryInterleavingReports(calls: seq<Call>, parallel: bool, events: seq<Event>)
    requires Over(Run(calls, parallel, NewPool(calls, parallel), events))
    ensures var p := Run(calls, parallel, NewPool(calls, parallel), events);
      && (forall i :: 0 <= i < |p.status| ==> p.status[i].Done?)
      && var report := BatchReport(calls, Outcomes(p), parallel, 0);
      && SameReport(report, ReportOf(calls, Outcomes(p), false, 0, |calls|)) && Partitions(report, 0, |calls|)
      && ReportsPool(calls, p, report)
  {
    hide Run, GroupEnd, ReportOf, BatchReport, SameReport, Partitions, Reachable, ReportsPool;
    var p := Run(calls, parallel, NewPool(calls, parallel), events);
    OverIsDone(calls, parallel, p);
    var outcomes := Outcomes(p);
    GroupsReport(calls, outcomes, parallel, 0, p.lo, p.hi);
    BatchPartitions(calls, outcomes, parallel, 0);
    BatchTells(calls, outcomes, parallel, 0, p.lo, p.hi);
    PoolTold(calls, parallel, p, BatchReport(calls, outcomes, parallel, 0));
  }

  lemma PoolTold(calls: seq<Call>, parallel: bool, p: Pool, r: Report)
    requires Consistent(calls, parallel, p) && Over(p) && forall i :: 0 <= i < |p.status| ==> p.status[i].Done?
    requires Tells(calls, Outcomes(p), r, if GroupFails(Outcomes(p), p.lo, p.hi) then p.lo else |calls|)
    ensures ReportsPool(calls, p, r)
  {
    hide Reachable, GroupEnd, HandedOn;
  }

  lemma OverIsDone(calls: seq<Call>, parallel: bool, p: Pool)
    requires Consistent(calls, parallel, p) && Over(p)
    ensures forall i :: 0 <= i < |p.status| ==> p.status[i].Done?
    ensures AnyFailed(p.status, p.lo, p.hi) ==> p.halted && forall i :: p.hi <= i < |calls| ==> p.status[i] == Done(NotExecuted)
    ensures !AnyFailed(p.status, p.lo, p.hi) ==> p.hi == |calls|
  {
  }

  /* ---------- the procedures ---------- */

  method ParallelRunEnd(calls: seq<Call>, start: nat) returns (end: nat)
    requires start <= |calls|
    ensures end == ParallelEnd(calls, start)
  {
    end := start;
    while end < |calls| && !calls[end].sequential
      invariant start <= end <= |calls| && ParallelEnd(calls, start) == ParallelEnd(calls, end)
    {
      end := end + 1;
    }
  }

  /** What a parallel group returns once its workers are done. */
  method CollectGroup(calls: seq<Call>, outcomes: seq<Outcome>, lo: nat, hi: nat) returns (report: Report)
    requires |outcomes| == |calls| && lo <= hi <= |calls|
    ensures report == ReportOf(calls, outcomes, GroupFails(outcomes, lo, hi), lo, hi)
  {
    var failures: seq<Failure>, succeeded: seq<Success>, raw: seq<Success> := [], [], [];
    for index := lo to hi
      invariant Report(succeeded, failures) == ReportOf(calls, outcomes, true, lo, index)
      invariant Report(raw, failures) == ReportOf(calls, outcomes, false, lo, index)
      invariant failures != [] <==> GroupFails(outcomes, lo, index)
    {
      match outcomes[index] {
        case Ran(output) =>
          succeeded := succeeded + [Success(index, Named(calls[index], output))];
          raw := raw + [Success(index, output)];
        case _ =>
          failures := failures + [FailureOf(calls, index, outcomes[index])];
      }
    }
    report := if |failures| > 0 then Report(succeeded, failures) else Report(raw, []);
  }

  method BatchStopped(calls: seq<Call>, report: Report, end: nat) returns (stopped: Report)
    requires end <= |calls|
    ensures stopped == Append(report, Report([], Unexecuted(calls, end)))
  {
    var failures := report.failures;
    for k := end to |calls|
      invariant failures == report.failures + Unexecuted(calls, end)[..k - end]
    {
      failures := failures + [Failure(k, calls[k].id, false)];
    }
    assert Unexecuted(calls, end)[..|calls| - end] == Unexecuted(calls, end);
    stopped := Report(report.successes, failures);
  }

  /** `outcomes` is how each call ended, or would have, had it been executed. */
  method ExecuteBatch(calls: seq<Call>, outcomes: seq<Outcome>, parallel: bool) returns (report: Option<Report>)
    requires |outcomes| == |calls|
    ensures report == if |calls| > MAX_CALLS then None else Some(BatchReport(calls, outcomes, parallel, 0))
  {
    hide ReportOf;
    if |calls| > MAX_CALLS {
      return None;
    }
    var results := Report([], []);
    var start := 0;
    while start < |calls|
      invariant start <= |calls| && results.failures == []
      invariant BatchReport(calls, outcomes, parallel, 0) == Append(results, BatchReport(calls, outcomes, parallel, start))
    {
      var end := start;
      if parallel {
        end := ParallelRunEnd(calls, start);
      }
      if end == start {
        end := start + 1;
      }
      var group := CollectGroup(calls, outcomes, start, end);
      NoFailures(calls, outcomes, start, end);
      AppendAssociates(results, group, BatchReport(calls, outcomes, parallel, end));
      AppendAssociates(results, group, Report([], Unexecuted(calls, end)));
      results := Append(results, group);
      if group.failures != [] {
        results := BatchStopped(calls, results, end);
        return Some(results);
      }
      start := end;
    }
    assert results.successes + [] == results.successes;
    report := Some(results);
  }

  lemma {:induction false} NoFailures(calls: seq<Call>, outcomes: seq<Outcome>, lo: nat, hi: nat)
    requires |outcomes| == |calls| && lo <= hi <= |calls|
    ensures forall named :: ReportOf(calls, outcomes, named, lo, hi).failures != [] <==> GroupFails(outcomes, lo, hi)
    decreases hi - lo
  {
    if lo < hi {
      NoFailures(calls, outcomes, lo, hi - 1);
    }
  }

  lemma AppendAssociates(a: Report, b: Report, c: Report)
    ensures Append(Append(a, b), c) == Append(a, Append(b, c))
  {
  }
}
