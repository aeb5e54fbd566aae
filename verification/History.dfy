/**
 Complete tool turns: which histories are valid, where they may be cut, and what
 a validator that accepts one guarantees.
 */
module History {
  import opened Wrappers
  import opened Messages

  /* ---------- matching the results of one tool turn with its calls ---------- */

  /** No two calls share a non-empty ID. */
  predicate DistinctIds(calls: seq<ToolCall>) {
    forall i, j :: 0 <= i < j < |calls| && calls[i].id != "" ==> calls[i].id != calls[j].id
  }

  predicate Names(calls: seq<ToolCall>, id: string) {
    exists i :: 0 <= i < |calls| && calls[i].id == id
  }

  /** A result may answer the call it names; a result naming no known call may stand in
      for a call without an ID; a result naming nothing may answer any call. */
  predicate Compatible(calls: seq<ToolCall>, id: string, k: nat)
    requires k < |calls|
  {
    id == "" || calls[k].id == id || (calls[k].id == "" && !Names(calls, id))
  }

  /** The first unmatched call from `from` on that satisfies `want`, by position. */
  function FirstOpen(calls: seq<ToolCall>, matched: seq<bool>, anyId: bool, from: nat): (r: Option<nat>)
    requires |matched| == |calls| && from <= |calls|
    ensures r.Some? ==> from <= r.value < |calls| && !matched[r.value] && (anyId || calls[r.value].id == "")
    ensures forall k :: from <= k < (if r.Some? then r.value else |calls|) ==> matched[k] || !(anyId || calls[k].id == "")
    decreases |calls| - from
  {
    if from == |calls| then None
    else if !matched[from] && (anyId || calls[from].id == "") then Some(from)
    else FirstOpen(calls, matched, anyId, from + 1)
  }

  function IndexOf(calls: seq<ToolCall>, id: string): (k: nat)
    requires Names(calls, id)
    ensures k < |calls| && calls[k].id == id
    ensures forall i :: 0 <= i < k ==> calls[i].id != id
  {
    if calls[0].id == id then 0 else
      assert Names(calls[1..], id) by {
        var i :| 0 <= i < |calls| && calls[i].id == id;
        assert calls[1..][i - 1].id == id;
      }
      1 + IndexOf(calls[1..], id)
  }

  function UnmatchedCall(calls: seq<ToolCall>, matched: seq<bool>, id: string): (r: Option<nat>)
    requires |matched| == |calls|
    ensures r.Some? ==> r.value < |calls| && !matched[r.value] && Compatible(calls, id, r.value)
  {
    if id != "" && Names(calls, id) then
      var k := IndexOf(calls, id);
      if matched[k] then None else Some(k)
    else FirstOpen(calls, matched, id == "", 0)
  }

  predicate ToolMessage(m: Message) {
    m.toolCalls == [] && m.role.Tool? && m.toolResult.Some?
  }

  function ResultId(m: Message): string
    requires ToolMessage(m)
  {
    m.toolResult.value.callId
  }

  /** The call each result is assigned to, taking results in order; None when one fits nowhere. */
  function Assignment(calls: seq<ToolCall>, matched: seq<bool>, results: seq<Message>): (r: Option<seq<nat>>)
    requires |matched| == |calls|
    ensures r.Some? ==> |r.value| == |results|
    decreases |results|
  {
    if results == [] then Some([])
    else if !ToolMessage(results[0]) then None
    else
      var k := UnmatchedCall(calls, matched, ResultId(results[0]));
      if k.None? then None
      else
        var rest := Assignment(calls, matched[k.value := true], results[1..]);
        if rest.None? then None else Some([k.value] + rest.value)
  }

  function Fresh(n: nat): (s: seq<bool>)
    ensures |s| == n && forall i :: 0 <= i < n ==> !s[i]
  {
    seq(n, _ => false)
  }

  predicate Answers(calls: seq<ToolCall>, results: seq<Message>) {
    |results| == |calls| && Assignment(calls, Fresh(|calls|), results).Some?
  }

  /* ---------- histories as sequences of groups ---------- */

  /** One message that is not a tool result, or one tool-call message with its results. */
  predicate ValidGroup(g: seq<Message>) {
    && g != []
    && |g| == 1 + |g[0].toolCalls|
    && !g[0].role.Tool?
    && g[0].toolResult.None?
    && (g[0].toolCalls != [] ==> g[0].role.Assistant? && DistinctIds(g[0].toolCalls) && Answers(g[0].toolCalls, g[1..]))
  }

  function Min(a: int, b: int): int { if a < b then a else b }

  /** The length of the group that starts the history. */
  function Width(ms: seq<Message>): (n: nat)
    requires ms != []
    ensures 1 <= n <= |ms|
  {
    Min(1 + |ms[0].toolCalls|, |ms|)
  }

  /** The group that starts at position `o`. */
  function GroupAt(view: seq<Message>, o: nat): (g: seq<Message>)
    requires o < |view|
    ensures 1 <= |g| <= |view| - o
  {
    view[o..o + Width(view[o..])]
  }

  function Groups(ms: seq<Message>): (gs: seq<seq<Message>>)
    ensures Flatten(gs) == ms
    ensures forall g | g in gs :: g != []
  {
    if ms == [] then [] else
      var n := Width(ms);
      assert ms == ms[..n] + ms[n..];
      [ms[..n]] + Groups(ms[n..])
  }

  function Flatten(gs: seq<seq<Message>>): seq<Message> {
    if gs == [] then [] else gs[0] + Flatten(gs[1..])
  }

  /** Every assistant tool-call message is immediately followed by one matching result per call. */
  predicate CompleteTurns(ms: seq<Message>) {
    ms == [] || (var n := Width(ms); ValidGroup(ms[..n]) && CompleteTurns(ms[n..]))
  }

  lemma {:induction false} CompleteIffGroupsValid(ms: seq<Message>)
    ensures CompleteTurns(ms) <==> forall g | g in Groups(ms) :: ValidGroup(g)
  {
    if ms != [] {
      CompleteIffGroupsValid(ms[Width(ms)..]);
    }
  }

  /** Any sequence of valid groups is a complete history with exactly those groups. */
  lemma {:induction false} GroupsOfFlatten(gs: seq<seq<Message>>)
    requires forall g | g in gs :: ValidGroup(g)
    ensures CompleteTurns(Flatten(gs)) && Groups(Flatten(gs)) == gs
  {
    if gs != [] {
      var ms := Flatten(gs);
      GroupsOfFlatten(gs[1..]);
      assert gs[0] in gs;
      assert Width(ms) == |gs[0]|;
      assert ms[..Width(ms)] == gs[0] && ms[Width(ms)..] == Flatten(gs[1..]);
      assert gs == [gs[0]] + gs[1..];
    }
  }

  lemma {:induction false} FlattenConcat(a: seq<seq<Message>>, b: seq<seq<Message>>)
    ensures Flatten(a + b) == Flatten(a) + Flatten(b)
  {
    if a == [] {
      assert a + b == b;
    } else {
      assert (a + b)[1..] == a[1..] + b;
      FlattenConcat(a[1..], b);
    }
  }

  /** Validity is closed under concatenation, and the groups are those of the parts. */
  lemma ConcatComplete(a: seq<Message>, b: seq<Message>)
    requires CompleteTurns(a) && CompleteTurns(b)
    ensures CompleteTurns(a + b) && Groups(a + b) == Groups(a) + Groups(b)
  {
    CompleteIffGroupsValid(a);
    CompleteIffGroupsValid(b);
    FlattenConcat(Groups(a), Groups(b));
    GroupsOfFlatten(Groups(a) + Groups(b));
  }

  lemma StaysComplete(a: seq<Message>, b: seq<Message>)
    requires CompleteTurns(a) && CompleteTurns(b)
    ensures CompleteTurns(a + b)
  {
    ConcatComplete(a, b);
  }

  /** Dropping whole groups, in whatever choice, keeps a history valid. */
  lemma SubsequenceComplete(ms: seq<Message>, kept: seq<seq<Message>>)
    requires CompleteTurns(ms)
    requires forall g | g in kept :: g in Groups(ms)
    ensures CompleteTurns(Flatten(kept)) && Groups(Flatten(kept)) == kept
  {
    CompleteIffGroupsValid(ms);
    GroupsOfFlatten(kept);
  }

  /* ---------- what acceptance of one tool turn guarantees ---------- */

  /** `pi` pairs every result with its own call, and every call with a result. */
  ghost predicate Bijection(pi: seq<nat>, n: nat) {
    && |pi| == n
    && (forall i :: 0 <= i < n ==> pi[i] < n)
    && (forall i, j :: 0 <= i < j < n ==> pi[i] != pi[j])
    && (forall k :: 0 <= k < n ==> k in pi)
  }

  ghost predicate Fits(calls: seq<ToolCall>, matched: seq<bool>, result: Message, k: nat)
    requires |matched| == |calls|
  {
    && k < |calls| && !matched[k]
    && ToolMessage(result) && Compatible(calls, ResultId(result), k)
  }

  lemma {:induction false} AssignmentFits(calls: seq<ToolCall>, matched: seq<bool>, results: seq<Message>)
    requires |matched| == |calls|
    requires Assignment(calls, matched, results).Some?
    ensures var pi := Assignment(calls, matched, results).value;
      && (forall i :: 0 <= i < |results| ==> Fits(calls, matched, results[i], pi[i]))
      && (forall i, j :: 0 <= i < j < |results| ==> pi[i] != pi[j])
    decreases |results|
  {
    if results != [] {
      var k := UnmatchedCall(calls, matched, ResultId(results[0])).value;
      AssignmentFits(calls, matched[k := true], results[1..]);
      var pi := Assignment(calls, matched, results).value;
      var rest := Assignment(calls, matched[k := true], results[1..]).value;
      assert pi == [k] + rest;
      forall i | 0 < i < |results| ensures pi[i] == rest[i - 1] && Fits(calls, matched, results[i], pi[i]) && pi[i] != k {
        assert Fits(calls, matched[k := true], results[1..][i - 1], rest[i - 1]);
      }
    }
  }

  function Below(n: nat): (s: set<nat>)
    ensures |s| == n && forall k: nat :: k in s <==> k < n
  {
    if n == 0 then {} else Below(n - 1) + {n - 1}
  }

  function Image(pi: seq<nat>): (s: set<nat>)
    requires forall i, j :: 0 <= i < j < |pi| ==> pi[i] != pi[j]
    ensures |s| == |pi| && forall k :: k in s ==> k in pi
  {
    if pi == [] then {} else
      var rest := pi[1..];
      assert pi[0] !in rest;
      Image(rest) + {pi[0]}
  }

  lemma InjectiveIsOnto(pi: seq<nat>)
    requires forall i :: 0 <= i < |pi| ==> pi[i] < |pi|
    requires forall i, j :: 0 <= i < j < |pi| ==> pi[i] != pi[j]
    ensures forall k :: 0 <= k < |pi| ==> k in pi
  {
    var hit, all := Image(pi), Below(|pi|);
    if k :| 0 <= k < |pi| && k !in pi {
      SubsetSize(hit, all - {k});
    }
  }

  lemma {:induction false} SubsetSize(a: set<nat>, b: set<nat>)
    requires a <= b
    ensures |a| <= |b|
  {
    if a != {} {
      var x :| x in a;
      SubsetSize(a - {x}, b - {x});
    }
  }

  /** Acceptance pairs results and calls one to one, each pair compatible. */
  lemma AcceptedTurnIsPaired(g: seq<Message>) returns (pi: seq<nat>)
    requires ValidGroup(g)
    ensures Bijection(pi, |g[0].toolCalls|)
    ensures forall i :: 0 <= i < |pi| ==>
      ToolMessage(g[1..][i]) && Compatible(g[0].toolCalls, ResultId(g[1..][i]), pi[i])
  {
    var calls, n := g[0].toolCalls, |g[0].toolCalls|;
    if n == 0 {
      return [];
    }
    AssignmentFits(calls, Fresh(n), g[1..]);
    pi := Assignment(calls, Fresh(n), g[1..]).value;
    InjectiveIsOnto(pi);
  }

  /* ---------- exactly when results taken in order are accepted ---------- */

  /** How many calls are open, among all or among those without an ID. */
  function OpenCalls(calls: seq<ToolCall>, matched: seq<bool>, anyId: bool): nat
    requires |matched| == |calls|
  {
    if calls == [] then 0
    else (if !matched[0] && (anyId || calls[0].id == "") then 1 else 0) + OpenCalls(calls[1..], matched[1..], anyId)
  }

  /** A result that names a call, and one that names something else. */
  predicate Direct(calls: seq<ToolCall>, result: Message) {
    ToolMessage(result) && ResultId(result) != "" && Names(calls, ResultId(result))
  }

  predicate Stranger(calls: seq<ToolCall>, result: Message) {
    ToolMessage(result) && ResultId(result) != "" && !Names(calls, ResultId(result))
  }

  function Strangers(calls: seq<ToolCall>, results: seq<Message>): nat {
    if results == [] then 0 else (if Stranger(calls, results[0]) then 1 else 0) + Strangers(calls, results[1..])
  }

  /** There are enough calls for the results: a different open call for each that names one,
      calls without an ID for those that name something else, and any for the others. */
  predicate Affords(calls: seq<ToolCall>, matched: seq<bool>, results: seq<Message>)
    requires |matched| == |calls|
  {
    && (forall i :: 0 <= i < |results| ==> ToolMessage(results[i]))
    && (forall i :: 0 <= i < |results| && Direct(calls, results[i]) ==> !matched[IndexOf(calls, ResultId(results[i]))])
    && (forall i, j :: 0 <= i < j < |results| && Direct(calls, results[i]) ==> ResultId(results[i]) != ResultId(results[j]))
    && Strangers(calls, results) <= OpenCalls(calls, matched, false)
    && |results| <= OpenCalls(calls, matched, true)
  }

  /** A later result can be answered by this open call only, or by it and others like it of
      which there are too few. */
  predicate Needed(calls: seq<ToolCall>, matched: seq<bool>, k: nat, later: seq<Message>)
    requires |matched| == |calls| && k < |calls|
  {
    if calls[k].id == "" then OpenCalls(calls, matched, false) <= Strangers(calls, later)
    else exists i :: 0 <= i < |later| && ToolMessage(later[i]) && ResultId(later[i]) == calls[k].id
  }

  /** Some nameless result takes a call that a later result needs. */
  predicate Steals(calls: seq<ToolCall>, matched: seq<bool>, results: seq<Message>)
    requires |matched| == |calls|
    decreases |results|
  {
    && results != [] && ToolMessage(results[0])
    && var k := UnmatchedCall(calls, matched, ResultId(results[0]));
    && k.Some?
    && (|| (ResultId(results[0]) == "" && Needed(calls, matched, k.value, results[1..]))
        || Steals(calls, matched[k.value := true], results[1..]))
  }

  lemma {:induction false} OpenCallsUpdate(calls: seq<ToolCall>, matched: seq<bool>, k: nat, anyId: bool)
    requires |matched| == |calls| && k < |calls| && !matched[k]
    ensures OpenCalls(calls, matched[k := true], anyId)
      == OpenCalls(calls, matched, anyId) - if anyId || calls[k].id == "" then 1 else 0
  {
    if k == 0 {
      assert matched[k := true][1..] == matched[1..];
    } else {
      assert matched[k := true][1..] == matched[1..][k - 1 := true];
      OpenCallsUpdate(calls[1..], matched[1..], k - 1, anyId);
    }
  }

  lemma {:induction false} NoneOpen(calls: seq<ToolCall>, matched: seq<bool>, anyId: bool)
    requires |matched| == |calls|
    requires forall k :: 0 <= k < |calls| ==> matched[k] || !(anyId || calls[k].id == "")
    ensures OpenCalls(calls, matched, anyId) == 0
  {
    if calls != [] {
      NoneOpen(calls[1..], matched[1..], anyId);
    }
  }

  lemma OwnIndex(calls: seq<ToolCall>, k: nat)
    requires DistinctIds(calls) && k < |calls| && calls[k].id != ""
    ensures Names(calls, calls[k].id) && IndexOf(calls, calls[k].id) == k
  {
    hide IndexOf;
  }

  /** What one result takes, and what it leaves for the others. */
  lemma TakenCall(calls: seq<ToolCall>, matched: seq<bool>, id: string)
    requires |matched| == |calls|
    ensures var k := UnmatchedCall(calls, matched, id);
      && (k.None? ==>
            if id != "" && Names(calls, id) then matched[IndexOf(calls, id)] else OpenCalls(calls, matched, id == "") == 0)
      && (k.Some? ==>
            && k.value < |calls| && !matched[k.value]
            && OpenCalls(calls, matched[k.value := true], true) == OpenCalls(calls, matched, true) - 1
            && OpenCalls(calls, matched[k.value := true], false)
               == OpenCalls(calls, matched, false) - (if calls[k.value].id == "" then 1 else 0)
            && (id != "" ==> calls[k.value].id == if Names(calls, id) then id else "")
            && (id != "" && Names(calls, id) ==> k.value == IndexOf(calls, id)))
  {
    hide IndexOf, OpenCalls, FirstOpen, Names;
    var k := UnmatchedCall(calls, matched, id);
    if k.Some? {
      OpenCallsUpdate(calls, matched, k.value, true);
      OpenCallsUpdate(calls, matched, k.value, false);
    } else if id == "" || !Names(calls, id) {
      NoneOpen(calls, matched, id == "");
    }
  }

  /** If all results can be afforded and the first takes nothing a later one needs, the
      others can be afforded too. */
  lemma AffordsRest(calls: seq<ToolCall>, matched: seq<bool>, results: seq<Message>)
    requires DistinctIds(calls) && |matched| == |calls| && results != []
    requires Affords(calls, matched, results) && !Steals(calls, matched, results)
    ensures var k := UnmatchedCall(calls, matched, ResultId(results[0]));
      && k.Some? && k.value < |calls|
      && Affords(calls, matched[k.value := true], results[1..]) && !Steals(calls, matched[k.value := true], results[1..])
  {
    hide IndexOf, OpenCalls, UnmatchedCall, Names;
    var id, later := ResultId(results[0]), results[1..];
    TakenCall(calls, matched, id);
    var k := UnmatchedCall(calls, matched, id).value;
    var after := matched[k := true];
    forall i | 0 <= i < |later| && Direct(calls, later[i]) ensures !after[IndexOf(calls, ResultId(later[i]))] {
      assert later[i] == results[i + 1] && Direct(calls, results[i + 1]);
      assert calls[IndexOf(calls, ResultId(later[i]))].id == ResultId(later[i]);
    }
    assert forall i :: 0 <= i < |later| ==> later[i] == results[i + 1];
  }

  lemma AffordsWhole(calls: seq<ToolCall>, matched: seq<bool>, results: seq<Message>, k: nat)
    requires DistinctIds(calls) && |matched| == |calls| && results != [] && ToolMessage(results[0])
    requires UnmatchedCall(calls, matched, ResultId(results[0])) == Some(k) && k < |calls|
    requires Affords(calls, matched[k := true], results[1..])
    ensures Affords(calls, matched, results)
    ensures ResultId(results[0]) == "" ==> !Needed(calls, matched, k, results[1..])
  {
    hide IndexOf, OpenCalls, UnmatchedCall, Names;
    var id, later, after := ResultId(results[0]), results[1..], matched[k := true];
    TakenCall(calls, matched, id);
    assert forall i :: 0 < i < |results| ==> results[i] == later[i - 1];
    if calls[k].id != "" {
      OwnIndex(calls, k);
      assert forall i :: 0 <= i < |later| && Direct(calls, later[i]) ==> ResultId(later[i]) != calls[k].id;
    }
  }

  /** Results taken in order are accepted if and only if there are calls enough for them and
      no nameless one takes what a later one needs. */
  lemma {:induction false} AcceptedIff(calls: seq<ToolCall>, matched: seq<bool>, results: seq<Message>)
    requires DistinctIds(calls) && |matched| == |calls|
    ensures Assignment(calls, matched, results).Some? <==> Affords(calls, matched, results) && !Steals(calls, matched, results)
    decreases |results|
  {
    hide UnmatchedCall, Needed, IndexOf, OpenCalls, DistinctIds;
    if results != [] && ToolMessage(results[0]) {
      var k := UnmatchedCall(calls, matched, ResultId(results[0]));
      if k.Some? {
        AcceptedIff(calls, matched[k.value := true], results[1..]);
        if Affords(calls, matched[k.value := true], results[1..]) {
          AffordsWhole(calls, matched, results, k.value);
        }
      }
      if Affords(calls, matched, results) && !Steals(calls, matched, results) {
        AffordsRest(calls, matched, results);
      }
    }
  }

  /** Results that can be paired with calls at all, in any order, can be afforded. */
  lemma {:induction false} PairedAffords(calls: seq<ToolCall>, matched: seq<bool>, results: seq<Message>, pi: seq<nat>)
    requires DistinctIds(calls) && |matched| == |calls| && |pi| == |results|
    requires forall i :: 0 <= i < |results| ==> Fits(calls, matched, results[i], pi[i])
    requires forall i, j :: 0 <= i < j < |pi| ==> pi[i] != pi[j]
    ensures Affords(calls, matched, results)
    decreases |results|
  {
    hide OpenCalls, IndexOf, DistinctIds, Names;
    if results != [] {
      var k, later := pi[0], results[1..];
      assert Fits(calls, matched, results[0], k);
      var after := matched[k := true];
      forall i | 0 <= i < |later| ensures Fits(calls, after, later[i], pi[1..][i]) {
        assert Fits(calls, matched, results[i + 1], pi[i + 1]);
      }
      PairedAffords(calls, after, later, pi[1..]);
      OpenCallsUpdate(calls, matched, k, true);
      OpenCallsUpdate(calls, matched, k, false);
      FitsOwn(calls, matched, results[0], k);
      assert forall i :: 0 < i < |results| ==> results[i] == later[i - 1];
    } else {
      assert Strangers(calls, results) == 0;
    }
  }

  lemma FitsOwn(calls: seq<ToolCall>, matched: seq<bool>, result: Message, k: nat)
    requires DistinctIds(calls) && |matched| == |calls| && Fits(calls, matched, result, k)
    ensures Direct(calls, result) ==> IndexOf(calls, ResultId(result)) == k && calls[k].id == ResultId(result)
    ensures Stranger(calls, result) ==> calls[k].id == ""
  {
    hide IndexOf;
    if Direct(calls, result) {
      OwnIndex(calls, IndexOf(calls, ResultId(result)));
      if calls[k].id != "" {
        OwnIndex(calls, k);
      }
    }
  }

  /** A tool turn whose results can be paired with its calls is refused exactly when some
      nameless result takes a call that a later result needs. */
  lemma PairableAcceptedIff(calls: seq<ToolCall>, results: seq<Message>, pi: seq<nat>)
    requires DistinctIds(calls) && |results| == |calls| && Bijection(pi, |calls|)
    requires forall i :: 0 <= i < |pi| ==> ToolMessage(results[i]) && Compatible(calls, ResultId(results[i]), pi[i])
    ensures Answers(calls, results) <==> !Steals(calls, Fresh(|calls|), results)
  {
    hide DistinctIds, Affords, Steals, Assignment, Compatible;
    PairedAffords(calls, Fresh(|calls|), results, pi);
    AcceptedIff(calls, Fresh(|calls|), results);
  }

  /** No nameless result stands before a named one. */
  predicate NamelessLast(results: seq<Message>) {
    forall i, j :: 0 <= i < j < |results| && ToolMessage(results[i]) && ToolMessage(results[j]) && ResultId(results[i]) == "" ==>
      ResultId(results[j]) == ""
  }

  lemma {:induction false} NamelessLastStealsNothing(calls: seq<ToolCall>, matched: seq<bool>, results: seq<Message>)
    requires |matched| == |calls| && NamelessLast(results)
    ensures !Steals(calls, matched, results)
    decreases |results|
  {
    hide UnmatchedCall, OpenCalls, IndexOf;
    if results != [] && ToolMessage(results[0]) {
      var k := UnmatchedCall(calls, matched, ResultId(results[0]));
      assert forall i :: 0 <= i < |results[1..]| ==> results[1..][i] == results[i + 1];
      if k.Some? {
        NamelessLastStealsNothing(calls, matched[k.value := true], results[1..]);
        if ResultId(results[0]) == "" {
          NoStrangers(calls, results[1..]);
          TakenCall(calls, matched, "");
        }
      }
    }
  }

  lemma {:induction false} NoStrangers(calls: seq<ToolCall>, results: seq<Message>)
    requires forall i :: 0 <= i < |results| && ToolMessage(results[i]) ==> ResultId(results[i]) == ""
    ensures Strangers(calls, results) == 0
  {
    if results != [] {
      NoStrangers(calls, results[1..]);
    }
  }

  /** So where the nameless results come last, and all the more where there are none, results
      that can be paired with open calls at all are accepted. */
  lemma NamelessLastAccepted(calls: seq<ToolCall>, matched: seq<bool>, results: seq<Message>, pi: seq<nat>)
    requires DistinctIds(calls) && |matched| == |calls| && |pi| == |results| && NamelessLast(results)
    requires forall i :: 0 <= i < |results| ==> Fits(calls, matched, results[i], pi[i])
    requires forall i, j :: 0 <= i < j < |pi| ==> pi[i] != pi[j]
    ensures Assignment(calls, matched, results).Some?
  {
    hide DistinctIds, NamelessLast, Steals, Assignment, Affords, Fits;
    PairedAffords(calls, matched, results, pi);
    NamelessLastStealsNothing(calls, matched, results);
    AcceptedIff(calls, matched, results);
  }

  /** A result without a name can block: it takes the first open call even when only a
      later call would leave the rest answerable. */
  lemma NamelessResultMayBlock()
    ensures var calls := [ToolCall("a", "t", "", Unset), ToolCall("b", "t", "", Unset)];
      && Bijection([1, 0], 2)
      && Compatible(calls, "", 1) && Compatible(calls, "a", 0)
      && !Answers(calls, [NewToolResult(ToolResult("", "t", "", "", false)), NewToolResult(ToolResult("a", "t", "", "", false))])
  {
    var calls := [ToolCall("a", "t", "", Unset), ToolCall("b", "t", "", Unset)];
    var first, second := NewToolResult(ToolResult("", "t", "", "", false)), NewToolResult(ToolResult("a", "t", "", "", false));
    assert UnmatchedCall(calls, Fresh(2), "") == Some(0);
    assert calls[0].id == "a";
    assert [first, second][1..] == [second];
    assert UnmatchedCall(calls, Fresh(2)[0 := true], "a") == None;
  }

  /* ---------- safe cut points ---------- */

  /** k messages make up whole groups. */
  predicate Aligned(ms: seq<Message>, k: nat)
    decreases |ms|
  {
    k == 0 || (ms != [] && k >= Width(ms) && Aligned(ms[Width(ms)..], k - Width(ms)))
  }

  /** The nearest group boundary at or after k. */
  function AlignUp(ms: seq<Message>, k: nat): (r: nat)
    requires k <= |ms|
    ensures k <= r <= |ms| && Aligned(ms, r)
    ensures forall j :: k <= j < r ==> !Aligned(ms, j)
    decreases |ms|
  {
    if k == 0 then 0
    else if k <= Width(ms) then Width(ms)
    else Width(ms) + AlignUp(ms[Width(ms)..], k - Width(ms))
  }

  /** The nearest group boundary at or before k. */
  function AlignDown(ms: seq<Message>, k: nat): (r: nat)
    requires k <= |ms|
    ensures r <= k && Aligned(ms, r)
    ensures forall j :: r < j <= k ==> !Aligned(ms, j)
    decreases |ms|
  {
    if ms == [] || k < Width(ms) then 0
    else Width(ms) + AlignDown(ms[Width(ms)..], k - Width(ms))
  }

  /** Part of a group is not a complete history. */
  lemma PartialGroupIncomplete(ms: seq<Message>, k: nat)
    requires CompleteTurns(ms) && 0 < k <= |ms| && k < Width(ms)
    ensures !CompleteTurns(ms[..k])
  {
    assert |ms[..Width(ms)]| == 1 + |ms[0].toolCalls|;
    assert ms[..k][..Width(ms[..k])] == ms[..k];
    assert !ValidGroup(ms[..k]);
  }

  lemma CompleteUnfolds(ms: seq<Message>)
    requires ms != []
    ensures CompleteTurns(ms) <==> ValidGroup(ms[..Width(ms)]) && CompleteTurns(ms[Width(ms)..])
  {
    hide ValidGroup, Width;
  }

  lemma PrefixUnfolds(ms: seq<Message>, k: nat)
    requires CompleteTurns(ms) && ms != [] && Width(ms) <= k <= |ms|
    ensures CompleteTurns(ms[..k]) <==> CompleteTurns(ms[Width(ms)..][..k - Width(ms)])
  {
    hide ValidGroup, CompleteTurns;
    WidthOfComplete(ms);
    var w := Width(ms);
    assert Width(ms[..k]) == w;
    CompleteUnfolds(ms);
    CompleteUnfolds(ms[..k]);
    hide Width;
    assert ms[..k][..w] == ms[..w] && ms[..k][w..] == ms[w..][..k - w];
  }

  lemma WidthOfComplete(ms: seq<Message>)
    requires CompleteTurns(ms) && ms != []
    ensures Width(ms) == 1 + |ms[0].toolCalls| <= |ms|
  {
    assert |ms[..Width(ms)]| == 1 + |ms[0].toolCalls|;
  }

  /** A history can be cut exactly at its group boundaries: there, and only there,
      both halves are complete. */
  lemma {:induction false} CutsAreAligned(ms: seq<Message>, k: nat)
    requires CompleteTurns(ms) && k <= |ms|
    ensures Aligned(ms, k) <==> CompleteTurns(ms[..k]) && CompleteTurns(ms[k..])
    decreases |ms|
  {
    hide ValidGroup, Width;
    if k == 0 {
      assert ms[..k] == [] && ms[k..] == ms;
    } else if k < Width(ms) {
      PartialGroupIncomplete(ms, k);
    } else {
      var w := Width(ms);
      PrefixUnfolds(ms, k);
      assert ms[w..][k - w..] == ms[k..];
      CutsAreAligned(ms[w..], k - w);
    }
  }

  lemma {:induction false} AlignedStep(ms: seq<Message>, k: nat)
    requires k < |ms| && Aligned(ms, k)
    ensures Aligned(ms, k + Width(ms[k..]))
    ensures forall j :: k < j < k + Width(ms[k..]) ==> !Aligned(ms, j)
    decreases |ms|
  {
    if k != 0 {
      var w := Width(ms);
      assert ms[w..][k - w..] == ms[k..];
      AlignedStep(ms[w..], k - w);
      forall j | k < j < k + Width(ms[k..]) ensures !Aligned(ms, j) {
        assert !Aligned(ms[w..], j - w);
      }
    } else {
      assert ms[k..] == ms;
    }
  }

  lemma WholeIsAligned(ms: seq<Message>)
    ensures Aligned(ms, |ms|)
  {
    assert AlignUp(ms, |ms|) == |ms|;
  }

  function Clamp(k: int, high: nat): nat {
    if k < 0 then 0 else if k > high then high else k
  }

  /** The cut chosen near k: k itself between groups, otherwise the end of the enclosing
      group, or its start when that end is the end of the history. */
  function SafeCut(ms: seq<Message>, k: nat): nat
    requires k <= |ms|
  {
    if AlignUp(ms, k) < |ms| || Aligned(ms, k) then AlignUp(ms, k) else AlignDown(ms, k)
  }

  /** It is the nearest boundary at or after k, unless only the end of the history is. */
  lemma SafeCutIsValid(ms: seq<Message>, k: nat)
    requires CompleteTurns(ms) && k <= |ms|
    ensures var c := SafeCut(ms, k);
      && c <= |ms| && CompleteTurns(ms[..c]) && CompleteTurns(ms[c..]) && (Aligned(ms, k) ==> c == k)
      && (forall j :: c < j <= k || k <= j < c ==> !Aligned(ms, j))
      && (k < c ==> c < |ms|) && (c < k ==> forall j :: k <= j < |ms| ==> !Aligned(ms, j))
  {
    CutsAreAligned(ms, AlignUp(ms, k));
    CutsAreAligned(ms, AlignDown(ms, k));
  }

  /** One past the last message that ends a cacheable prefix. */
  function LastMarker(ms: seq<Message>): (k: nat)
    ensures k <= |ms|
    ensures k > 0 ==> ms[k - 1].cacheBoundary
    ensures forall i :: k <= i < |ms| ==> !ms[i].cacheBoundary
  {
    if ms == [] then 0
    else if ms[|ms| - 1].cacheBoundary then |ms|
    else LastMarker(ms[..|ms| - 1])
  }

  function CachePrefix(ms: seq<Message>): nat {
    AlignUp(ms, LastMarker(ms))
  }

  /** The protected prefix covers every marker, ends between groups, and is as short as
      that allows. */
  lemma CachePrefixIsValid(ms: seq<Message>)
    requires CompleteTurns(ms)
    ensures var c := CachePrefix(ms);
      && c <= |ms| && Aligned(ms, c) && CompleteTurns(ms[..c]) && CompleteTurns(ms[c..])
      && (forall i :: 0 <= i < |ms| && ms[i].cacheBoundary ==> i < c)
      && (forall d :: 0 <= d < c && Aligned(ms, d) ==> exists i :: d <= i < |ms| && ms[i].cacheBoundary)
  {
    hide CompleteTurns, Aligned, AlignUp, LastMarker;
    var c, k := CachePrefix(ms), LastMarker(ms);
    CutsAreAligned(ms, c);
    forall d | 0 <= d < c && Aligned(ms, d) ensures exists i :: d <= i < |ms| && ms[i].cacheBoundary {
      assert d < k;
      assert ms[k - 1].cacheBoundary;
    }
  }

  /* ---------- the model's view ---------- */

  /** The messages not archived, in order. */
  function ContextView(ms: seq<Message>): (view: seq<Message>)
    ensures |view| <= |ms|
  {
    if ms == [] then []
    else (if ms[0].archived then [] else [ms[0]]) + ContextView(ms[1..])
  }

  lemma {:induction false} ContextViewConcat(a: seq<Message>, b: seq<Message>)
    ensures ContextView(a + b) == ContextView(a) + ContextView(b)
  {
    if a == [] {
      assert a + b == b;
    } else {
      assert (a + b)[1..] == a[1..] + b;
      ContextViewConcat(a[1..], b);
    }
  }

  /* ---------- what completeness depends on ---------- */

  /** The parts of a message that tool turns are checked by. */
  predicate SameShape(a: Message, b: Message) {
    && a.role == b.role && a.toolCalls == b.toolCalls && a.toolResult.Some? == b.toolResult.Some?
    && (a.toolResult.Some? ==> a.toolResult.value.callId == b.toolResult.value.callId)
  }

  predicate SameShapes(a: seq<Message>, b: seq<Message>) {
    |a| == |b| && forall i :: 0 <= i < |a| ==> SameShape(a[i], b[i])
  }

  lemma ShapesSplit(a: seq<Message>, b: seq<Message>, k: nat)
    requires SameShapes(a, b) && k <= |a|
    ensures SameShapes(a[..k], b[..k]) && SameShapes(a[k..], b[k..])
  {
    forall i | 0 <= i < |a| - k ensures SameShape(a[k..][i], b[k..][i]) {
      assert SameShape(a[k + i], b[k + i]);
    }
  }

  lemma {:induction false} AssignmentByShape(calls: seq<ToolCall>, matched: seq<bool>, a: seq<Message>, b: seq<Message>)
    requires |matched| == |calls| && SameShapes(a, b)
    ensures Assignment(calls, matched, a).Some? <==> Assignment(calls, matched, b).Some?
    decreases |a|
  {
    hide UnmatchedCall;
    if a != [] {
      assert SameShape(a[0], b[0]);
      ShapesSplit(a, b, 1);
      if ToolMessage(a[0]) {
        var k := UnmatchedCall(calls, matched, ResultId(a[0]));
        if k.Some? {
          AssignmentByShape(calls, matched[k.value := true], a[1..], b[1..]);
        }
      }
    }
  }

  lemma GroupByShape(a: seq<Message>, b: seq<Message>)
    requires SameShapes(a, b)
    ensures ValidGroup(a) <==> ValidGroup(b)
  {
    hide DistinctIds, Assignment, Fresh;
    if a != [] {
      assert SameShape(a[0], b[0]);
      ShapesSplit(a, b, 1);
      var calls := a[0].toolCalls;
      AssignmentByShape(calls, Fresh(|calls|), a[1..], b[1..]);
    }
  }

  /** Texts, flags and results do not influence completeness or where groups end. */
  lemma {:induction false} CompleteByShape(a: seq<Message>, b: seq<Message>)
    requires SameShapes(a, b)
    ensures CompleteTurns(a) <==> CompleteTurns(b)
    ensures forall k: nat :: Aligned(a, k) <==> Aligned(b, k)
    decreases |a|
  {
    hide ValidGroup;
    if a != [] {
      assert SameShape(a[0], b[0]);
      var w := Width(a);
      ShapesSplit(a, b, w);
      GroupByShape(a[..w], b[..w]);
      CompleteByShape(a[w..], b[w..]);
    }
  }

  /* ---------- archiving ---------- */

  /** The same evidence, whatever its archive flag. */
  predicate SameEvidence(a: Message, b: Message) {
    b == a.(archived := b.archived)
  }

  predicate SameTranscript(a: seq<Message>, b: seq<Message>) {
    |a| == |b| && forall i :: 0 <= i < |a| ==> SameEvidence(a[i], b[i])
  }

  predicate IsSummary(m: Message) {
    m.role.User? && m.toolCalls == [] && m.toolResult.None?
  }

  /** `after` is `before` up to archive flags, with a summary spliced in between two groups. */
  predicate Splices(before: seq<Message>, flagged: seq<Message>, k: nat, summary: Message, after: seq<Message>) {
    && SameTranscript(before, flagged)
    && k <= |before| && Aligned(before, k)
    && IsSummary(summary)
    && after == flagged[..k] + [summary] + flagged[k..]
  }

  ghost predicate ArchivesTo(before: seq<Message>, after: seq<Message>) {
    after == before || exists flagged, k: nat, summary :: Splices(before, flagged, k, summary, after)
  }

  /* ---------- the procedures ---------- */

  lemma {:induction false} CompleteFrom(ms: seq<Message>, k: nat)
    requires k < |ms|
    ensures var w := Width(ms[k..]);
      && w == Min(1 + |ms[k].toolCalls|, |ms| - k)
      && (CompleteTurns(ms[k..]) <==> ValidGroup(ms[k..k + w]) && CompleteTurns(ms[k + w..]))
  {
    var w := Width(ms[k..]);
    assert ms[k..][..w] == ms[k..k + w] && ms[k..][w..] == ms[k + w..];
  }

  lemma Ends(ms: seq<Message>)
    ensures ms[0..] == ms && Aligned(ms, 0) && CompleteTurns(ms[|ms|..])
  {
  }

  /** One step of a walk over the groups of a complete history. */
  lemma CompleteStep(ms: seq<Message>, k: nat)
    requires k < |ms| && Aligned(ms, k) && CompleteTurns(ms[k..])
    ensures var e := k + 1 + |ms[k].toolCalls|;
      && e <= |ms| && Aligned(ms, e) && CompleteTurns(ms[e..])
      && forall j :: k < j < e ==> !Aligned(ms, j)
  {
    hide ValidGroup;
    WidthOfComplete(ms[k..]);
    AlignedStep(ms, k);
    var w := Width(ms[k..]);
    assert ms[k..][w..] == ms[k + w..];
  }

  /** The map from non-empty call IDs to positions. */
  method IndexCalls(calls: seq<ToolCall>) returns (duplicate: bool, indexes: map<string, nat>)
    ensures duplicate <==> !DistinctIds(calls)
    ensures !duplicate ==> forall id :: id in indexes <==> id != "" && Names(calls, id)
    ensures !duplicate ==> forall id :: id in indexes ==> indexes[id] == IndexOf(calls, id)
  {
    indexes := map[];
    for k := 0 to |calls|
      invariant forall i, j :: 0 <= i < j < k && calls[i].id != "" ==> calls[i].id != calls[j].id
      invariant forall i :: 0 <= i < k && calls[i].id != "" ==> calls[i].id in indexes
      invariant forall id :: id in indexes ==> id != "" && indexes[id] < k && calls[indexes[id]].id == id
    {
      if calls[k].id != "" {
        if calls[k].id in indexes {
          return true, map[];
        }
        indexes := indexes[calls[k].id := k];
      }
    }
    duplicate := false;
  }

  method UnmatchedCallIndex(calls: seq<ToolCall>, matched: array<bool>, indexes: map<string, nat>, id: string)
    returns (k: int)
    requires matched.Length == |calls|
    requires forall name :: name in indexes <==> name != "" && Names(calls, name)
    requires forall name :: name in indexes ==> indexes[name] == IndexOf(calls, name)
    ensures var spec := UnmatchedCall(calls, matched[..], id);
      k == if spec.Some? then spec.value else -1
  {
    if id != "" && id in indexes {
      return if matched[indexes[id]] then -1 else indexes[id];
    }
    k := 0;
    while k < |calls|
      invariant 0 <= k <= |calls|
      invariant FirstOpen(calls, matched[..], id == "", 0) == FirstOpen(calls, matched[..], id == "", k)
    {
      if !matched[k] && (id == "" || calls[k].id == "") {
        return;
      }
      k := k + 1;
    }
    k := -1;
  }

  /** Checks the results that follow one tool-call message. */
  method MatchResults(calls: seq<ToolCall>, following: seq<Message>) returns (ok: bool)
    ensures ok <==> DistinctIds(calls) && |calls| <= |following| && Answers(calls, following[..|calls|])
  {
    hide DistinctIds, UnmatchedCall, ToolMessage;
    var duplicate, indexes := IndexCalls(calls);
    if duplicate {
      return false;
    }
    if |following| < |calls| {
      return false;
    }
    var results := following[..|calls|];
    var matched := new bool[|calls|](_ => false);
    assert matched[..] == Fresh(|calls|);
    var offset := 0;
    while offset < |calls|
      invariant 0 <= offset <= |calls|
      invariant Assignment(calls, Fresh(|calls|), results).Some? <==> Assignment(calls, matched[..], results[offset..]).Some?
    {
      assert results[offset..][1..] == results[offset + 1..];
      if !ToolMessage(results[offset]) {
        return false;
      }
      var k := UnmatchedCallIndex(calls, matched, indexes, ResultId(results[offset]));
      if k < 0 {
        return false;
      }
      ghost var before := matched[..];
      matched[k] := true;
      assert matched[..] == before[k := true];
      offset := offset + 1;
    }
    ok := true;
  }

  method ValidateCompleteTurns(ms: seq<Message>) returns (ok: bool)
    ensures ok <==> CompleteTurns(ms)
  {
    hide CompleteTurns, DistinctIds, Answers;
    Ends(ms);
    var index := 0;
    while index < |ms|
      invariant 0 <= index <= |ms|
      invariant CompleteTurns(ms) <==> CompleteTurns(ms[index..])
    {
      var m := ms[index];
      CompleteFrom(ms, index);
      if (m.toolCalls != [] && !m.role.Assistant?) || (m.toolResult.Some? && !m.role.Tool?) || m.role.Tool? {
        return false;
      }
      if m.toolCalls == [] {
        index := index + 1;
        continue;
      }
      var matched := MatchResults(m.toolCalls, ms[index + 1..]);
      if |m.toolCalls| <= |ms[index + 1..]| {
        assert ms[index..index + 1 + |m.toolCalls|][1..] == ms[index + 1..][..|m.toolCalls|];
      }
      if !matched {
        return false;
      }
      index := index + |m.toolCalls| + 1;
    }
    ok := true;
  }

  method CompleteTurnBoundary(ms: seq<Message>, preferredStart: int) returns (start: Option<nat>)
    ensures start == if CompleteTurns(ms) then Some(SafeCut(ms, Clamp(preferredStart, |ms|))) else None
  {
    hide CompleteTurns, Aligned;
    var valid := ValidateCompleteTurns(ms);
    if !valid {
      return None;
    }
    var k := Clamp(preferredStart, |ms|);
    var index := 0;
    Ends(ms);
    while index < |ms|
      invariant 0 <= index <= |ms| && Aligned(ms, index) && CompleteTurns(ms[index..])
      invariant k < index ==> Aligned(ms, k)
    {
      CompleteStep(ms, index);
      var groupEnd := index + |ms[index].toolCalls| + 1;
      if |ms[index].toolCalls| > 0 && index < k < groupEnd {
        return Some(if groupEnd < |ms| then groupEnd else index);
      }
      index := groupEnd;
    }
    start := Some(k);
  }

  method FindLastMarker(ms: seq<Message>) returns (boundary: nat)
    ensures boundary == LastMarker(ms)
  {
    boundary := 0;
    for i := 0 to |ms|
      invariant boundary == LastMarker(ms[..i])
    {
      assert ms[..i + 1][..i] == ms[..i];
      if ms[i].cacheBoundary {
        boundary := i + 1;
      }
    }
    assert ms[..|ms|] == ms;
  }

  method CachePrefixBoundary(ms: seq<Message>) returns (end: Option<nat>)
    ensures end == if CompleteTurns(ms) then Some(CachePrefix(ms)) else None
  {
    hide CompleteTurns, Aligned;
    var valid := ValidateCompleteTurns(ms);
    if !valid {
      return None;
    }
    var boundary := FindLastMarker(ms);
    if boundary == 0 {
      return Some(0);
    }
    var index := 0;
    Ends(ms);
    while index < |ms|
      invariant 0 <= index <= |ms| && Aligned(ms, index) && CompleteTurns(ms[index..])
      invariant boundary < index ==> Aligned(ms, boundary)
    {
      CompleteStep(ms, index);
      var groupEnd := index + |ms[index].toolCalls| + 1;
      if |ms[index].toolCalls| > 0 && index < boundary < groupEnd {
        return Some(groupEnd);
      }
      index := groupEnd;
    }
    end := Some(boundary);
  }
}
