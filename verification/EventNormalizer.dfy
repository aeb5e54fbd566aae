/**
 Folding the events of one provider response: text, content parts, tool calls and usage.
 */
module EventNormalizer {
  import opened Wrappers
  import opened TokenUsage
  import opened CallBuilders
  import opened CallAssembly

  const MAX_CALLS: nat := 1024

  datatype PartKind = Plain | Commentary | FinalAnswer | Reasoning | RedactedReasoning

  datatype Part = Part(kind: PartKind, text: string, signature: string, data: string)

  /** `usage` comes with every event; a terminal event's, if any, replaces the total. */
  datatype Body =
    | TextDelta(kind: PartKind, text: string)
    | ThinkingDelta(thinking: string, signature: string, redacted: string)
    | ToolCall(complete: Option<Mention>)
    | ToolCallDelta(delta: Option<Mention>)
    | ErrorEvent
    | Done
    | Ignored

  datatype Event = Event(body: Body, usage: Usage)

  datatype Call = Call(id: string, name: string, arguments: string)

  datatype Response = Response(parts: seq<Part>, text: string, thinking: string, signature: string, redacted: string,
                               calls: seq<Call>, usage: Usage)

  datatype Error = Terminal | ProviderError | DuplicateCall | IdentityConflict | MissingId | TooMany | InvalidArguments

  /** `blank` is an ID of nothing but white space; `json` accepts well-formed arguments. */
  datatype Text = Text(blank: string -> bool, json: string -> bool)

  predicate BlankIsBlank(t: Text) { t.blank("") }

  /* ---------- terminal events ---------- */

  predicate IsTerminal(e: Event) { e.body.Done? || e.body.ErrorEvent? }

  /** At most one terminal event, and only at the end. */
  predicate TerminalLast(events: seq<Event>) {
    forall i :: 0 <= i < |events| - 1 ==> !IsTerminal(events[i])
  }

  predicate HasTerminal(events: seq<Event>) {
    events != [] && IsTerminal(events[|events| - 1])
  }

  /* ---------- content ---------- */

  function AppendText(parts: seq<Part>, kind: PartKind, text: string, signature: string): seq<Part> {
    if text == "" && signature == "" then parts
    else if parts != [] && parts[|parts| - 1].kind == kind && parts[|parts| - 1].data == "" then
      var last := parts[|parts| - 1];
      parts[|parts| - 1 := last.(text := last.text + text, signature := if signature != "" then signature else last.signature)]
    else parts + [Part(kind, text, signature, "")]
  }

  /* ---------- the fold ---------- */

  datatype Fold = Fold(bench: Bench, response: Response)

  const NO_RESPONSE := Response([], "", "", "", "", [], ZERO)

  predicate Ready(f: Fold) { Wired(f.bench) }

  function StepResponse(r: Response, e: Event): Response {
    var counted := r.(usage := TokenUsage.Add(r.usage, e.usage));
    match e.body
    case TextDelta(kind, text) => counted.(text := r.text + text, parts := AppendText(r.parts, kind, text, ""))
    case ThinkingDelta(thinking, signature, redacted) =>
      var parts := AppendText(r.parts, Reasoning, thinking, signature);
      counted.(thinking := r.thinking + thinking,
               signature := if signature != "" then signature else r.signature,
               redacted := if redacted != "" then redacted else r.redacted,
               parts := if redacted != "" then parts + [Part(RedactedReasoning, "", "", redacted)] else parts)
    case Done => if e.usage != ZERO then counted.(usage := e.usage) else counted
    case _ => counted
  }

  function MentionIn(e: Event): seq<Mention> {
    match e.body
    case ToolCall(complete) => if complete.Some? && complete.value.Complete? then [complete.value] else []
    case ToolCallDelta(delta) => if delta.Some? && delta.value.Fragment? then [delta.value] else []
    case _ => []
  }

  function Step(f: Fold, e: Event): (r: Result<Fold, Error>)
    requires Ready(f)
    ensures r.Ok? ==> Ready(r.value)
  {
    if e.body.ErrorEvent? then Err(ProviderError)
    else
      var bench := ApplyAll(f.bench, MentionIn(e));
      if bench.None? then Err(DuplicateCall) else Ok(Fold(bench.value, StepResponse(f.response, e)))
  }

  function StepAll(f: Fold, events: seq<Event>): (r: Result<Fold, Error>)
    requires Ready(f)
    ensures r.Ok? ==> Ready(r.value)
    decreases |events|
  {
    if events == [] then Ok(f)
    else
      var next := Step(f, events[0]);
      if next.Err? then next else StepAll(next.value, events[1..])
  }

  /* ---------- finishing ---------- */

  function CallOf(b: Builder): Call { Call(b.id, b.name, b.arguments) }

  predicate BadArguments(t: Text, b: Builder) {
    b.arguments != "" && !t.json(b.arguments)
  }

  /** The first builder that stops the assembly. */
  function FirstFault(t: Text, builders: seq<Builder>): Option<Error> {
    if builders == [] then None
    else if builders[0].conflict then Some(IdentityConflict)
    else if t.blank(builders[0].id) then Some(MissingId)
    else FirstFault(t, builders[1..])
  }

  function Calls(builders: seq<Builder>): (calls: seq<Call>)
    ensures |calls| == |builders| && forall k :: 0 <= k < |calls| ==> calls[k] == CallOf(builders[k])
  {
    seq(|builders|, k requires 0 <= k < |builders| => CallOf(builders[k]))
  }

  function Finish(t: Text, f: Fold): Result<Response, Error> {
    var builders := f.bench.builders;
    if |builders| > MAX_CALLS then Err(TooMany)
    else if FirstFault(t, builders).Some? then Err(FirstFault(t, builders).value)
    else if exists k :: 0 <= k < |builders| && BadArguments(t, builders[k]) then Err(InvalidArguments)
    else Ok(f.response.(calls := Calls(builders)))
  }

  function Normalize(t: Text, events: seq<Event>, requireTerminal: bool): Result<Response, Error> {
    if !TerminalLast(events) then Err(Terminal)
    else
      var f := StepAll(Fold(EMPTY, NO_RESPONSE), events);
      if f.Err? then Err(f.error)
      else if requireTerminal && !HasTerminal(events) then Err(Terminal)
      else Finish(t, f.value)
  }

  /* ---------- the calls of a successful response ---------- */

  function MentionsOf(events: seq<Event>): seq<Mention>
    decreases |events|
  {
    if events == [] then [] else MentionIn(events[0]) + MentionsOf(events[1..])
  }

  lemma {:induction false} ApplyConcat(b: Bench, a: seq<Mention>, c: seq<Mention>)
    requires Wired(b)
    ensures ApplyAll(b, a + c) == if ApplyAll(b, a).None? then None else ApplyAll(ApplyAll(b, a).value, c)
    decreases |a|
  {
    hide Apply;
    if a == [] {
      assert a + c == c;
    } else {
      assert (a + c)[1..] == a[1..] + c;
      if Apply(b, a[0]).Some? {
        ApplyConcat(Apply(b, a[0]).value, a[1..], c);
      }
    }
  }

  lemma {:induction false} FoldApplies(f: Fold, events: seq<Event>)
    requires Ready(f) && StepAll(f, events).Ok?
    ensures ApplyAll(f.bench, MentionsOf(events)) == Some(StepAll(f, events).value.bench)
    decreases |events|
  {
    hide ApplyAll, StepResponse, MentionIn;
    if events == [] {
      NothingApplied(f.bench);
    } else {
      FoldApplies(Step(f, events[0]).value, events[1..]);
      ApplyConcat(f.bench, MentionIn(events[0]), MentionsOf(events[1..]));
    }
  }

  lemma NothingApplied(b: Bench)
    requires Wired(b)
    ensures ApplyAll(b, []) == Some(b)
  {
  }

  lemma {:induction false} NoFault(t: Text, builders: seq<Builder>)
    requires FirstFault(t, builders).None?
    ensures forall k :: 0 <= k < |builders| ==> !builders[k].conflict && !t.blank(builders[k].id)
  {
    if builders != [] {
      NoFault(t, builders[1..]);
      forall k | 0 <= k < |builders| ensures !builders[k].conflict && !t.blank(builders[k].id) {
        if k > 0 {
          assert builders[k] == builders[1..][k - 1];
        }
      }
    }
  }

  lemma FinishedSettles(t: Text, f: Fold)
    requires BlankIsBlank(t) && Finish(t, f).Ok?
    ensures Settled(f.bench) && forall k :: 0 <= k < |f.bench.builders| ==> !t.blank(f.bench.builders[k].id)
  {
    NoFault(t, f.bench.builders);
  }

  /** When the events normalise, there is exactly one call for each ID meant by a mention, in
      the order of first mention; the IDs are distinct and not blank; and each call carries
      the complete call's arguments if it supplied any, otherwise its fragments joined, and
      the latest name given up to there. */
  lemma CallsOfResponse(t: Text, events: seq<Event>, requireTerminal: bool) returns (names: map<int, string>)
    requires BlankIsBlank(t) && Normalize(t, events, requireTerminal).Ok?
    ensures var calls, ms := Normalize(t, events, requireTerminal).value.calls, MentionsOf(events);
      var ids := MeantAll(ms, names);
      && NamesAgree(ms, names) && NamesIntroduced(ms, names)
      && |calls| == |Firsts(ids, 0)| <= MAX_CALLS
      && (forall k :: 0 <= k < |calls| ==>
            && !t.blank(calls[k].id) && (calls[k].arguments == "" || t.json(calls[k].arguments))
            && Firsts(ids, 0)[k] < |ids| && calls[k].id == ids[Firsts(ids, 0)[k]]
            && calls[k].arguments == Arguments(Select(ms, ids, calls[k].id))
            && calls[k].name == LatestName(Select(ms, ids, calls[k].id)))
      && (forall i, j :: 0 <= i < j < |calls| ==> calls[i].id != calls[j].id)
  {
    hide StepAll, ApplyAll, MentionsOf, FirstFault, Settled, LatestName, Select, Firsts, NamesOf, MeantAll, Arguments, NamesAgree, NamesIntroduced;
    var f := StepAll(Fold(EMPTY, NO_RESPONSE), events).value;
    FoldApplies(Fold(EMPTY, NO_RESPONSE), events);
    FinishedSettles(t, f);
    AssembledCalls(MentionsOf(events));
    names := NamesOf(f.bench);
  }

  /** The event brings this mention: a complete call, or a fragment of one. */
  predicate Brings(e: Event, m: Mention) {
    || (e.body == ToolCall(Some(m)) && m.Complete?)
    || (e.body == ToolCallDelta(Some(m)) && m.Fragment?)
  }

  lemma OneMention(e: Event)
    ensures |MentionIn(e)| <= 1 && forall m :: Brings(e, m) <==> MentionIn(e) == [m]
  {
  }

  lemma MentionsFirst(events: seq<Event>)
    requires events != []
    ensures MentionsOf(events) == MentionIn(events[0]) + MentionsOf(events[1..])
  {
  }

  /** Position k of `at` is the event that brings mention k, for all that bring one, in order. */
  predicate Brought(events: seq<Event>, ms: seq<Mention>, at: seq<nat>) {
    && |at| == |ms|
    && (forall k :: 0 <= k < |at| ==> at[k] < |events| && Brings(events[at[k]], ms[k]))
    && (forall j, k :: 0 <= j < k < |at| ==> at[j] < at[k])
    && (forall i :: 0 <= i < |events| && MentionIn(events[i]) != [] ==> i in at)
  }

  function Moved(at: seq<nat>): (moved: seq<nat>)
    ensures |moved| == |at| && forall k :: 0 <= k < |at| ==> moved[k] == at[k] + 1
  {
    seq(|at|, k requires 0 <= k < |at| => at[k] + 1)
  }

  lemma InMoved(e: Event, rest: seq<Event>, later: seq<nat>, i: nat)
    requires 0 < i < |[e] + rest| && (forall k :: 0 <= k < |rest| && MentionIn(rest[k]) != [] ==> k in later)
    requires MentionIn(([e] + rest)[i]) != []
    ensures i in Moved(later) && i in [0] + Moved(later)
  {
    hide MentionIn;
    assert rest[i - 1] == ([e] + rest)[i];
    var k :| 0 <= k < |later| && later[k] == i - 1;
    assert Moved(later)[k] == i && ([0] + Moved(later))[k + 1] == i;
  }

  lemma BroughtSkips(e: Event, rest: seq<Event>, ms: seq<Mention>, later: seq<nat>)
    requires Brought(rest, ms, later) && MentionIn(e) == []
    ensures Brought([e] + rest, ms, Moved(later))
  {
    hide Brings, MentionIn;
    var events, at := [e] + rest, Moved(later);
    forall i | 0 <= i < |events| && MentionIn(events[i]) != [] ensures i in at {
      InMoved(e, rest, later, i);
    }
    assert forall k :: 0 <= k < |at| ==> events[at[k]] == rest[later[k]];
  }

  lemma BroughtFirst(e: Event, m: Mention, rest: seq<Event>, ms: seq<Mention>, later: seq<nat>)
    requires Brought(rest, ms, later) && Brings(e, m)
    ensures Brought([e] + rest, [m] + ms, [0] + Moved(later))
  {
    hide Brings, MentionIn;
    var events, at, all := [e] + rest, [0] + Moved(later), [m] + ms;
    forall i | 0 <= i < |events| && MentionIn(events[i]) != [] ensures i in at {
      if i > 0 {
        InMoved(e, rest, later, i);
      } else {
        assert at[0] == 0;
      }
    }
    forall k | 0 <= k < |at| ensures at[k] < |events| && Brings(events[at[k]], all[k]) {
      if k > 0 {
        assert events[at[k]] == rest[later[k - 1]] && all[k] == ms[k - 1];
      }
    }
  }

  /** The mentions are those of the events, one for each event that brings one, in order. */
  lemma {:induction false} MentionsAre(events: seq<Event>) returns (at: seq<nat>)
    ensures Brought(events, MentionsOf(events), at)
    ensures forall i, m :: 0 <= i < |events| && Brings(events[i], m) ==> i in at
    decreases |events|
  {
    hide Brings, Brought, MentionIn, MentionsOf;
    if events == [] {
      at := [];
      NoMentions();
    } else {
      var later := MentionsAre(events[1..]);
      OneMention(events[0]);
      MentionsFirst(events);
      at := Moved(later);
      if MentionIn(events[0]) == [] {
        BroughtSkips(events[0], events[1..], MentionsOf(events[1..]), later);
        assert [] + MentionsOf(events[1..]) == MentionsOf(events[1..]);
      } else {
        var m := MentionIn(events[0])[0];
        assert MentionIn(events[0]) == [m];
        BroughtFirst(events[0], m, events[1..], MentionsOf(events[1..]), later);
        at := [0] + at;
      }
      assert events == [events[0]] + events[1..];
      BroughtAll(events, MentionsOf(events), at);
    }
  }

  lemma BroughtAll(events: seq<Event>, ms: seq<Mention>, at: seq<nat>)
    requires Brought(events, ms, at)
    ensures forall i, m :: 0 <= i < |events| && Brings(events[i], m) ==> i in at
  {
    hide Brings, MentionIn;
    forall i, m | 0 <= i < |events| && Brings(events[i], m) ensures i in at {
      OneMention(events[i]);
    }
  }

  lemma NoMentions()
    ensures Brought([], MentionsOf([]), [])
  {
  }

  /* ---------- which streams normalise ---------- */

  lemma {:induction false} FoldsIff(f: Fold, events: seq<Event>)
    requires Ready(f)
    ensures StepAll(f, events).Ok? <==>
      (forall i :: 0 <= i < |events| ==> !events[i].body.ErrorEvent?) && ApplyAll(f.bench, MentionsOf(events)).Some?
    decreases |events|
  {
    hide ApplyAll, StepResponse, MentionIn;
    if events == [] {
      NothingApplied(f.bench);
    } else {
      ApplyConcat(f.bench, MentionIn(events[0]), MentionsOf(events[1..]));
      var next := Step(f, events[0]);
      if next.Ok? {
        FoldsIff(next.value, events[1..]);
        assert forall i :: 0 < i < |events| ==> events[i] == events[1..][i - 1];
      }
    }
  }

  lemma {:induction false} Faultless(t: Text, builders: seq<Builder>)
    requires forall k :: 0 <= k < |builders| ==> !builders[k].conflict && !t.blank(builders[k].id)
    ensures FirstFault(t, builders).None?
  {
    if builders != [] {
      Faultless(t, builders[1..]);
    }
  }

  /** A stream normalises if and only if it holds no error event, its terminal event is last
      and there if asked for, no call is completed twice, and the at most 1024 calls are
      free of conflicts, named by an ID that is not blank, and have JSON for arguments. */
  lemma NormalizesIff(t: Text, events: seq<Event>, requireTerminal: bool)
    ensures Normalize(t, events, requireTerminal).Ok? <==>
      && TerminalLast(events) && (requireTerminal ==> HasTerminal(events))
      && (forall i :: 0 <= i < |events| ==> !events[i].body.ErrorEvent?)
      && ApplyAll(EMPTY, MentionsOf(events)).Some?
      && var builders := ApplyAll(EMPTY, MentionsOf(events)).value.builders;
      |builders| <= 1024 && forall k :: 0 <= k < |builders| ==>
        !builders[k].conflict && !t.blank(builders[k].id) && !BadArguments(t, builders[k])
  {
    hide StepAll, ApplyAll, MentionsOf, FirstFault, BadArguments;
    FoldsIff(Fold(EMPTY, NO_RESPONSE), events);
    if StepAll(Fold(EMPTY, NO_RESPONSE), events).Ok? {
      FoldApplies(Fold(EMPTY, NO_RESPONSE), events);
      var builders := StepAll(Fold(EMPTY, NO_RESPONSE), events).value.bench.builders;
      if FirstFault(t, builders).None? {
        NoFault(t, builders);
      } else if forall k :: 0 <= k < |builders| ==> !builders[k].conflict && !t.blank(builders[k].id) {
        Faultless(t, builders);
      }
    }
  }

  /* ---------- splitting deltas ---------- */

  lemma {:induction false} StepsConcat(f: Fold, a: seq<Event>, b: seq<Event>)
    requires Ready(f)
    ensures StepAll(f, a + b) == if StepAll(f, a).Err? then StepAll(f, a) else StepAll(StepAll(f, a).value, b)
    decreases |a|
  {
    hide Step;
    if a == [] {
      assert a + b == b;
    } else {
      assert (a + b)[1..] == a[1..] + b;
      if Step(f, a[0]).Ok? {
        StepsConcat(Step(f, a[0]).value, a[1..], b);
      }
    }
  }

  function Latest(first: string, second: string): string {
    if second != "" then second else first
  }

  lemma AppendTwice(parts: seq<Part>, kind: PartKind, a: string, signed: string, b: string, signature: string)
    ensures AppendText(AppendText(parts, kind, a, signed), kind, b, signature) == AppendText(parts, kind, a + b, Latest(signed, signature))
  {
    if a == "" && signed == "" {
      assert a + b == b;
    } else if parts != [] && parts[|parts| - 1].kind == kind && parts[|parts| - 1].data == "" {
      var last := parts[|parts| - 1];
      assert (last.text + a) + b == last.text + (a + b);
      assert b == "" ==> a + b == a;
    } else {
      var grown := parts + [Part(kind, a, signed, "")];
      assert AppendText(parts, kind, a, signed) == grown;
      assert b == "" ==> a + b == a;
      assert grown[|grown| - 1 := Part(kind, a + b, Latest(signed, signature), "")] == parts + [Part(kind, a + b, Latest(signed, signature), "")];
    }
  }

  lemma UsageTwice(r: Usage, u: Usage)
    ensures TokenUsage.Add(TokenUsage.Add(r, u), ZERO) == TokenUsage.Add(r, u)
  {
    AddClosed(r, u);
    AddZero(TokenUsage.Add(r, u));
  }

  predicate Splits(whole: Event, first: Event, second: Event) {
    && first.usage == whole.usage && second.usage == ZERO
    && match whole.body
       case TextDelta(kind, text) =>
         first.body.TextDelta? && second.body.TextDelta? && first.body.kind == kind == second.body.kind
         && text == first.body.text + second.body.text
       case ThinkingDelta(thinking, signature, redacted) =>
         && first.body.ThinkingDelta? && second.body.ThinkingDelta?
         && thinking == first.body.thinking + second.body.thinking
         && signature == Latest(first.body.signature, second.body.signature)
         && first.body.redacted == "" && redacted == second.body.redacted
       case ToolCallDelta(delta) =>
         && first.body.ToolCallDelta? && second.body.ToolCallDelta?
         && delta.Some? && first.body.delta.Some? && second.body.delta.Some?
         && SplitsFragment(delta.value, first.body.delta.value, second.body.delta.value)
       case _ => false
  }

  /** Two fragments of the same identity whose arguments add up; only the first needs a name. */
  predicate SplitsFragment(whole: Mention, first: Mention, second: Mention) {
    && whole.Fragment? && first.Fragment? && second.Fragment?
    && (whole.id != "" || whole.index.Some?)
    && first == whole.(arguments := first.arguments)
    && second == whole.(arguments := second.arguments, name := second.name)
    && (second.name == "" || second.name == whole.name)
    && whole.arguments == first.arguments + second.arguments
  }

  /** The second fragment finds the builder of the first and nothing to bind. */
  lemma SameBuilder(b: Bench, first: Mention, second: Mention)
    requires Tidy(b) && first.Fragment? && second.Fragment? && (first.id != "" || first.index.Some?)
    requires second.id == first.id && second.index == first.index && !Conflicted(Apply(b, first).value)
    ensures var n := Apply(b, first).value; Ensure(n, second.id, second.index) == (Ensure(b, first.id, first.index).0, n)
  {
    var at, n := Ensure(b, first.id, first.index).0, Apply(b, first).value;
    ApplyTidy(b, first);
    assert !n.builders[at].conflict;
    EnsureTidy(b, first.id, first.index);
    IndexKept(b, first);
    var builder := n.builders[at];
    assert n.builders[at := builder] == n.builders;
    if first.index.Some? {
      assert n.byIndex[first.index.value := at] == n.byIndex;
    }
  }

  lemma IndexKept(b: Bench, m: Mention)
    requires Tidy(b) && m.Fragment? && !Conflicted(Apply(b, m).value)
    ensures var at, n := Ensure(b, m.id, m.index).0, Apply(b, m).value;
      at < |n.builders| && (m.index.Some? ==> n.builders[at].index == m.index)
  {
    ApplyTidy(b, m);
    EnsureTidy(b, m.id, m.index);
    var at, n := Ensure(b, m.id, m.index).0, Apply(b, m).value;
    assert !n.builders[at].conflict;
  }

  lemma AmendTwice(builder: Builder, whole: Mention, first: Mention, second: Mention)
    requires SplitsFragment(whole, first, second)
    ensures Amended(Amended(builder, first), second) == Amended(builder, whole)
  {
    assert (builder.arguments + first.arguments) + second.arguments == builder.arguments + whole.arguments;
  }

  lemma FragmentTwice(b: Bench, whole: Mention, first: Mention, second: Mention)
    requires Tidy(b) && SplitsFragment(whole, first, second)
    ensures Apply(b, whole).Some? && Apply(b, first).Some? && Apply(Apply(b, first).value, second).Some?
    ensures var one, two := Apply(b, whole).value, Apply(Apply(b, first).value, second).value;
      one == two || (Conflicted(one) && Conflicted(two))
  {
    var at, n := Ensure(b, whole.id, whole.index).0, Apply(b, first).value;
    ApplyTidy(b, first);
    ApplyTidy(n, second);
    SameConflicts(b, whole, first);
    if Conflicted(n) {
      StillConflicted(n, Apply(n, second).value);
    } else {
      SameBuilder(b, first, second);
      AmendTwice(Ensure(b, whole.id, whole.index).1.builders[at], whole, first, second);
      assert Apply(n, second).value.builders == Apply(b, whole).value.builders;
    }
  }

  lemma SameConflicts(b: Bench, whole: Mention, first: Mention)
    requires Wired(b) && whole.Fragment? && first == whole.(arguments := first.arguments)
    ensures Conflicted(Apply(b, first).value) ==> Conflicted(Apply(b, whole).value)
  {
    hide Ensure;
    if Conflicted(Apply(b, first).value) {
      var k :| 0 <= k < |Apply(b, first).value.builders| && Apply(b, first).value.builders[k].conflict;
      assert Apply(b, whole).value.builders[k].conflict;
    }
  }

  lemma StillConflicted(b: Bench, n: Bench)
    requires Extends(b, n) && Conflicted(b)
    ensures Conflicted(n)
  {
    var k :| 0 <= k < |b.builders| && b.builders[k].conflict;
    assert n.builders[k].conflict;
  }

  /** Two folds with the same outcome to come: equal, or both in conflict. */
  predicate Alike(a: Result<Fold, Error>, b: Result<Fold, Error>) {
    a == b || (a.Ok? && b.Ok? && Conflicted(a.value.bench) && Conflicted(b.value.bench))
  }

  lemma SplitStep(f: Fold, whole: Event, first: Event, second: Event)
    requires Ready(f) && Tidy(f.bench) && Splits(whole, first, second)
    ensures Alike(StepAll(f, [whole]), StepAll(f, [first, second]))
  {
    hide ApplyAll, StepResponse, Conflicted, Tidy;
    OneStep(f, whole);
    TwoSteps(f, first, second);
    SplitResponse(f.response, whole, first, second);
    if !whole.body.ToolCallDelta? {
      NothingApplied(f.bench);
    } else {
      var m, m1, m2 := whole.body.delta.value, first.body.delta.value, second.body.delta.value;
      FragmentTwice(f.bench, m, m1, m2);
      OneApplied(f.bench, m);
      OneApplied(f.bench, m1);
      OneApplied(Apply(f.bench, m1).value, m2);
    }
  }

  lemma OneApplied(b: Bench, m: Mention)
    requires Wired(b)
    ensures ApplyAll(b, [m]) == Apply(b, m)
  {
    hide Apply;
    assert [m][1..] == [];
  }

  lemma OneStep(f: Fold, e: Event)
    requires Ready(f)
    ensures StepAll(f, [e]) == Step(f, e)
  {
    hide Step;
    assert [e][1..] == [];
  }

  lemma TwoSteps(f: Fold, a: Event, b: Event)
    requires Ready(f)
    ensures StepAll(f, [a, b]) == if Step(f, a).Err? then Step(f, a) else Step(Step(f, a).value, b)
  {
    hide Step;
    assert [a, b][1..] == [b];
    if Step(f, a).Ok? {
      OneStep(Step(f, a).value, b);
    }
  }

  lemma SplitResponse(r: Response, whole: Event, first: Event, second: Event)
    requires Splits(whole, first, second)
    ensures StepResponse(StepResponse(r, first), second) == StepResponse(r, whole)
  {
    hide TokenUsage.Add, AppendText;
    UsageTwice(r.usage, whole.usage);
    if whole.body.TextDelta? {
      AppendTwice(r.parts, whole.body.kind, first.body.text, "", second.body.text, "");
      assert (r.text + first.body.text) + second.body.text == r.text + whole.body.text;
    } else if whole.body.ThinkingDelta? {
      AppendTwice(r.parts, Reasoning, first.body.thinking, first.body.signature, second.body.thinking, second.body.signature);
      assert (r.thinking + first.body.thinking) + second.body.thinking == r.thinking + whole.body.thinking;
    }
  }

  lemma {:induction false} StepsTidy(f: Fold, events: seq<Event>)
    requires Ready(f) && Tidy(f.bench) && StepAll(f, events).Ok?
    ensures Tidy(StepAll(f, events).value.bench) && Extends(f.bench, StepAll(f, events).value.bench)
  {
    hide ApplyAll, StepAll, Tidy, Extends;
    FoldApplies(f, events);
    ApplyAllTidy(f.bench, MentionsOf(events));
  }

  lemma ConflictFails(t: Text, f: Fold)
    requires Conflicted(f.bench)
    ensures Finish(t, f).Err?
  {
    if FirstFault(t, f.bench.builders).None? {
      NoFault(t, f.bench.builders);
    }
  }

  predicate NoneTerminal(events: seq<Event>) {
    forall i :: 0 <= i < |events| ==> !IsTerminal(events[i])
  }

  lemma TerminalConcat(a: seq<Event>, b: seq<Event>)
    requires b != []
    ensures TerminalLast(a + b) <==> NoneTerminal(a) && TerminalLast(b)
    ensures HasTerminal(a + b) == HasTerminal(b)
  {
    if TerminalLast(a + b) {
      assert forall i :: 0 <= i < |a| ==> (a + b)[i] == a[i];
      assert forall i :: 0 <= i < |b| ==> (a + b)[|a| + i] == b[i];
    }
  }

  lemma SplitTerminals(before: seq<Event>, whole: Event, first: Event, second: Event, after: seq<Event>)
    requires Splits(whole, first, second)
    ensures TerminalLast(before + [whole] + after) <==> TerminalLast(before + [first, second] + after)
    ensures HasTerminal(before + [whole] + after) <==> HasTerminal(before + [first, second] + after)
  {
    assert !IsTerminal(whole) && !IsTerminal(first) && !IsTerminal(second);
    hide IsTerminal;
    TerminalConcat(before, [whole]);
    TerminalConcat(before, [first, second]);
    if after == [] {
      assert before + [whole] + after == before + [whole] && before + [first, second] + after == before + [first, second];
    } else {
      TerminalConcat(before + [whole], after);
      TerminalConcat(before + [first, second], after);
      NoneConcat(before, [whole]);
      NoneConcat(before, [first, second]);
    }
  }

  lemma NoneConcat(a: seq<Event>, b: seq<Event>)
    ensures NoneTerminal(a + b) <==> NoneTerminal(a) && NoneTerminal(b)
  {
    assert forall i :: 0 <= i < |a| ==> (a + b)[i] == a[i];
    assert forall i :: 0 <= i < |b| ==> (a + b)[|a| + i] == b[i];
  }

  lemma SplitFold(before: seq<Event>, whole: Event, first: Event, second: Event, after: seq<Event>)
    requires Splits(whole, first, second)
    ensures var start := Fold(EMPTY, NO_RESPONSE);
      Alike(StepAll(start, before + [whole] + after), StepAll(start, before + [first, second] + after))
      || (StepAll(start, before + [whole] + after).Err? && ConflictedOrErr(StepAll(start, before + [first, second] + after)))
      || (StepAll(start, before + [first, second] + after).Err? && ConflictedOrErr(StepAll(start, before + [whole] + after)))
  {
    hide StepAll, Splits, Tidy, Extends, Conflicted;
    var start := Fold(EMPTY, NO_RESPONSE);
    EmptyTidy();
    StepsConcat(start, before + [whole], after);
    StepsConcat(start, before + [first, second], after);
    StepsConcat(start, before, [whole]);
    StepsConcat(start, before, [first, second]);
    if StepAll(start, before).Ok? {
      StepsTidy(start, before);
      var mid := StepAll(start, before).value;
      SplitStep(mid, whole, first, second);
      var one, two := StepAll(mid, [whole]), StepAll(mid, [first, second]);
      if one != two {
        StepsTidy(mid, [whole]);
        StepsTidy(mid, [first, second]);
        StaysConflicted(one.value, after);
        StaysConflicted(two.value, after);
      }
    }
  }

  predicate ConflictedOrErr(r: Result<Fold, Error>) {
    r.Err? || Conflicted(r.value.bench)
  }

  lemma StaysConflicted(f: Fold, events: seq<Event>)
    requires Ready(f) && Tidy(f.bench) && Conflicted(f.bench)
    ensures ConflictedOrErr(StepAll(f, events))
  {
    hide StepAll, Tidy, Conflicted, Extends;
    if StepAll(f, events).Ok? {
      StepsTidy(f, events);
      StillConflicted(f.bench, StepAll(f, events).value.bench);
    }
  }

  /** Splitting a text delta, or a fragment of an identified call's arguments, into two
      adjacent ones does not change the response. */
  lemma SplittingIsInvisible(t: Text, before: seq<Event>, whole: Event, first: Event, second: Event, after: seq<Event>, requireTerminal: bool)
    requires Splits(whole, first, second)
    ensures var one, two := Normalize(t, before + [whole] + after, requireTerminal), Normalize(t, before + [first, second] + after, requireTerminal);
      one == two || (one.Err? && two.Err?)
  {
    hide StepAll, Finish, Conflicted, Splits, TerminalLast, HasTerminal;
    SplitTerminals(before, whole, first, second, after);
    SplitFold(before, whole, first, second, after);
    var start := Fold(EMPTY, NO_RESPONSE);
    var one, two := StepAll(start, before + [whole] + after), StepAll(start, before + [first, second] + after);
    if one.Ok? && Conflicted(one.value.bench) {
      ConflictFails(t, one.value);
    }
    if two.Ok? && Conflicted(two.value.bench) {
      ConflictFails(t, two.value);
    }
  }
}
