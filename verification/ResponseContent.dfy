/**
 What the text, the thinking, the content parts and the usage of a normalised response
 are, in terms of the events of its stream.
 */
module ResponseContent {
  import opened Wrappers
  import opened TokenUsage
  import opened CallBuilders
  import opened CallAssembly
  import opened EventNormalizer

  /** What the parts say, letter by letter, with the redacted blocks in their places. */
  datatype Piece = Letter(kind: PartKind, letter: char) | Block(data: string)

  function Letters(kind: PartKind, text: string): (pieces: seq<Piece>)
    ensures |pieces| == |text| && forall i :: 0 <= i < |text| ==> pieces[i] == Letter(kind, text[i])
  {
    seq(|text|, i requires 0 <= i < |text| => Letter(kind, text[i]))
  }

  function Blocks(data: string): seq<Piece> {
    if data == "" then [] else [Block(data)]
  }

  function Spread(parts: seq<Part>): seq<Piece> {
    if parts == [] then []
    else
      var last := parts[|parts| - 1];
      Spread(parts[..|parts| - 1]) + Letters(last.kind, last.text) + Blocks(last.data)
  }

  function TextIn(e: Event): string {
    if e.body.TextDelta? then e.body.text else ""
  }

  function ThinkingIn(e: Event): string {
    if e.body.ThinkingDelta? then e.body.thinking else ""
  }

  function PiecesIn(e: Event): seq<Piece> {
    match e.body
    case TextDelta(kind, text) => Letters(kind, text)
    case ThinkingDelta(thinking, _, redacted) => Letters(Reasoning, thinking) + Blocks(redacted)
    case _ => []
  }

  /** The texts of all events put together, and so on. */
  function TextOf(events: seq<Event>): string {
    if events == [] then "" else TextOf(events[..|events| - 1]) + TextIn(events[|events| - 1])
  }

  function ThinkingOf(events: seq<Event>): string {
    if events == [] then "" else ThinkingOf(events[..|events| - 1]) + ThinkingIn(events[|events| - 1])
  }

  function PiecesOf(events: seq<Event>): seq<Piece> {
    if events == [] then [] else PiecesOf(events[..|events| - 1]) + PiecesIn(events[|events| - 1])
  }

  function UsageOf(events: seq<Event>): Usage {
    if events == [] then ZERO else TokenUsage.Add(UsageOf(events[..|events| - 1]), events[|events| - 1].usage)
  }

  /** `value` is what the last event that says anything about it says. */
  ghost predicate LatestSignature(events: seq<Event>, value: string) {
    if value == "" then SilentSignature(events, 0)
    else exists k: nat :: SignatureAt(events, k, value)
  }

  predicate SignatureAt(events: seq<Event>, k: nat, value: string) {
    k < |events| && events[k].body.ThinkingDelta? && events[k].body.signature == value && SilentSignature(events, k + 1)
  }

  predicate SilentSignature(events: seq<Event>, start: nat) {
    forall i :: start <= i < |events| && events[i].body.ThinkingDelta? ==> events[i].body.signature == ""
  }

  ghost predicate LatestRedacted(events: seq<Event>, value: string) {
    if value == "" then SilentRedacted(events, 0)
    else exists k: nat :: RedactedAt(events, k, value)
  }

  predicate RedactedAt(events: seq<Event>, k: nat, value: string) {
    k < |events| && events[k].body.ThinkingDelta? && events[k].body.redacted == value && SilentRedacted(events, k + 1)
  }

  predicate SilentRedacted(events: seq<Event>, start: nat) {
    forall i :: start <= i < |events| && events[i].body.ThinkingDelta? ==> events[i].body.redacted == ""
  }

  /** No part could have been joined with the one before it. */
  predicate Joined(parts: seq<Part>) {
    forall i :: 0 < i < |parts| && parts[i].kind == parts[i - 1].kind && parts[i].data == "" ==> parts[i - 1].data != ""
  }

  /** The last event carries the final count of the whole response. */
  predicate Counted(events: seq<Event>) {
    events != [] && events[|events| - 1].body.Done? && events[|events| - 1].usage != ZERO
  }

  ghost predicate Says(events: seq<Event>, r: Response) {
    && r.text == TextOf(events) && r.thinking == ThinkingOf(events)
    && LatestSignature(events, r.signature) && LatestRedacted(events, r.redacted)
    && Spread(r.parts) == PiecesOf(events) && Joined(r.parts)
    && r.usage == (if Counted(events) then events[|events| - 1].usage else UsageOf(events))
  }

  lemma SpreadSnoc(parts: seq<Part>, part: Part)
    ensures Spread(parts + [part]) == Spread(parts) + Letters(part.kind, part.text) + Blocks(part.data)
  {
    assert (parts + [part])[..|parts|] == parts;
  }

  lemma SpreadGrown(before: seq<Part>, last: Part, text: string, signature: string)
    requires last.data == ""
    ensures Spread(before + [last.(text := last.text + text, signature := signature)])
      == Spread(before + [last]) + Letters(last.kind, text)
  {
    hide Spread;
    SpreadSnoc(before, last);
    SpreadSnoc(before, last.(text := last.text + text, signature := signature));
    LettersAdd(Spread(before), last.kind, last.text, text);
  }

  lemma LettersAdd(before: seq<Piece>, kind: PartKind, a: string, b: string)
    ensures (before + Letters(kind, a + b)) + [] == ((before + Letters(kind, a)) + []) + Letters(kind, b)
  {
    assert Letters(kind, a + b) == Letters(kind, a) + Letters(kind, b);
  }

  lemma SpreadAppended(parts: seq<Part>, kind: PartKind, text: string, signature: string)
    ensures Spread(AppendText(parts, kind, text, signature)) == Spread(parts) + Letters(kind, text)
    ensures Joined(parts) ==> Joined(AppendText(parts, kind, text, signature))
  {
    hide Spread;
    var spread := Spread(parts);
    if text == "" && signature == "" {
      assert spread + Letters(kind, text) == spread;
    } else if parts != [] && parts[|parts| - 1].kind == kind && parts[|parts| - 1].data == "" {
      var n := |parts| - 1;
      var last, grown := parts[n], AppendText(parts, kind, text, signature);
      assert parts == parts[..n] + [last] && grown == parts[..n] + [grown[n]];
      SpreadGrown(parts[..n], last, text, grown[n].signature);
    } else {
      SpreadSnoc(parts, Part(kind, text, signature, ""));
      assert (spread + Letters(kind, text)) + [] == spread + Letters(kind, text);
    }
  }

  lemma SpreadRedacted(parts: seq<Part>, data: string)
    requires data != ""
    ensures Spread(parts + [Part(RedactedReasoning, "", "", data)]) == Spread(parts) + Blocks(data)
    ensures Joined(parts) ==> Joined(parts + [Part(RedactedReasoning, "", "", data)])
  {
    SpreadSnoc(parts, Part(RedactedReasoning, "", "", data));
    assert Spread(parts) + Letters(RedactedReasoning, "") == Spread(parts);
  }

  lemma StepSpreads(r: Response, e: Event)
    ensures Spread(StepResponse(r, e).parts) == Spread(r.parts) + PiecesIn(e)
    ensures Joined(r.parts) ==> Joined(StepResponse(r, e).parts)
  {
    hide Spread, Joined, AppendText, TokenUsage.Add;
    match e.body
    case TextDelta(kind, text) => SpreadAppended(r.parts, kind, text, "");
    case ThinkingDelta(thinking, signature, redacted) =>
      SpreadAppended(r.parts, Reasoning, thinking, signature);
      var parts := AppendText(r.parts, Reasoning, thinking, signature);
      if redacted != "" {
        SpreadRedacted(parts, redacted);
        Associate(Spread(r.parts), Letters(Reasoning, thinking), Blocks(redacted));
      }
    case _ =>
      assert Spread(r.parts) + [] == Spread(r.parts);
  }

  lemma Associate(a: seq<Piece>, b: seq<Piece>, c: seq<Piece>)
    ensures (a + b) + c == a + (b + c)
  {
  }

  lemma StepSigns(events: seq<Event>, r: Response, e: Event)
    requires LatestSignature(events, r.signature)
    ensures LatestSignature(events + [e], StepResponse(r, e).signature)
  {
    var all, value := events + [e], StepResponse(r, e).signature;
    assert all[|events|] == e;
    if e.body.ThinkingDelta? && e.body.signature != "" {
      assert SignatureAt(all, |events|, value);
    } else if value != "" {
      var k: nat :| SignatureAt(events, k, value);
      assert SignatureAt(all, k, value);
    }
  }

  lemma StepRedacts(events: seq<Event>, r: Response, e: Event)
    requires LatestRedacted(events, r.redacted)
    ensures LatestRedacted(events + [e], StepResponse(r, e).redacted)
  {
    var all, value := events + [e], StepResponse(r, e).redacted;
    assert all[|events|] == e;
    if e.body.ThinkingDelta? && e.body.redacted != "" {
      assert RedactedAt(all, |events|, value);
    } else if value != "" {
      var k: nat :| RedactedAt(events, k, value);
      assert RedactedAt(all, k, value);
    }
  }

  lemma StepTells(events: seq<Event>, r: Response, e: Event)
    requires r.text == TextOf(events) && r.thinking == ThinkingOf(events)
    ensures StepResponse(r, e).text == TextOf(events + [e]) && StepResponse(r, e).thinking == ThinkingOf(events + [e])
  {
    hide AppendText, TokenUsage.Add;
    assert (events + [e])[..|events|] == events;
    assert r.text + "" == r.text && r.thinking + "" == r.thinking;
  }

  lemma StepCounts(events: seq<Event>, r: Response, e: Event)
    requires r.usage == UsageOf(events)
    ensures StepResponse(r, e).usage == (if Counted(events + [e]) then e.usage else UsageOf(events + [e]))
  {
    hide AppendText, TokenUsage.Add;
    assert (events + [e])[..|events|] == events;
  }

  /** One more event on top of a fold that is not over yet. */
  lemma StepSays(events: seq<Event>, r: Response, e: Event)
    requires Says(events, r) && !Counted(events)
    ensures Says(events + [e], StepResponse(r, e))
  {
    hide Spread, Joined, StepResponse, UsageOf, TextOf, ThinkingOf, PiecesIn, LatestSignature, LatestRedacted;
    assert (events + [e])[..|events|] == events;
    StepTells(events, r, e);
    StepCounts(events, r, e);
    StepSpreads(r, e);
    StepSigns(events, r, e);
    StepRedacts(events, r, e);
  }

  const START := Fold(EMPTY, NO_RESPONSE)

  lemma {:induction false} FoldSays(events: seq<Event>)
    requires TerminalLast(events) && StepAll(START, events).Ok?
    ensures Says(events, StepAll(START, events).value.response)
    ensures forall i :: 0 <= i < |events| ==> !events[i].body.ErrorEvent?
  {
    hide StepResponse, Says, Apply, ApplyAll, StepAll;
    if events == [] {
      NothingSaid();
    } else {
      var n := |events| - 1;
      var before, e := events[..n], events[n];
      assert events == before + [e];
      StepsConcat(START, before, [e]);
      FoldSays(before);
      OneStep(StepAll(START, before).value, e);
      if n > 0 {
        assert before[n - 1] == events[n - 1] && !IsTerminal(events[n - 1]);
      }
      StepSays(before, StepAll(START, before).value.response, e);
    }
  }

  lemma NothingSaid()
    ensures StepAll(START, []) == Ok(START) && Says([], NO_RESPONSE)
  {
  }

  /** A response that is returned says what its events say: all texts and all thinking in
      order, as a whole and as parts of maximal length, the latest signature, the redacted
      blocks in their places, and the usages added up unless the final event counts for all.
      The stream held no error event and nothing after its terminal event, which is there if
      it was asked for. */
  lemma ResponseSays(t: Text, events: seq<Event>, requireTerminal: bool)
    requires Normalize(t, events, requireTerminal).Ok?
    ensures Says(events, Normalize(t, events, requireTerminal).value)
    ensures forall i :: 0 <= i < |events| ==> !events[i].body.ErrorEvent? && (events[i].body.Done? ==> i == |events| - 1)
    ensures requireTerminal ==> events != [] && events[|events| - 1].body.Done?
  {
    hide StepAll, Says, FirstFault;
    FoldSays(events);
    var f := StepAll(START, events).value;
    CallsAside(events, f.response, Normalize(t, events, requireTerminal).value);
  }

  lemma CallsAside(events: seq<Event>, r: Response, called: Response)
    requires Says(events, r) && called == r.(calls := called.calls)
    ensures Says(events, called)
  {
  }
}
