/**
 Normalisation as the program runs it: one pass over the events, updating builders,
 bindings and content in place.
 */
module NormalizerProcedures {
  import opened Wrappers
  import opened TokenUsage
  import opened CallBuilders
  import opened EventNormalizer

  class Normalizer {
    var builders: seq<Builder>
    var byId: map<string, nat>
    var byIndex: map<int, nat>
    var response: Response

    constructor ()
      ensures Now() == Fold(EMPTY, NO_RESPONSE)
    {
      builders, byId, byIndex, response := [], map[], map[], NO_RESPONSE;
    }

    function Now(): Fold
      reads this
    {
      Fold(Bench(builders, byId, byIndex), response)
    }

    method EnsureToolCallBuilder(id: string, index: Option<int>) returns (at: nat)
      requires Wired(Now().bench)
      modifies `builders, `byId, `byIndex
      ensures (at, Now().bench) == Ensure(old(Now().bench), id, index)
    {
      Bound(Now().bench, id, if index.Some? then index.value else 0);
      if id != "" && id in byId {
        at := byId[id];
        if index.Some? {
          if (index.value in byIndex && byIndex[index.value] != at) || (builders[at].index.Some? && builders[at].index.value != index.value) {
            builders := builders[at := builders[at].(conflict := true)];
          } else {
            builders := builders[at := builders[at].(index := index)];
            byIndex := byIndex[index.value := at];
          }
        }
        return;
      }
      if index.Some? && index.value in byIndex {
        at := byIndex[index.value];
        if id != "" {
          if builders[at].id != "" && builders[at].id != id {
            builders := builders[at := builders[at].(conflict := true)];
          } else {
            builders := builders[at := builders[at].(id := id)];
            byId := byId[id := at];
          }
        }
        return;
      }
      at := |builders|;
      builders := builders + [Builder(id, index, "", "", false, false, false)];
      if id != "" {
        byId := byId[id := at];
      }
      if index.Some? {
        byIndex := byIndex[index.value := at];
      }
    }

    /** False when the call has been completed before. */
    method ApplyToolCallEvent(call: Mention) returns (ok: bool)
      requires Wired(Now().bench) && call.Complete?
      modifies `builders, `byId, `byIndex
      ensures ok == Apply(old(Now().bench), call).Some?
      ensures ok ==> Now().bench == Apply(old(Now().bench), call).value
    {
      hide Ensure;
      var at := EnsureToolCallBuilder(call.id, None);
      var builder := builders[at];
      if builder.fullSeen {
        return false;
      }
      builder := builder.(fullSeen := true);
      if call.id != "" {
        builder := builder.(id := call.id);
      }
      if call.name != "" {
        builder := builder.(name := call.name);
      }
      if call.arguments != "" {
        builder := builder.(arguments := call.arguments, fullArguments := true);
      }
      builders := builders[at := builder];
      ok := true;
    }

    method ApplyToolCallDelta(delta: Mention)
      requires Wired(Now().bench) && delta.Fragment?
      modifies `builders, `byId, `byIndex
      ensures Apply(old(Now().bench), delta) == Some(Now().bench)
    {
      hide Ensure;
      var at := EnsureToolCallBuilder(delta.id, delta.index);
      var builder := builders[at];
      if builder.fullArguments {
        assert builders[at := builder] == builders;
        return;
      }
      if delta.id != "" {
        builder := builder.(id := delta.id);
      }
      if delta.index.Some? {
        builder := builder.(index := delta.index);
      }
      if delta.name != "" {
        builder := builder.(name := delta.name);
      }
      builder := builder.(arguments := builder.arguments + delta.arguments);
      builders := builders[at := builder];
    }

    method AppendPartText(kind: PartKind, text: string, signature: string)
      modifies `response
      ensures response == old(response).(parts := AppendText(old(response).parts, kind, text, signature))
    {
      if text == "" && signature == "" {
        return;
      }
      var parts := response.parts;
      if |parts| > 0 {
        var last := parts[|parts| - 1];
        if last.kind == kind && last.data == "" {
          last := last.(text := last.text + text);
          if signature != "" {
            last := last.(signature := signature);
          }
          response := response.(parts := parts[|parts| - 1 := last]);
          return;
        }
      }
      response := response.(parts := parts + [Part(kind, text, signature, "")]);
    }

    method ProcessContent(e: Event)
      modifies `response
      ensures response == StepResponse(old(response), e)
    {
      hide TokenUsage.Add, AppendText;
      response := response.(usage := TokenUsage.Add(response.usage, e.usage));
      match e.body {
        case TextDelta(kind, text) =>
          response := response.(text := response.text + text);
          AppendPartText(kind, text, "");
        case ThinkingDelta(thinking, signature, redacted) =>
          response := response.(thinking := response.thinking + thinking);
          AppendPartText(Reasoning, thinking, signature);
          if signature != "" {
            response := response.(signature := signature);
          }
          if redacted != "" {
            response := response.(redacted := redacted, parts := response.parts + [Part(RedactedReasoning, "", "", redacted)]);
          }
        case Done =>
          if e.usage != ZERO {
            response := response.(usage := e.usage);
          }
        case _ =>
      }
    }

    method ProcessEvent(e: Event) returns (error: Option<Error>)
      requires Ready(Now())
      modifies this
      ensures match Step(old(Now()), e)
        case Err(err) => error == Some(err)
        case Ok(f) => error == None && Now() == f
    {
      hide Apply, StepResponse;
      NothingApplied(Now().bench);
      ProcessContent(e);
      match e.body {
        case ToolCall(complete) =>
          if complete.Some? && complete.value.Complete? {
            OneApplied(Now().bench, complete.value);
            var ok := ApplyToolCallEvent(complete.value);
            if !ok {
              return Some(DuplicateCall);
            }
          }
        case ToolCallDelta(delta) =>
          if delta.Some? && delta.value.Fragment? {
            OneApplied(Now().bench, delta.value);
            ApplyToolCallDelta(delta.value);
          }
        case ErrorEvent => return Some(ProviderError);
        case _ =>
      }
      error := None;
    }
  }

  /** Whether there is no second terminal event and none is followed by another event. */
  method ValidateTerminalSequence(events: seq<Event>, requireTerminal: bool) returns (ok: bool)
    ensures ok == (TerminalLast(events) && (requireTerminal ==> HasTerminal(events)))
  {
    var terminal := -1;
    for index := 0 to |events|
      invariant -1 <= terminal < index
      invariant terminal >= 0 ==> terminal == index - 1 && IsTerminal(events[terminal])
      invariant forall i :: 0 <= i < index && i != terminal ==> !IsTerminal(events[i])
    {
      if terminal >= 0 {
        assert index - 1 < |events| - 1 && IsTerminal(events[index - 1]);
        return false;
      }
      if IsTerminal(events[index]) {
        terminal := index;
      }
    }
    ok := !(requireTerminal && terminal < 0);
  }

  method FinalizeToolCalls(t: Text, f: Fold) returns (r: Result<Response, Error>)
    ensures r == Finish(t, f)
  {
    var builders := f.bench.builders;
    if |builders| > MAX_CALLS {
      return Err(TooMany);
    }
    var calls: seq<Call>, invalid := [], false;
    assert builders[0..] == builders;
    for k := 0 to |builders|
      invariant FirstFault(t, builders) == FirstFault(t, builders[k..])
      invariant invalid <==> exists i :: 0 <= i < k && BadArguments(t, builders[i])
      invariant !invalid ==> calls == Calls(builders)[..k]
    {
      assert builders[k..][1..] == builders[k + 1..];
      var builder := builders[k];
      if builder.conflict {
        return Err(IdentityConflict);
      }
      if t.blank(builder.id) {
        return Err(MissingId);
      }
      if BadArguments(t, builder) {
        invalid := true;
      } else if !invalid {
        calls := calls + [CallOf(builder)];
      }
    }
    assert builders[|builders|..] == [] && Calls(builders)[..|builders|] == Calls(builders);
    r := if invalid then Err(InvalidArguments) else Ok(f.response.(calls := calls));
  }

  method NormalizeEvents(t: Text, events: seq<Event>, requireTerminal: bool) returns (r: Result<Response, Error>)
    ensures r == Normalize(t, events, requireTerminal)
  {
    hide Step, Finish, TerminalLast, HasTerminal;
    var ordered := ValidateTerminalSequence(events, false);
    if !ordered {
      return Err(Terminal);
    }
    var normalizer := new Normalizer();
    assert events[0..] == events;
    for k := 0 to |events|
      invariant fresh(normalizer) && Ready(normalizer.Now())
      invariant StepAll(Fold(EMPTY, NO_RESPONSE), events) == StepAll(normalizer.Now(), events[k..])
    {
      assert events[k..][1..] == events[k + 1..];
      var error := normalizer.ProcessEvent(events[k]);
      if error.Some? {
        return Err(error.value);
      }
    }
    assert events[|events|..] == [];
    if requireTerminal {
      var terminated := ValidateTerminalSequence(events, true);
      if !terminated {
        return Err(Terminal);
      }
    }
    r := FinalizeToolCalls(t, normalizer.Now());
  }
}
