/** How each change the loop makes to its transcript moves the transcript analysis. */
module LoopTranscript {
  import opened Wrappers
  import opened Messages
  import opened TokenUsage
  import opened Continuations
  import opened AgentLoop
  import History

  /** Input and instruction messages: neither model output nor tool evidence. */
  predicate Plain(m: Message) {
    !m.role.Assistant? && !m.role.Tool? && m.toolCalls == []
  }

  /** A transcript with no open tool turn whose assistants made exactly these calls, all of
      them before operation turn `turn`. */
  predicate Settled(ms: seq<Message>, calls: seq<seq<ToolCall>>, turn: int) {
    && Analyze(ms).Some?
    && Analyze(ms).value.unanswered == []
    && Analyze(ms).value.calls == calls
    && NextToolTurn(ms) <= turn
  }

  lemma {:induction false} NextTurnConcat(a: seq<Message>, b: seq<Message>)
    ensures NextToolTurn(a + b) == Max(NextToolTurn(a), NextToolTurn(b))
    decreases |b|
  {
    if b == [] {
      assert a + b == a;
    } else {
      var n := |b| - 1;
      assert (a + b)[..|a + b| - 1] == a + b[..n];
      NextTurnConcat(a, b[..n]);
    }
  }

  lemma SingleTurn(m: Message)
    ensures NextToolTurn([m]) == LastTurn(m.toolCalls) + 1
  {
    assert [m][..0] == [];
  }

  lemma StepTurn(s: Scan, m: Message)
    requires ScanStep(s, m).Some?
    ensures ScanStep(s, m).value.lastTurn <= Max(s.lastTurn, LastTurn(m.toolCalls))
  {
  }

  /** No assistant turn lies at or past the next operation turn. */
  lemma {:induction false} LastTurnBelowNext(s: Scan, ms: seq<Message>)
    requires ScanAll(s, ms).Some?
    ensures ScanAll(s, ms).value.lastTurn <= Max(s.lastTurn, NextToolTurn(ms) - 1)
    decreases |ms|
  {
    hide ScanStep, NextToolTurn, LastTurn;
    if ms != [] {
      StepTurn(s, ms[0]);
      LastTurnBelowNext(ScanStep(s, ms[0]).value, ms[1..]);
      assert ms == [ms[0]] + ms[1..];
      NextTurnConcat([ms[0]], ms[1..]);
      SingleTurn(ms[0]);
    }
  }

  lemma {:induction false} AppendPlain(ms: seq<Message>, calls: seq<seq<ToolCall>>, turn: int, inputs: seq<Message>)
    requires Settled(ms, calls, turn)
    requires forall m | m in inputs :: Plain(m)
    ensures Settled(ms + inputs, calls, turn)
    decreases |inputs|
  {
    hide NextToolTurn, ScanAll;
    if inputs == [] {
      assert ms + inputs == ms;
    } else {
      assert inputs[0] in inputs;
      AnalyzeAppend(ms, inputs[0]);
      NextTurnConcat(ms, [inputs[0]]);
      NoCallsNoTurn(inputs[0]);
      AppendPlain(ms + [inputs[0]], calls, turn, inputs[1..]);
      assert ms + inputs == ms + [inputs[0]] + inputs[1..];
    }
  }

  lemma NoCallsNoTurn(m: Message)
    requires m.toolCalls == []
    ensures NextToolTurn([m]) == 0
  {
    assert [m][..0] == [];
  }

  lemma AppendAnswer(ms: seq<Message>, calls: seq<seq<ToolCall>>, turn: int, m: Message)
    requires Settled(ms, calls, turn)
    requires m.role.Assistant? && m.toolCalls == []
    ensures Settled(ms + [m], calls + [[]], turn)
    ensures !Analyze(ms + [m]).value.endsWithResults
  {
    AnalyzeAppend(ms, m);
    NextTurnConcat(ms, [m]);
    NoCallsNoTurn(m);
  }

  lemma {:induction false} NumberedLastTurn(calls: seq<ToolCall>, turn: int)
    requires 0 <= turn && Numbered(calls, turn)
    ensures LastTurn(calls) == if calls == [] then -1 else turn
  {
    if calls != [] {
      NumberedLastTurn(calls[..|calls| - 1], turn);
    }
  }

  /** Opening a tool turn. */
  lemma AppendCalls(ms: seq<Message>, calls: seq<seq<ToolCall>>, turn: int, m: Message)
    requires Settled(ms, calls, turn) && 0 <= turn
    requires m.role.Assistant? && m.toolCalls != [] && WellNamed(m.toolCalls) && Numbered(m.toolCalls, turn)
    ensures var scan := Analyze(ms + [m]);
      && scan.Some? && scan.value.unanswered == m.toolCalls && scan.value.calls == calls + [m.toolCalls]
    ensures NextToolTurn(ms + [m]) <= turn + 1
  {
    AnalyzeAppend(ms, m);
    NextTurnConcat(ms, [m]);
    NumberedLastTurn(m.toolCalls, turn);
    assert [m][..0] == [];
  }

  predicate AnswersInOrder(calls: seq<ToolCall>, results: seq<ToolResult>) {
    |results| == |calls| && forall k :: 0 <= k < |calls| ==> results[k].callId == calls[k].id
  }

  lemma {:induction false} ScanResults(s: Scan, results: seq<ToolResult>)
    requires AnswersInOrder(s.unanswered, results)
    ensures ScanAll(s, ResultMessages(results)) ==
      Some(if results == [] then s else s.(unanswered := [], endsWithResults := true))
    decreases |results|
  {
    if results != [] {
      var ms := ResultMessages(results);
      assert ms[1..] == ResultMessages(results[1..]);
      ScanResults(ScanStep(s, ms[0]).value, results[1..]);
    }
  }

  lemma {:induction false} ResultsCarryNoTurn(results: seq<ToolResult>)
    ensures NextToolTurn(ResultMessages(results)) == 0
  {
    if results != [] {
      var ms := ResultMessages(results);
      assert ms[..|ms| - 1] == ResultMessages(results[..|results| - 1]);
      ResultsCarryNoTurn(results[..|results| - 1]);
    }
  }

  /** Closing a tool turn. */
  lemma AppendResults(ms: seq<Message>, turn: int, results: seq<ToolResult>)
    requires Analyze(ms).Some? && NextToolTurn(ms) <= turn && results != []
    requires AnswersInOrder(Analyze(ms).value.unanswered, results)
    ensures Settled(ms + ResultMessages(results), Analyze(ms).value.calls, turn)
    ensures Analyze(ms + ResultMessages(results)).value.endsWithResults
  {
    ScanConcat(START, ms, ResultMessages(results));
    ScanResults(Analyze(ms).value, results);
    NextTurnConcat(ms, ResultMessages(results));
    ResultsCarryNoTurn(results);
  }

  /* ---------- archiving ---------- */

  /** A scan that starts between groups ends between groups on every group boundary. */
  lemma {:induction false} ScanGroup(s: Scan, g: seq<Message>)
    requires |g| == |s.unanswered|
    requires forall i :: 0 <= i < |g| ==> g[i].role.Tool?
    requires ScanAll(s, g).Some?
    ensures ScanAll(s, g).value.unanswered == []
    decreases |g|
  {
    if g != [] {
      ScanGroup(ScanStep(s, g[0]).value, g[1..]);
    }
  }

  lemma GroupShape(g: seq<Message>)
    requires History.ValidGroup(g)
    ensures g != [] && |g| == 1 + |g[0].toolCalls| && (g[0].toolCalls != [] ==> g[0].role.Assistant?) && !g[0].role.Tool?
    ensures forall i :: 0 <= i < |g[1..]| ==> g[1..][i].role.Tool?
  {
    var pi := History.AcceptedTurnIsPaired(g);
  }

  lemma ScanWholeGroup(s: Scan, g: seq<Message>)
    requires History.ValidGroup(g) && s.unanswered == [] && ScanAll(s, g).Some?
    ensures ScanAll(s, g).value.unanswered == []
  {
    GroupShape(g);
    hide History.ValidGroup;
    ScanGroup(ScanStep(s, g[0]).value, g[1..]);
  }

  lemma {:induction false} ScanAligned(s: Scan, ms: seq<Message>, k: nat)
    requires s.unanswered == [] && History.CompleteTurns(ms) && k <= |ms| && History.Aligned(ms, k)
    requires ScanAll(s, ms).Some?
    ensures ScanAll(s, ms[..k]).Some? && ScanAll(s, ms[..k]).value.unanswered == []
    decreases |ms|
  {
    hide History.ValidGroup, ScanStep;
    if k != 0 {
      var w := History.Width(ms);
      var g := ms[..w];
      ScanConcat(s, g, ms[w..]);
      assert ms == g + ms[w..];
      var mid := ScanAll(s, g).value;
      ScanWholeGroup(s, g);
      ScanAligned(mid, ms[w..], k - w);
      assert ms[..k] == g + ms[w..][..k - w];
      ScanConcat(s, g, ms[w..][..k - w]);
    }
  }

  lemma TailsSame(a: seq<Message>, b: seq<Message>)
    requires History.SameTranscript(a, b) && a != []
    ensures History.SameEvidence(a[0], b[0]) && History.SameTranscript(a[1..], b[1..])
  {
    forall i | 0 <= i < |a| - 1 ensures History.SameEvidence(a[1..][i], b[1..][i]) {
      assert History.SameEvidence(a[i + 1], b[i + 1]);
    }
  }

  lemma {:induction false} ScanIgnoresFlags(s: Scan, a: seq<Message>, b: seq<Message>)
    requires History.SameTranscript(a, b)
    ensures ScanAll(s, a) == ScanAll(s, b)
    decreases |a|
  {
    if a != [] {
      TailsSame(a, b);
      assert ScanStep(s, a[0]) == ScanStep(s, b[0]);
      hide ScanStep;
      if ScanStep(s, a[0]).Some? {
        ScanIgnoresFlags(ScanStep(s, a[0]).value, a[1..], b[1..]);
      }
    }
  }

  lemma {:induction false} TurnIgnoresFlags(a: seq<Message>, b: seq<Message>)
    requires History.SameTranscript(a, b)
    ensures NextToolTurn(a) == NextToolTurn(b)
    decreases |a|
  {
    hide LastTurn;
    if a != [] {
      TailsSame(a, b);
      TurnIgnoresFlags(a[1..], b[1..]);
      assert a == [a[0]] + a[1..] && b == [b[0]] + b[1..];
      NextTurnConcat([a[0]], a[1..]);
      NextTurnConcat([b[0]], b[1..]);
      SingleTurn(a[0]);
      SingleTurn(b[0]);
    }
  }

  /** Whether the transcript so far ended with results does not influence what follows. */
  lemma {:induction false} ScanForgetsEnd(s: Scan, ends: bool, ms: seq<Message>)
    ensures var other := ScanAll(s.(endsWithResults := ends), ms);
      && (ScanAll(s, ms).Some? <==> other.Some?)
      && (other.Some? ==> other.value == ScanAll(s, ms).value.(endsWithResults := other.value.endsWithResults))
    decreases |ms|
  {
    if ms != [] && ScanStep(s, ms[0]).Some? {
      ScanForgetsEnd(ScanStep(s, ms[0]).value, ScanStep(s, ms[0]).value.endsWithResults, ms[1..]);
      assert ScanStep(s.(endsWithResults := ends), ms[0]) == ScanStep(s, ms[0]);
    }
  }

  /** The flagged transcript scans like the original, and the splice point lies between turns. */
  lemma FlaggedSettled(before: seq<Message>, flagged: seq<Message>, k: nat, calls: seq<seq<ToolCall>>, turn: int)
    requires Settled(before, calls, turn) && History.CompleteTurns(before)
    requires History.SameTranscript(before, flagged) && k <= |before| && History.Aligned(before, k)
    ensures Settled(flagged, calls, turn)
    ensures Analyze(flagged[..k]).Some? && Analyze(flagged[..k]).value.unanswered == []
  {
    hide ScanAll, NextToolTurn, History.Aligned, History.CompleteTurns;
    ScanIgnoresFlags(START, before, flagged);
    TurnIgnoresFlags(before, flagged);
    assert History.SameTranscript(before[..k], flagged[..k]);
    ScanIgnoresFlags(START, before[..k], flagged[..k]);
    ScanAligned(START, before, k);
  }

  lemma ArchiveKeepsSettled(before: seq<Message>, after: seq<Message>, calls: seq<seq<ToolCall>>, turn: int)
    requires Settled(before, calls, turn) && History.CompleteTurns(before)
    requires History.ArchivesTo(before, after)
    ensures Settled(after, calls, turn)
  {
    hide Settled, History.CompleteTurns, History.Aligned, History.SameTranscript;
    if after != before {
      var flagged, k: nat, summary :| History.Splices(before, flagged, k, summary, after);
      assert |before| == |flagged| by { LengthsAgree(before, flagged); }
      FlaggedSettled(before, flagged, k, calls, turn);
      assert flagged == flagged[..k] + flagged[k..];
      InsertKeepsSettled(flagged[..k], summary, flagged[k..], calls, turn);
    }
  }

  lemma LengthsAgree(before: seq<Message>, flagged: seq<Message>)
    requires History.SameTranscript(before, flagged)
    ensures |before| == |flagged|
  {
  }

  /** A summary spliced in between two tool turns goes unnoticed. */
  lemma InsertKeepsSettled(a: seq<Message>, summary: Message, b: seq<Message>, calls: seq<seq<ToolCall>>, turn: int)
    requires Settled(a + b, calls, turn) && History.IsSummary(summary)
    requires Analyze(a).Some? && Analyze(a).value.unanswered == []
    ensures Settled(a + [summary] + b, calls, turn)
  {
    hide ScanAll, NextToolTurn;
    ScanConcat(START, a, b);
    AnalyzeAppend(a, summary);
    ScanConcat(START, a + [summary], b);
    ScanForgetsEnd(Analyze(a).value, false, b);
    NextTurnConcat(a, b);
    NextTurnConcat(a, [summary]);
    NextTurnConcat(a + [summary], b);
    NoCallsNoTurn(summary);
  }
}
