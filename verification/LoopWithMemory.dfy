/**
 The loop with working memory as its compactor. What the loop's theorems assume about
 compactors at every state of a run is derived here from what the world answers.
 */
module LoopWithMemory {
  import opened Wrappers
  import opened Messages
  import opened TokenUsage
  import opened Continuations
  import opened AgentLoop
  import opened LoopTranscript
  import opened LoopLedger
  import opened LoopInvariant
  import opened LoopMemory
  import opened LoopResume
  import History
  import WorkingMemory
  import ArchiveProofs
  import WorkingMemoryGuarantees

  /* ---------- histories memory can work on ---------- */

  /** A message that is a group of its own. */
  predicate Standing(m: Message) {
    !m.role.Tool? && m.toolCalls == [] && m.toolResult.None?
  }

  lemma {:induction false} CompletePrefix(a: seq<Message>, b: seq<Message>)
    requires History.CompleteTurns(a + b) && b != [] && !b[0].role.Tool?
    ensures History.CompleteTurns(a)
    decreases |a|
  {
    hide History.ValidGroup;
    if a != [] {
      var ms := a + b;
      var w := History.Width(ms);
      if w > |a| {
        ArchiveProofs.ResultsAreTools(ms[..w], |a|);
      } else {
        assert History.Width(a) == w && a[..w] == ms[..w] && ms[w..] == a[w..] + b;
        CompletePrefix(a[w..], b);
      }
    }
  }

  lemma AppendWhole(a: seq<Message>, b: seq<Message>)
    requires WholeGroups(a) && History.CompleteTurns(b) && ArchiveProofs.Uniform(b)
    requires b == [] || !b[0].role.Tool?
    ensures WholeGroups(a + b)
  {
    hide History.CompleteTurns, ArchiveProofs.Uniform;
    if b == [] {
      assert a + b == a;
    } else if History.CompleteTurns(a + b) {
      CompletePrefix(a, b);
      ArchiveProofs.UniformConcat(a, b);
    }
  }

  lemma {:induction false} AllStanding(ms: seq<Message>)
    requires forall m | m in ms :: Standing(m)
    ensures History.CompleteTurns(ms) && ArchiveProofs.Uniform(ms)
  {
    if ms != [] {
      AllStanding(ms[1..]);
      assert Standing(ms[0]) && ms[..1] == [ms[0]];
    }
  }

  lemma AppendStanding(a: seq<Message>, b: seq<Message>)
    requires WholeGroups(a) && forall m | m in b :: Standing(m)
    ensures WholeGroups(a + b)
  {
    hide WholeGroups;
    AllStanding(b);
    assert b != [] ==> Standing(b[0]);
    AppendWhole(a, b);
  }

  lemma ToolGroup(assistant: Message, results: seq<ToolResult>)
    requires assistant.role.Assistant? && assistant.toolResult.None? && !assistant.archived && assistant.toolCalls != []
    requires AnswersInOrder(assistant.toolCalls, results)
    requires forall c | c in assistant.toolCalls :: c.id != ""
    requires forall i, j :: 0 <= i < j < |assistant.toolCalls| ==> assistant.toolCalls[i].id != assistant.toolCalls[j].id
    ensures History.CompleteTurns([assistant] + ResultMessages(results)) && ArchiveProofs.Uniform([assistant] + ResultMessages(results))
  {
    var calls, tail := assistant.toolCalls, ResultMessages(results);
    var g, open := [assistant] + tail, History.Fresh(|calls|);
    var pi := seq(|calls|, i requires 0 <= i < |calls| => i as nat);
    forall i | 0 <= i < |tail| ensures History.Fits(calls, open, tail[i], pi[i]) {
      assert calls[i] in calls;
    }
    assert History.NamelessLast(tail) by {
      assert forall i :: 0 <= i < |tail| ==> calls[i] in calls && History.ResultId(tail[i]) != "";
    }
    History.NamelessLastAccepted(calls, open, tail, pi);
    assert g[1..] == tail && g[..|g|] == g && g[|g|..] == [];
    assert History.Width(g) == |g|;
    assert History.CompleteTurns(g[|g|..]) && ArchiveProofs.Uniform(g[|g|..]);
  }

  /** The answer leaves tool groups unarchived and puts no result where none belongs. */
  predicate Wholesome(answer: ModelAnswer) {
    (answer.Replied? ==> answer.assistant.toolResult.None? && (answer.assistant.toolCalls != [] ==> !answer.assistant.archived))
    && (answer.Interrupted? ==> answer.assistant.toolResult.None?)
  }

  /** The same for all that a pass adds, and the verdict leaves one answer for each step. */
  predicate MessagesOk(a: Answers) {
    && (forall m | m in a.inputs :: m.toolResult.None?)
    && Wholesome(a.first) && Wholesome(a.second)
    && VerdictOk(a.verdict)
    && (match a.verdict
        case Accept(output) => output.toolResult.None?
        case Retry(_, replacement, messages) => forall m | m in replacement + messages :: m.toolResult.None?
        case Block => true)
  }

  /* ---------- what memory costs ---------- */

  ghost predicate ConsistentCosts(m: WorkingMemory.Memory) {
    forall stale: seq<Message> :: Consistent(m.summarize(stale).usage)
  }

  ghost predicate Free(m: WorkingMemory.Memory) {
    forall stale: seq<Message> :: m.summarize(stale).usage.total == 0
  }

  /** No child agent has spent anything: all usage is model usage or context work. */
  predicate Childless(s: State) {
    s.usage == Add(ModelUsage(s.steps, |s.steps|), s.context)
  }

  /** Either summaries cost nothing or no child agents spend. */
  ghost predicate Steady(m: WorkingMemory.Memory, s: State) {
    WholeGroups(s.messages) && (Free(m) || Childless(s))
  }

  ghost predicate ChildOk(m: WorkingMemory.Memory, a: Answers) {
    Free(m) || a.tools.childUsage == ZERO
  }

  /** The older interface of working memory: it compacts to a default target of its own. */
  function LegacyCompactor(m: WorkingMemory.Memory, target: int): Compactor {
    (history: seq<Message>, _: int, freshInputs: nat) =>
      if target <= 0 then Compacted(history, ZERO) else MemoryCompactor(m)(history, target, freshInputs)
  }

  /** Working memory of default target `d` is what compacts, through both interfaces. */
  ghost predicate MemoryDriven(cfg: Config, m: WorkingMemory.Memory, d: int) {
    && cfg.compactTo == Some(MemoryCompactor(m))
    && (cfg.compact.None? || cfg.compact == Some(LegacyCompactor(m, d)))
  }

  ghost predicate IsMemory(compactor: Compactor, m: WorkingMemory.Memory, d: int) {
    compactor == MemoryCompactor(m) || compactor == LegacyCompactor(m, d)
  }

  lemma DrivenByMemory(cfg: Config, m: WorkingMemory.Memory, d: int, s: State)
    requires MemoryDriven(cfg, m, d)
    ensures CompactionFor(cfg, s).Some? ==> IsMemory(CompactionFor(cfg, s).value, m, d)
    ensures OverflowCompactor(cfg).Some? ==> IsMemory(OverflowCompactor(cfg).value, m, d)
  {
  }

  lemma CompactCosts(m: WorkingMemory.Memory, history: seq<Message>, target: int, freshInputs: nat)
    requires ConsistentCosts(m)
    ensures var usage := WorkingMemory.Compact(m, history, target, freshInputs).usage;
      Consistent(usage) && (Free(m) ==> usage.total == 0)
  {
    hide History.CompleteTurns, History.ContextView, WorkingMemory.ArchiveFlags, WorkingMemory.Archive;
  }

  lemma SteadyFits(m: WorkingMemory.Memory, s: State, summary: Usage)
    requires Steady(m, s) && (Free(m) ==> summary.total == 0)
    ensures ContextWorkFits(s, CallsOf(s), summary)
  {
    hide WholeGroups, Free, CallsOf, Add, ModelUsage;
  }

  /** On such a state working memory, through either interface, is a compactor the loop's
      invariant survives. */
  lemma MemoryOk(m: WorkingMemory.Memory, d: int, s: State, compactor: Compactor, target: int, freshInputs: nat)
    requires Steady(m, s) && ConsistentCosts(m) && IsMemory(compactor, m, d)
    ensures CompactorOk(s, compactor, target, freshInputs)
  {
    hide WorkingMemory.Compact, History.ArchivesTo, ContextWorkFits, Consistent, WholeGroups, ConsistentCosts, Free, Childless;
    var aim := if compactor == MemoryCompactor(m) then target else d;
    CompactCosts(m, s.messages, aim, freshInputs);
    SteadyFits(m, s, WorkingMemory.Compact(m, s.messages, aim, freshInputs).usage);
    SteadyFits(m, s, ZERO);
    MemoryIsCompactor(s, m, aim, freshInputs);
    ArchivesToItself(s.messages);
  }

  lemma ArchivesToItself(ms: seq<Message>)
    ensures History.ArchivesTo(ms, ms) && Consistent(ZERO)
  {
  }

  lemma CompactWhole(m: WorkingMemory.Memory, history: seq<Message>, target: int, freshInputs: nat)
    requires WholeGroups(history) && WorkingMemory.Compact(m, history, target, freshInputs).result.Ok?
    ensures WholeGroups(WorkingMemory.Compact(m, history, target, freshInputs).result.value)
  {
    hide WorkingMemory.Compact, History.CompleteTurns, ArchiveProofs.Uniform, WorkingMemory.Archive, WorkingMemory.ArchiveFlags, History.ContextView;
    CompactNeedsComplete(m, history, target, freshInputs);
    if WorkingMemory.Archives(m, history, target, freshInputs) {
      var summary := WorkingMemoryGuarantees.CompactArchives(m, history, target, freshInputs);
      WorkingMemoryGuarantees.ArchiveIsSound(m, history, freshInputs, summary);
    }
  }

  /* ---------- the parts of a pass ---------- */

  lemma AccountChildless(s: State, summary: Usage)
    requires Childless(s)
    ensures Childless(AccountContext(s, summary))
  {
    hide Add;
    UsagePrefix(AccountContext(s, summary).steps, s.steps, |s.steps|);
    AddAssociative(ModelUsage(s.steps, |s.steps|), s.context, summary);
  }

  lemma CompressSteady(m: WorkingMemory.Memory, d: int, s: State, compactor: Compactor, target: int, freshInputs: nat)
    requires Steady(m, s) && IsMemory(compactor, m, d)
    ensures var (ok, next) := Compress(s, compactor, target, freshInputs); ok ==> Steady(m, next)
  {
    hide WholeGroups, Free, WorkingMemory.Compact, History.CompleteTurns, AccountContext, Childless;
    var r := compactor(s.messages, target, freshInputs);
    if Childless(s) {
      AccountChildless(s, r.summary);
      ChildlessIgnoresMessages(AccountContext(s, r.summary), if r.Compacted? then r.messages else s.messages);
    }
    var aim := if compactor == MemoryCompactor(m) then target else d;
    if WorkingMemory.Compact(m, s.messages, aim, freshInputs).result.Ok? {
      CompactWhole(m, s.messages, aim, freshInputs);
    }
  }

  lemma ChildlessIgnoresMessages(s: State, messages: seq<Message>)
    requires Childless(s)
    ensures Childless(s.(messages := messages))
  {
  }

  lemma AdmitSteady(m: WorkingMemory.Memory, s: State, inputs: seq<Message>)
    requires Steady(m, s) && forall x | x in inputs :: Plain(x) && x.toolResult.None?
    ensures Steady(m, Admit(s, inputs))
  {
    hide WholeGroups, Free, Add;
    AppendStanding(s.messages, inputs);
    UsagePrefix(Admit(s, inputs).steps, s.steps, |s.steps|);
  }

  lemma InputsStand(a: Answers)
    requires AnswersOk(a) && MessagesOk(a)
    ensures forall x | x in a.inputs :: Plain(x) && x.toolResult.None?
  {
  }

  lemma OpenSteady(cfg: Config, m: WorkingMemory.Memory, d: int, s: State, inputs: seq<Message>)
    requires MemoryDriven(cfg, m, d) && Steady(m, s) && forall x | x in inputs :: Plain(x) && x.toolResult.None?
    ensures var ready := Open(cfg, s, inputs).outcome; ready.Running? ==> Steady(m, ready.s)
  {
    hide Steady, MemoryDriven, Admit, Compress, ValidContinuation, Plain, CompactionFor, IsMemory;
    var admitted := Admit(s, inputs);
    AdmitSteady(m, s, inputs);
    DrivenByMemory(cfg, m, d, admitted);
    if CompactionFor(cfg, admitted).Some? {
      CompressSteady(m, d, admitted, CompactionFor(cfg, admitted).value, cfg.contextTarget, |inputs|);
    }
  }

  lemma AskSteady(cfg: Config, m: WorkingMemory.Memory, d: int, s: State, a: Answers)
    requires MemoryDriven(cfg, m, d) && Steady(m, s)
    ensures var (asked, answer) := Ask(cfg, s, a);
      && (answer.Replied? || answer.Interrupted? || answer.InterruptedUnopened? ==> Steady(m, asked))
      && (MessagesOk(a) ==> Wholesome(answer))
  {
    hide Steady, MemoryDriven, Compress, OverflowCompactor, IsMemory;
    DrivenByMemory(cfg, m, d, s);
    if OverflowCompactor(cfg).Some? {
      CompressSteady(m, d, s, OverflowCompactor(cfg).value, Max(1, cfg.contextTarget * 3 / 4), |a.inputs|);
    }
  }

  /** One more step, whose usage is added to the totals. */
  lemma StepChildless(s: State, step: Step, u: Usage, next: State)
    requires Childless(s) && step.call.Some? && step.call.value.usage == u
    requires next.steps == s.steps + [step] && next.usage == Add(s.usage, u) && next.context == s.context
    ensures Childless(next)
  {
    hide Add;
    var model := ModelUsage(s.steps, |s.steps|);
    UsageSnoc(s.steps, step);
    AddAssociative(model, s.context, u);
    AddCommutative(s.context, u);
    AddAssociative(model, u, s.context);
  }

  /** Changing the last step in anything but its model call. */
  lemma MapChildless(s: State, step: Step, next: State)
    requires Childless(s) && s.steps != [] && step.call == LastStep(s).call
    requires next.steps == MapLast(s.steps, step) && next.usage == s.usage && next.context == s.context
    ensures Childless(next)
  {
    hide Add;
    UsagePrefix(next.steps, s.steps, |s.steps|);
  }

  lemma UsageStays(s: State)
    requires Childless(s)
    ensures Add(s.usage, ZERO) == s.usage
  {
    AddClosed(ModelUsage(s.steps, |s.steps|), s.context);
    AddZero(s.usage);
  }

  lemma InterruptedSteady(m: WorkingMemory.Memory, s: State, assistant: Message, usage: Usage, stop: StopReason)
    requires Steady(m, s) && assistant.role.Assistant? && assistant.toolResult.None?
    ensures Steady(m, RecordInterrupted(s, assistant, usage, stop))
  {
    var next := RecordInterrupted(s, assistant, usage, stop);
    hide WholeGroups, Free, Add, Childless;
    AppendStanding(s.messages, [next.messages[|s.messages|]]);
    if Childless(s) {
      if usage == ZERO {
        UsageStays(s);
      }
      StepChildless(s, LastStep(next), usage, next);
    }
  }

  lemma PauseSteady(cfg: Config, m: WorkingMemory.Memory, s: State, assistant: Message, usage: Usage, steer: bool)
    requires Steady(m, s) && assistant.role.Assistant? && assistant.toolCalls == [] && assistant.toolResult.None?
    ensures var counted := s.(turn := s.turn + 1, usage := Add(s.usage, usage));
      var r := PauseTurn(cfg, counted, assistant, ModelCall(usage, Pause), steer).outcome;
      r.Running? ==> Steady(m, r.s)
  {
    hide WholeGroups, Free, Add, Childless, ValidContinuation, ConsecutivePauses;
    var counted := s.(turn := s.turn + 1, usage := Add(s.usage, usage));
    var step := NewStep(counted, ModelCall(usage, Pause), Continue).(observations := [PauseContinuation]);
    var next := counted.(messages := s.messages + [assistant], steps := s.steps + [step]);
    AppendStanding(s.messages, [assistant]);
    if Childless(s) {
      StepChildless(s, step, usage, next);
    }
  }

  lemma SettleWhole(cfg: Config, s: State, base: seq<Message>, assistant: Message, stop: StopReason, a: Answers)
    requires WholeGroups(base) && s.steps != [] && Standing(assistant) && MessagesOk(a)
    ensures var r := Settle(cfg, s, base, assistant, stop, a); r.Running? ==> WholeGroups(r.s.messages)
  {
    hide WholeGroups, Wholesome, RecoveryCount;
    AppendStanding(base, []);
    assert base + [] == base;
    match a.verdict
    case Block =>
    case Retry(includeRejected, replacement, messages) =>
      AppendStanding(base, [assistant]);
      var rejected := if includeRejected then AppendFinal(base, assistant) else base;
      AppendStanding(rejected, replacement + messages);
      assert rejected + (replacement + messages) == rejected + replacement + messages;
    case Accept(output) =>
      AppendStanding(base, [output]);
      AppendStanding(AppendFinal(base, output), [NewText(User, cfg.correction(output.recovery))]);
  }

  lemma SettleChildless(cfg: Config, s: State, base: seq<Message>, assistant: Message, stop: StopReason, a: Answers)
    requires Childless(s) && s.steps != []
    ensures var r := Settle(cfg, s, base, assistant, stop, a); r.Running? ==> Childless(r.s)
  {
    hide Childless, RecoveryCount;
    var r := Settle(cfg, s, base, assistant, stop, a);
    if r.Running? {
      MapChildless(s, LastStep(r.s), r.s);
    }
  }

  lemma AnswerSteady(cfg: Config, m: WorkingMemory.Memory, s: State, assistant: Message, usage: Usage, stop: StopReason, a: Answers)
    requires Steady(m, s) && Standing(assistant) && assistant.role.Assistant? && !stop.Pause? && MessagesOk(a)
    ensures var counted := s.(turn := s.turn + 1, usage := Add(s.usage, usage));
      var r := AnswerTurn(cfg, counted, assistant, ModelCall(usage, stop), a).outcome;
      r.Running? ==> Steady(m, r.s)
  {
    hide WholeGroups, Free, Add, Childless, ValidContinuation, Settle, VerdictOk, MessagesOk, Standing;
    var counted, call := s.(turn := s.turn + 1, usage := Add(s.usage, usage)), ModelCall(usage, stop);
    var step := NewStep(counted, call, Finish);
    var next := counted.(messages := AppendFinal(s.messages, assistant), steps := s.steps + [step]);
    SettleWhole(cfg, next, s.messages, assistant, stop, a);
    if Childless(s) {
      StepChildless(s, step, usage, next);
      SettleChildless(cfg, next, s.messages, assistant, stop, a);
    }
  }

  lemma ToolsWhole(s: State, assistant: Message, turn: int, a: Answers)
    requires WholeGroups(s.messages) && assistant.toolCalls != [] && assistant.toolResult.None? && !assistant.archived
    requires AnswerOk(Replied(assistant, ZERO, ToolUse)) && AnswersInOrder(assistant.toolCalls, a.tools.results)
    ensures WholeGroups(s.messages + [assistant.(toolCalls := NumberCalls(assistant.toolCalls, turn))] + ResultMessages(a.tools.results))
  {
    hide WholeGroups;
    var numbered := assistant.(toolCalls := NumberCalls(assistant.toolCalls, turn));
    forall c | c in numbered.toolCalls ensures c.id != "" {
      var k :| 0 <= k < |numbered.toolCalls| && numbered.toolCalls[k] == c;
      assert assistant.toolCalls[k] in assistant.toolCalls;
    }
    ToolGroup(numbered, a.tools.results);
    AppendWhole(s.messages, [numbered] + ResultMessages(a.tools.results));
    assert s.messages + ([numbered] + ResultMessages(a.tools.results)) == s.messages + [numbered] + ResultMessages(a.tools.results);
  }

  /** What a tool turn that goes on leaves behind. */
  lemma ToolTurnLeaves(cfg: Config, s: State, assistant: Message, call: ModelCall, turn: int, a: Answers)
    ensures var started := StartTools(s, assistant, call, turn);
      var r := ToolTurn(cfg, s, assistant, call, turn, a).outcome;
      r.Running? ==>
        && a.tools.ToolsRan? && r.s.messages == started.messages + ResultMessages(a.tools.results)
        && r.s.usage == Add(s.usage, a.tools.childUsage) && r.s.context == s.context
        && r.s.steps != [] && r.s.steps == MapLast(started.steps, LastStep(r.s)) && LastStep(r.s).call == Some(call)
  {
    hide ValidContinuation, Add, PreDispatchBlock, TerminalSucceeded;
  }

  lemma ToolSteady(cfg: Config, m: WorkingMemory.Memory, s: State, assistant: Message, usage: Usage, stop: StopReason, a: Answers)
    requires Steady(m, s) && ChildOk(m, a) && assistant.toolCalls != [] && Wholesome(Replied(assistant, usage, stop))
    requires AnswerOk(Replied(assistant, usage, stop)) && ToolsOk(Replied(assistant, usage, stop), a.tools)
    ensures var counted := s.(turn := s.turn + 1, usage := Add(s.usage, usage));
      var r := ToolTurn(cfg, counted, assistant, ModelCall(usage, stop), s.turn, a).outcome;
      r.Running? ==> Steady(m, r.s)
  {
    hide WholeGroups, Free, Add, Childless, ToolTurn, AnswersInOrder;
    var counted, call := s.(turn := s.turn + 1, usage := Add(s.usage, usage)), ModelCall(usage, stop);
    var r := ToolTurn(cfg, counted, assistant, call, s.turn, a).outcome;
    ToolTurnLeaves(cfg, counted, assistant, call, s.turn, a);
    if r.Running? {
      ToolsWhole(s, assistant, s.turn, a);
      if Childless(s) && !Free(m) {
        var started := StartTools(counted, assistant, call, s.turn);
        StepChildless(s, LastStep(started), usage, started);
        UsageStays(started);
        MapChildless(started, LastStep(r.s), r.s);
      }
    }
  }

  lemma ReplySteady(cfg: Config, m: WorkingMemory.Memory, s: State, assistant: Message, usage: Usage, stop: StopReason, a: Answers)
    requires Steady(m, s) && ChildOk(m, a) && Wholesome(Replied(assistant, usage, stop)) && MessagesOk(a)
    requires AnswerOk(Replied(assistant, usage, stop)) && ToolsOk(Replied(assistant, usage, stop), a.tools)
    ensures var r := Reply(cfg, s, assistant, usage, stop, a).outcome; r.Running? ==> Steady(m, r.s)
  {
    hide Steady, ChildOk, Add, ToolsOk, VerdictOk, MessagesOk, ToolTurn, PauseTurn, AnswerTurn;
    if assistant.toolCalls != [] {
      ToolSteady(cfg, m, s, assistant, usage, stop, a);
    } else if stop.Pause? {
      AnswerTurnPauses(cfg, s.(turn := s.turn + 1, usage := Add(s.usage, usage)), assistant, usage, a);
      PauseSteady(cfg, m, s, assistant, usage, a.steer);
    } else {
      AnswerSteady(cfg, m, s, assistant, usage, stop, a);
    }
  }

  lemma ActSteady(cfg: Config, m: WorkingMemory.Memory, d: int, s: State, a: Answers)
    requires MemoryDriven(cfg, m, d) && Steady(m, s) && ChildOk(m, a) && AnswersOk(a) && MessagesOk(a)
    ensures var r := Act(cfg, s, a).outcome; r.Running? ==> Steady(m, r.s)
  {
    AskSteady(cfg, m, d, s, a);
    AskAnswersOk(cfg, s, a);
    hide MemoryDriven, ChildOk, AnswersOk, MessagesOk, Ask, Add, VerdictOk, Reply, ToolsOk, RecordInterrupted, RecordBroken;
    var (asked, answer) := Ask(cfg, s, a);
    match answer
    case Replied(assistant, usage, stop) => ReplySteady(cfg, m, asked, assistant, usage, stop, a);
    case Interrupted(assistant, usage, stop) => InterruptedSteady(m, asked, assistant, usage, stop);
    case InterruptedUnopened => UnopenedSteady(m, asked);
    case _ =>
  }

  lemma UnopenedSteady(m: WorkingMemory.Memory, s: State)
    requires Steady(m, s)
    ensures Steady(m, s.(steps := SnapshotContext(s.steps, s.usage, s.context)))
  {
    hide WholeGroups, Free, Add;
    UsagePrefix(SnapshotContext(s.steps, s.usage, s.context), s.steps, |s.steps|);
  }

  lemma AskAnswersOk(cfg: Config, s: State, a: Answers)
    requires AnswersOk(a)
    ensures var answer := Ask(cfg, s, a).1; AnswerOk(answer) && ToolsOk(answer, a.tools)
  {
    hide Compress;
  }

  /** One pass keeps tool groups whole, and with them everything memory needs. */
  lemma PassSteady(cfg: Config, m: WorkingMemory.Memory, d: int, s: State, a: Answers)
    requires MemoryDriven(cfg, m, d) && Steady(m, s) && ChildOk(m, a) && AnswersOk(a) && MessagesOk(a)
    ensures var r := OnePass(cfg, s, a).outcome; r.Running? ==> Steady(m, r.s)
  {
    hide MemoryDriven, Steady, ChildOk, AnswersOk, MessagesOk, Open, Act, Plain;
    InputsStand(a);
    OpenSteady(cfg, m, d, s, a.inputs);
    if Open(cfg, s, a.inputs).outcome.Running? {
      ActSteady(cfg, m, d, Open(cfg, s, a.inputs).outcome.s, a);
    }
  }

  lemma PassUnsaturated(cfg: Config, s: State, a: Answers)
    requires Consistent(s.usage) && Unsaturated(OnePass(cfg, s, a).outcome.s)
    ensures var ready := Open(cfg, s, a.inputs).outcome;
      Unsaturated(ready.s) && (ready.Running? ==> Unsaturated(Ask(cfg, ready.s, a).0))
  {
    hide Open, Act, Ask, Consistent;
    OpenGrows(cfg, s, a.inputs);
    var ready := Open(cfg, s, a.inputs).outcome;
    if ready.Running? {
      ActGrows(cfg, ready.s, a);
    }
  }

  /** A verdict that leaves one answer for each fits every state with the invariant. */
  lemma ReplyFitsOk(cfg: Config, s: State, a: Answers)
    requires Good(s) && AnswersOk(a) && MessagesOk(a) && Unsaturated(Ask(cfg, s, a).0)
    requires a.first.Overflowed? && OverflowCompactor(cfg).Some? ==>
      CompactorOk(s, OverflowCompactor(cfg).value, Max(1, cfg.contextTarget * 3 / 4), |a.inputs|)
    ensures ReplyFits(cfg, s, a)
  {
    hide Good, Ask, AnswersOk, CompactorOk, OverflowCompactor, Wholesome, VerdictOk, VerdictFits, CallsOf;
    AskSound(cfg, s, a);
    AskAnswersOk(cfg, s, a);
    var (asked, answer) := Ask(cfg, s, a);
    if answer.Replied? && answer.assistant.toolCalls == [] && !answer.stop.Pause? {
      GoodSettled(asked);
      VerdictOkFits(asked.messages, CallsOf(asked), |asked.steps| + 1, asked.turn + 1, answer.assistant, a);
    }
  }

  lemma GoodSettled(s: State)
    requires Good(s)
    ensures Settled(s.messages, CallsOf(s), s.turn + 1) && |s.steps| <= |CallsOf(s)|
  {
    hide ScanAll, NextToolTurn;
    SettledLater(s.messages, CallsOf(s), s.turn, s.turn + 1);
  }

  /** From such a state the assumptions on a pass hold of themselves. */
  lemma PassAssumed(cfg: Config, m: WorkingMemory.Memory, d: int, s: State, a: Answers)
    requires MemoryDriven(cfg, m, d) && ConsistentCosts(m) && Good(s) && Steady(m, s) && AnswersOk(a) && MessagesOk(a)
    requires Unsaturated(OnePass(cfg, s, a).outcome.s)
    ensures PassOk(cfg, s, a)
  {
    hide MemoryDriven, ConsistentCosts, Good, Steady, AnswersOk, MessagesOk, Admit, Open, OnePass, Ask, CompactorOk, CompactionFor, OverflowCompactor, IsMemory, Plain, Consistent, ReplyFits, Unsaturated;
    UsageConsistent(s);
    PassUnsaturated(cfg, s, a);
    InputsStand(a);
    var admitted, ready := Admit(s, a.inputs), Open(cfg, s, a.inputs).outcome;
    DrivenByMemory(cfg, m, d, admitted);
    AdmitSteady(m, s, a.inputs);
    OpenSteady(cfg, m, d, s, a.inputs);
    if CompactionFor(cfg, admitted).Some? {
      MemoryOk(m, d, admitted, CompactionFor(cfg, admitted).value, cfg.contextTarget, |a.inputs|);
    }
    if ready.Running? {
      OpenSound(cfg, s, a);
      if OverflowCompactor(cfg).Some? {
        MemoryOk(m, d, ready.s, OverflowCompactor(cfg).value, Max(1, cfg.contextTarget * 3 / 4), |a.inputs|);
      }
      ReplyFitsOk(cfg, ready.s, a);
    }
  }

  /* ---------- runs ---------- */

  /** What is assumed of the answers, whatever state they meet. */
  ghost predicate WorldOk(m: WorkingMemory.Memory, script: seq<Answers>) {
    forall a | a in script :: AnswersOk(a) && MessagesOk(a) && ChildOk(m, a)
  }

  lemma {:induction false} RunSteady(cfg: Config, m: WorkingMemory.Memory, d: int, s: State, script: seq<Answers>)
    requires MemoryDriven(cfg, m, d) && ConsistentCosts(m) && WorldOk(m, script)
    requires Good(s) && Steady(m, s) && Unsaturated(Run(cfg, s, script).outcome.s)
    ensures ScriptOk(cfg, s, script)
    ensures var r := Run(cfg, s, script).outcome; r.Running? ==> Steady(m, r.s)
    decreases |script|
  {
    hide MemoryDriven, ConsistentCosts, Steady, Good, OnePass, PassOk, AnswersOk, MessagesOk, ChildOk;
    if IterationAllowed(cfg, |s.steps|) && script != [] {
      assert script[0] in script;
      UsageConsistent(s);
      OnePassGrows(cfg, s, script[0]);
      var pass := OnePass(cfg, s, script[0]);
      if pass.outcome.Running? {
        RunGrows(cfg, pass.outcome.s, script[1..]);
      }
      PassAssumed(cfg, m, d, s, script[0]);
      PassSteady(cfg, m, d, s, script[0]);
      if pass.outcome.Running? {
        OnePassSound(cfg, s, script[0]);
        RunSteady(cfg, m, d, pass.outcome.s, script[1..]);
      }
    }
  }

  /** With working memory as its compactor the loop needs no assumption about the states of
      a run: from any settled state, every boundary of every run is valid. */
  lemma RunSoundWithMemory(cfg: Config, m: WorkingMemory.Memory, d: int, s: State, script: seq<Answers>)
    requires MemoryDriven(cfg, m, d) && ConsistentCosts(m) && WorldOk(m, script)
    requires Good(s) && Steady(m, s) && Unsaturated(Run(cfg, s, script).outcome.s)
    ensures var r := Run(cfg, s, script);
      && (r.outcome.Running? ==> Good(r.outcome.s) && Steady(m, r.outcome.s))
      && !(r.outcome.Stopped? && r.outcome.reason.BoundaryRejected?)
      && forall c | c in r.observed :: ValidContinuation(c)
  {
    hide MemoryDriven, ConsistentCosts, WorldOk, Steady, Good, Run, ScriptOk, ValidContinuation;
    RunSteady(cfg, m, d, s, script);
    RunSound(cfg, s, script);
  }

  /** A new run starts that way whenever its history's tool groups are whole. */
  lemma EnterSteady(m: WorkingMemory.Memory, messages: seq<Message>, turn: nat)
    requires WholeGroups(messages)
    ensures Steady(m, Enter(State(messages, [], ZERO, ZERO, 0, turn)))
  {
    hide WholeGroups, Free;
    AddZero(ZERO);
    NothingSpent([], [], -1);
  }

  /* ---------- resuming ---------- */

  /** Both interfaces compact the same, to targets of their own. */
  lemma LegacyCompresses(s: State, m: WorkingMemory.Memory, d: int, target: int, freshInputs: nat)
    ensures Compress(s, LegacyCompactor(m, d), target, freshInputs) == Compress(s, MemoryCompactor(m), d, freshInputs)
  {
    hide History.CompleteTurns, History.ContextView, WorkingMemory.ArchiveFlags, WorkingMemory.Archive, AccountContext, PrefixKept;
  }

  lemma OpenCompresses(cfg: Config, s: State, inputs: seq<Message>, s1: State)
    requires Open(cfg, s, inputs).outcome == Running(s1)
    ensures var admitted := Admit(s, inputs);
      if (s.steps != [] || cfg.contextTarget > 0) && CompactionFor(cfg, admitted).Some?
      then Compress(admitted, CompactionFor(cfg, admitted).value, cfg.contextTarget, |inputs|) == (true, s1)
      else s1 == admitted
  {
    hide ValidContinuation, Compress, Admit, CompactionFor;
  }

  /** The compactor of a state is that of any other of the same configuration. */
  lemma OneCompactor(cfg: Config, s: State, t: State)
    requires CompactionFor(cfg, s).Some? && CompactionFor(cfg, t).Some?
    ensures CompactionFor(cfg, s) == CompactionFor(cfg, t)
  {
  }

  /** What working memory prepared for a model call it leaves alone when the run is resumed
      there, whether it was asked for a target or used its own. */
  lemma MemoryPrepares(cfg: Config, m: WorkingMemory.Memory, d: int, s: State, inputs: seq<Message>, s1: State)
    requires MemoryDriven(cfg, m, d) && WholeGroups(Admit(s, inputs).messages)
    requires Open(cfg, s, inputs).outcome == Running(s1) && Good(s1)
    ensures Prepared(cfg, s1)
  {
    hide MemoryDriven, WholeGroups, Good, Open, Admit, Compress, CompactionFor;
    var admitted := Admit(s, inputs);
    OpenCompresses(cfg, s, inputs, s1);
    OpenSteps(cfg, s, inputs);
    DrivenByMemory(cfg, m, d, admitted);
    if (s.steps != [] || cfg.contextTarget > 0) && CompactionFor(cfg, admitted).Some? && CompactionFor(cfg, s1).Some? {
      OneCompactor(cfg, admitted, s1);
      var target := if CompactionFor(cfg, admitted).value == MemoryCompactor(m) then cfg.contextTarget else d;
      LegacyCompresses(admitted, m, d, cfg.contextTarget, |inputs|);
      LegacyCompresses(s1, m, d, cfg.contextTarget, 0);
      CompressTwice(admitted, m, target, |inputs|, s1);
    }
  }

  /** So a run driven by working memory resumes faithfully from the top of a pass exactly when
      no live input came with it and its budget check still passes. */
  lemma FaithfulWithMemory(cfg: Config, m: WorkingMemory.Memory, d: int, s: State, a: Answers)
    requires MemoryDriven(cfg, m, d) && ConsistentCosts(m) && Good(s) && Steady(m, s) && AnswersOk(a) && MessagesOk(a)
    requires Unsaturated(OnePass(Normalize(cfg), s, a).outcome.s) && OnePass(Normalize(cfg), s, a).observed != []
    ensures Faithful(cfg, s, a, 0) <==>
      a.inputs == [] && Recheck(Normalize(cfg), Open(Normalize(cfg), s, a.inputs).outcome.s).None?
  {
    var policy := Normalize(cfg);
    assert MemoryDriven(policy, m, d);
    UsageConsistent(s);
    ReadyUnsaturated(cfg, s, a);
    hide MemoryDriven, ConsistentCosts, Good, AnswersOk, MessagesOk, OnePass, Open, Admit, Prepared, Recheck, Normalize, WholeGroups, Unsaturated, Plain, Consistent;
    PassObserved(policy, s, a, 0);
    var s1 := Open(policy, s, a.inputs).outcome.s;
    PassAssumed(policy, m, d, s, a);
    OpenSound(policy, s, a);
    InputsStand(a);
    AdmitSteady(m, s, a.inputs);
    MemoryPrepares(policy, m, d, s, a.inputs, s1);
  }

  /** From every boundary of every pass of a run driven by working memory, the resumed run
      ends as the uninterrupted one, with no assumption about the states between. */
  lemma RunResumesWithMemory(cfg: Config, m: WorkingMemory.Memory, d: int, s: State, script: seq<Answers>, k: nat, i: nat)
    requires MemoryDriven(cfg, m, d) && ConsistentCosts(m) && WorldOk(m, script)
    requires Good(s) && Steady(m, s) && Unsaturated(Run(Normalize(cfg), s, script).outcome.s)
    requires k < |script| && Reaches(Normalize(cfg), s, script, k)
    requires Interruptible(cfg, After(Normalize(cfg), s, script, k), script[k], i)
    ensures Resumes(cfg, After(Normalize(cfg), s, script, k), script[k], script[k + 1..], i, Run(Normalize(cfg), s, script).outcome)
  {
    var policy := Normalize(cfg);
    assert MemoryDriven(policy, m, d);
    hide MemoryDriven, ConsistentCosts, WorldOk, Steady, Good, Run, ScriptOk, Normalize, Interruptible, Resumes, Reaches, After;
    RunSteady(policy, m, d, s, script);
    RunResumes(cfg, s, script, k, i);
  }
}
