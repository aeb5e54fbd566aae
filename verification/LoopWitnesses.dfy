/**
 Small runs from a new conversation in which the loop does what its theorems on failures
 describe: each failure is reached, not only possible.
 */
module LoopWitnesses {
  import opened Wrappers
  import opened Messages
  import opened TokenUsage
  import opened Continuations
  import opened AgentLoop
  import opened LoopTranscript
  import opened LoopLedger
  import opened LoopInvariant
  import opened LoopLimits
  import opened LoopResume
  import opened LoopGaps
  import LoopMemory
  import LoopFitting
  import FitContext
  import History

  /* ---------- the conversation ---------- */

  function Cost(n: nat): Usage
    requires n < 1000
  {
    Usage(n, 0, false, 0, false, 0, 0, n)
  }

  const QUESTION: Message := NewText(User, "question")
  const ANSWER: Message := NewText(Assistant, "answer")
  const CALL: ToolCall := ToolCall("c", "t", "", Unset)
  const CALLING: Message := NewText(Assistant, "").(toolCalls := [CALL])
  const RESULT: ToolResult := ToolResult("c", "t", "done", "", false)

  const BEGIN: State := State([QUESTION], [], ZERO, ZERO, 0, 0)

  /** No limits, no compaction; every tool is terminal. */
  const PLAIN: Config := Config(
    0, true, 0, 0, 0, 0, None, None, (history: seq<Message>, _: int, _: nat) => CompactionFailed(ZERO),
    (_: string) => true, (_: string) => "")

  function Says(usage: Usage, verdict: Verdict, followUp: bool): Answers {
    Answers([], Replied(ANSWER, usage, Complete), BrokenUnopened, ToolsFailed([], ZERO), verdict, Undecided, followUp, false)
  }

  function Calls(usage: Usage, childUsage: Usage, followUp: bool): Answers {
    Answers([], Replied(CALLING, usage, ToolUse), BrokenUnopened, ToolsRan([RESULT], childUsage), Block, Undecided, followUp, false)
  }

  lemma Begins()
    ensures Enter(BEGIN) == BEGIN && Good(BEGIN) && CallsOf(BEGIN) == []
    ensures Analyze([QUESTION]).Some? && Settled([QUESTION], [], 0)
  {
    assert [QUESTION][1..] == [] && [QUESTION][..0] == [];
    assert ScanAll(START, [QUESTION]) == Some(START.(endsWithResults := false)) by {
      assert ScanAll(START.(endsWithResults := false), []) == Some(START.(endsWithResults := false));
    }
    assert NextToolTurn([QUESTION]) == 0;
    EnterGood([QUESTION], 0);
  }

  /* ---------- how passes go ---------- */

  lemma OpensQuietly(cfg: Config, s: State)
    requires CompactionFor(cfg, s).None? || (s.steps == [] && cfg.contextTarget <= 0)
    requires Recheck(cfg, s).None?
    ensures Open(cfg, s, []) ==
      if ValidContinuation(Snapshot(s, Ready)) then Pass(Running(s), [Snapshot(s, Ready)]) else Pass(Halt(BoundaryRejected, s), [])
  {
    hide ValidContinuation, CompactionFor;
    AdmitNothing(s);
    assert s.messages[|s.messages|..] == [];
  }

  lemma PassReplies(cfg: Config, s: State, a: Answers, s1: State)
    requires a.first.Replied? && Open(cfg, s, a.inputs).outcome == Running(s1)
    ensures OnePass(cfg, s, a).outcome == Reply(cfg, s1, a.first.assistant, a.first.usage, a.first.stop, a).outcome
    ensures OnePass(cfg, s, a).observed
      == Open(cfg, s, a.inputs).observed + Reply(cfg, s1, a.first.assistant, a.first.usage, a.first.stop, a).observed
  {
    hide Open, Reply;
  }

  function Answered(s: State, usage: Usage): (next: State)
    ensures next.steps != [] && |next.steps| == |s.steps| + 1
  {
    var counted := s.(turn := s.turn + 1, usage := Add(s.usage, usage));
    counted.(messages := s.messages + [ANSWER], steps := s.steps + [NewStep(counted, ModelCall(usage, Complete), Finish)])
  }

  /** An answer reaches its verdict, with its own boundary observed. */
  lemma AnswerReached(cfg: Config, s: State, usage: Usage, a: Answers)
    requires Good(s) && Consistent(usage) && Add(s.usage, usage).total < MAX_INT
    requires !(cfg.maxTokens > 0 && usage.total == 0)
    ensures var next := Answered(s, usage);
      && Reply(cfg, s, ANSWER, usage, Complete, a)
         == Pass(Settle(cfg, next, s.messages, ANSWER, Complete, a), [Snapshot(next, ValidatingOutput)])
      && ValidContinuation(Snapshot(next, ValidatingOutput))
      && Balanced(next, CallsOf(s) + [[]]) && Settled(s.messages, CallsOf(s), next.turn)
  {
    hide Good, Add, Consistent, ValidContinuation, Settle, Balanced;
    var next := Answered(s, usage);
    var step := LastStep(next);
    RecordAnswer(s, step, usage, ANSWER, next);
    AnswerBoundary(next, CallsOf(next), ANSWER);
    GoodSettles(s);
    hide Settled;
    SettledLater(s.messages, CallsOf(s), s.turn, next.turn);
  }

  lemma GoodSettles(s: State)
    requires Good(s)
    ensures Settled(s.messages, CallsOf(s), s.turn)
  {
    hide Settled, Balanced;
  }

  /* ---------- answers that do not stay ---------- */

  lemma SmallSum(u: Usage, v: Usage)
    requires Consistent(u) && Consistent(v) && u.total < 1000 && v.total < 1000
    ensures Add(u, v).total == u.total + v.total && Consistent(Add(u, v))
  {
    AddTotal(u, v);
    AddClosed(u, v);
  }

  lemma NothingSilent()
    ensures !Silent([], 1)
  {
  }

  /** A retry that omits its answer: the next pass is stopped at its first boundary. */
  lemma OmittedAnswerStops(next: Answers)
    requires next.inputs == []
    ensures var r := Run(PLAIN, Enter(BEGIN), [Says(Cost(1), Retry(false, [], [QUESTION]), false)] + [next]).outcome;
      r.Stopped? && r.reason.BoundaryRejected?
  {
    hide Good, Balanced, Settled, Reply, Open, OnePass, ValidContinuation, ScanAll, NextToolTurn, Run, Silent, CallsOf, Add, Settle;
    SmallSum(ZERO, Cost(1));
    var a := Says(Cost(1), Retry(false, [], [QUESTION]), false);
    Begins();
    GoodIsValid(BEGIN);
    OpensQuietly(PLAIN, BEGIN);
    PassReplies(PLAIN, BEGIN, a, BEGIN);
    AnswerReached(PLAIN, BEGIN, Cost(1), a);
    var answered := Answered(BEGIN, Cost(1));
    InstructedRetryIff(PLAIN, answered, BEGIN.messages, ANSWER, Complete, a);
    NothingSilent();
    var s := OnePass(PLAIN, BEGIN, a).outcome.s;
    RunUnfolds(PLAIN, BEGIN, a, [next]);
    assert [next] == [next] + [];
    RunUnfolds(PLAIN, s, next, []);
    OpensQuietly(PLAIN, s);
    OpenStops(PLAIN, s, next);
  }

  lemma OpenStops(cfg: Config, s: State, a: Answers)
    requires Open(cfg, s, a.inputs).outcome.Stopped?
    ensures OnePass(cfg, s, a) == Open(cfg, s, a.inputs)
  {
    hide Open;
  }

  /** An empty answer is stopped by its own boundary. */
  lemma EmptyAnswerStops()
    ensures var a := Says(Cost(1), Block, false).(first := Replied(BLANK, Cost(1), Complete));
      var r := Run(PLAIN, Enter(BEGIN), [a]).outcome;
      r.Stopped? && r.reason.BoundaryRejected?
  {
    hide Good, Balanced, Settled, Reply, Open, OnePass, ValidContinuation, ScanAll, NextToolTurn, Run, Silent, AnswerTurn, CallsOf, Add;
    SmallSum(ZERO, Cost(1));
    var a := Says(Cost(1), Block, false).(first := Replied(BLANK, Cost(1), Complete));
    Begins();
    GoodIsValid(BEGIN);
    OpensQuietly(PLAIN, BEGIN);
    PassReplies(PLAIN, BEGIN, a, BEGIN);
    RepliesWithAnswer(PLAIN, BEGIN, BLANK, Cost(1), a);
    AnswerRejectedIff(PLAIN, BEGIN, BLANK, Cost(1), Complete, a);
    NothingSilent();
    assert [a] == [a] + [];
    RunUnfolds(PLAIN, BEGIN, a, []);
  }

  lemma RepliesWithAnswer(cfg: Config, s: State, assistant: Message, usage: Usage, a: Answers)
    requires assistant.toolCalls == []
    ensures var counted := s.(turn := s.turn + 1, usage := Add(s.usage, usage));
      Reply(cfg, s, assistant, usage, Complete, a) == AnswerTurn(cfg, counted, assistant, ModelCall(usage, Complete), a)
  {
    hide AnswerTurn, ToolTurn, Add;
  }

  /* ---------- the step ceiling ---------- */

  function Called(s: State, usage: Usage, childUsage: Usage): State {
    var counted := s.(turn := s.turn + 1, usage := Add(s.usage, usage));
    RecordResults(StartTools(counted, CALLING, ModelCall(usage, ToolUse), s.turn), 1, [RESULT], childUsage)
  }

  /** A call no budget refuses is executed, and its results are recorded. */
  lemma CallReached(cfg: Config, s: State, usage: Usage, a: Answers)
    requires Good(s) && Consistent(usage) && a.tools.ToolsRan? && a.tools.results == [RESULT] && Consistent(a.tools.childUsage)
    requires Add(s.usage, usage).total < MAX_INT && Add(Add(s.usage, usage), a.tools.childUsage).total < MAX_INT
    requires RefusedBy(cfg, s, usage, 1).None?
    ensures var r := Reply(cfg, s, CALLING, usage, ToolUse, a).outcome;
      && Called(s, usage, a.tools.childUsage).steps != []
      && r == FinishTools(cfg, Called(s, usage, a.tools.childUsage), CALLING, [RESULT], a).outcome
      && (r.Running? ==> Good(r.s)) && !(r.Stopped? && r.reason.BoundaryRejected?)
  {
    CalledHasSteps(s, usage, a.tools.childUsage);
    hide Good, Add, Consistent, ValidContinuation, FinishTools, RecordResults, AwaitsResults;
    StartToolsSound(s, CALLING, usage, ToolUse);
    var counted := s.(turn := s.turn + 1, usage := Add(s.usage, usage));
    FinishToolsSound(cfg, StartTools(counted, CALLING, ModelCall(usage, ToolUse), s.turn), CallsOf(s), CALLING, s.turn, a);
  }

  lemma CalledHasSteps(s: State, usage: Usage, childUsage: Usage)
    ensures var called := Called(s, usage, childUsage);
      && called.steps != [] && called.steps == s.steps + [LastStep(called)]
      && LastStep(called).call == Some(ModelCall(usage, ToolUse))
      && called.usage == Add(Add(s.usage, usage), childUsage) && called.context == s.context
      && called.toolCallsUsed == s.toolCallsUsed + 1
  {
    hide Add;
  }

  lemma TerminalCall(cfg: Config)
    requires cfg.terminal(CALL.name)
    ensures TerminalSucceeded(cfg, [CALL], [RESULT])
  {
    assert !RESULT.isError && cfg.terminal([CALL][0].name);
  }

  /** A ceiling of one step refuses the first turn that calls a tool although the tool would
      finish the run; a ceiling of two steps lets it finish in one. */
  lemma OneStepRefuses(ceiling: int)
    requires ceiling == 1 || ceiling == 2
    ensures var r := Run(PLAIN.(maxSteps := ceiling), Enter(BEGIN), [Calls(Cost(1), ZERO, false)]).outcome;
      && r.Stopped?
      && (ceiling == 1 ==> r.reason == Exhausted(StepCount) && r.s.toolCallsUsed == 0)
      && (ceiling == 2 ==> r.reason == Finished(Complete) && r.s.toolCallsUsed == 1 && |r.s.steps| == 1)
  {
    hide Good, Balanced, Settled, Reply, Open, OnePass, ValidContinuation, ScanAll, NextToolTurn, Run, TerminalSucceeded, AnswerOk;
    var cfg, a := PLAIN.(maxSteps := ceiling), Calls(Cost(1), ZERO, false);
    Begins();
    GoodIsValid(BEGIN);
    OpensQuietly(cfg, BEGIN);
    PassReplies(cfg, BEGIN, a, BEGIN);
    assert [a] == [a] + [];
    RunUnfolds(cfg, BEGIN, a, []);
    if ceiling == 1 {
      assert AnswerOk(Replied(CALLING, Cost(1), ToolUse)) by { CallingOk(Cost(1)); }
      ToolTurnRefusedIff(cfg, BEGIN, CALLING, Cost(1), ToolUse, a);
    } else {
      TerminalCall(cfg);
      CallReached(cfg, BEGIN, Cost(1), a);
    }
  }

  lemma CallingOk(usage: Usage)
    requires Consistent(usage)
    ensures AnswerOk(Replied(CALLING, usage, ToolUse))
  {
  }

  /* ---------- resumed runs that end otherwise ---------- */

  /** With the turn allowance left unset, a granted retry is refused once the run is resumed
      from the boundary in which it was judged. */
  lemma ResumedRetryStops(script: seq<Answers>)
    ensures var cfg, a := PLAIN.(unlimited := false), Says(Cost(1), Retry(true, [], [QUESTION]), false);
      var pass := OnePass(Normalize(cfg), Enter(BEGIN), a);
      && pass.outcome.Running? && |pass.observed| == 2
      && pass.observed[1].phase == ValidatingOutput && Resumable(pass.observed[1])
      && var resumed := ResumeLoop(cfg, pass.observed[1], a, script);
      resumed.Stopped? && resumed.reason.OutputBlocked?
  {
    hide Good, Balanced, Settled, Reply, Open, OnePass, ValidContinuation, ScanAll, NextToolTurn, ResumeLoop, Resumable, AnswerTurn;
    var cfg, a := PLAIN.(unlimited := false), Says(Cost(1), Retry(true, [], [QUESTION]), false);
    var policy := Normalize(cfg);
    Begins();
    GoodIsValid(BEGIN);
    OpensQuietly(policy, BEGIN);
    PassReplies(policy, BEGIN, a, BEGIN);
    AnswerReached(policy, BEGIN, Cost(1), a);
    var counted := BEGIN.(turn := 1, usage := Add(ZERO, Cost(1)));
    assert AnswerSnapshot(counted, ANSWER, ModelCall(Cost(1), Complete)) == Snapshot(Answered(BEGIN, Cost(1)), ValidatingOutput);
    ResumedRetryRefused(cfg, counted, ANSWER, ModelCall(Cost(1), Complete), a, script);
  }

  /** A compactor that changes nothing, at a price. */
  function Paid(price: nat): Compactor
    requires price < 1000
  {
    (history: seq<Message>, _: int, _: nat) => Compacted(history, Cost(price))
  }

  /** An accepted answer after which live input keeps the run going. */
  lemma AnswerContinues(cfg: Config, s: State, usage: Usage)
    requires Good(s) && Consistent(usage) && Add(s.usage, usage).total < MAX_INT
    requires !(cfg.maxTokens > 0 && usage.total == 0)
    ensures var next := Decide(Answered(s, usage), Continue);
      && Reply(cfg, s, ANSWER, usage, Complete, Says(usage, Accept(ANSWER), true)).outcome == Running(next)
      && Good(next) && CallsOf(next) == CallsOf(s) + [[]]
  {
    hide Good, Add, Consistent, ValidContinuation, Balanced, Settled, Reply, CallsOf;
    AnswerReached(cfg, s, usage, Says(usage, Accept(ANSWER), true));
    var answered := Answered(s, usage);
    ContinueWith(answered, s.messages, CallsOf(s), ANSWER, [], LastStep(answered).(decision := Continue));
    var next := Decide(answered, Continue);
    assert s.messages + [ANSWER] + [] == s.messages + [ANSWER];
    AppendAnswer(s.messages, CallsOf(s), answered.turn, ANSWER);
    SettledCalls(next, CallsOf(s) + [[]]);
  }

  /** One pass of a run that opens quietly and is answered so. */
  lemma AnswerPass(cfg: Config, s: State, usage: Usage)
    requires Good(s) && Consistent(usage) && Add(s.usage, usage).total < MAX_INT
    requires !(cfg.maxTokens > 0 && usage.total == 0) && Recheck(cfg, s).None? && CompactionFor(cfg, s).None?
    ensures var next := Decide(Answered(s, usage), Continue);
      && OnePass(cfg, s, Says(usage, Accept(ANSWER), true)).outcome == Running(next)
      && Good(next) && CallsOf(next) == CallsOf(s) + [[]]
  {
    hide Good, Add, Consistent, ValidContinuation, Reply, CallsOf, Open, OnePass, Answered, Recheck, CompactionFor;
    GoodIsValid(s);
    OpensQuietly(cfg, s);
    PassReplies(cfg, s, Says(usage, Accept(ANSWER), true), s);
    AnswerContinues(cfg, s, usage);
  }

  lemma BothComplete()
    ensures History.CompleteTurns([QUESTION, ANSWER])
  {
    assert [QUESTION, ANSWER][1..] == [ANSWER] && [ANSWER][1..] == [] && [QUESTION, ANSWER][..1] == [QUESTION] && [ANSWER][..1] == [ANSWER];
  }

  /** Compacting at a price what stays as it is. */
  lemma PaidCompresses(s: State, price: nat, target: int, freshInputs: nat)
    requires price < 1000 && History.CompleteTurns(s.messages)
    ensures Compress(s, Paid(price), target, freshInputs) == (true, AccountContext(s, Cost(price)))
  {
    hide History.CompleteTurns, AccountContext, History.CachePrefix;
    History.CachePrefixIsValid(s.messages);
    AccountKeepsMessages(s, Cost(price));
  }

  lemma AccountKeepsMessages(s: State, summary: Usage)
    ensures AccountContext(s, summary).(messages := s.messages) == AccountContext(s, summary)
  {
  }

  lemma OpensPaid(cfg: Config, s: State, price: nat)
    requires price < 1000 && s.steps != [] && History.CompleteTurns(s.messages) && Recheck(cfg, s).None?
    requires CompactionFor(cfg, s) == Some(Paid(price))
    ensures var next := AccountContext(s, Cost(price));
      Open(cfg, s, []).outcome == if ValidContinuation(Snapshot(next, Ready)) then Running(next) else Halt(BoundaryRejected, next)
  {
    hide ValidContinuation, CompactionFor, History.CompleteTurns, AccountContext, Compress;
    AdmitNothing(s);
    PaidCompresses(s, price, cfg.contextTarget, 0);
    var next := AccountContext(s, Cost(price));
    assert next.messages[|next.messages|..] == [];
  }

  /** Context work after the first answer takes what was left of the tokens. */
  function Spent(s: State): State
    requires s.steps != []
  {
    AccountContext(s, Cost(20))
  }

  const TIGHT: Config := PLAIN.(maxTokens := 100, compact := Some(Paid(20)))

  lemma FirstAnswer(usage: Usage)
    requires usage == Cost(85)
    ensures var s := Decide(Answered(BEGIN, usage), Continue);
      && s.usage.total == 85 && |s.steps| == 1 && s.messages == [QUESTION, ANSWER] && ChildTokens(s) == 0
  {
    var s := Decide(Answered(BEGIN, usage), Continue);
    assert ModelUsage(s.steps, 0) == ZERO;
    assert ModelUsage(s.steps, 1) == Add(ZERO, usage);
  }

  /** The ready boundary of a second pass, behind paid context work: the original run asks
      the model and finishes, the run resumed there finds its tokens spent. */
  lemma RecheckedRunStops()
    ensures var s := OnePass(TIGHT, Enter(BEGIN), Says(Cost(85), Accept(ANSWER), true)).outcome.s;
      var a := Says(Cost(5), Accept(ANSWER), false);
      && s.steps != [] && Open(TIGHT, s, []).outcome == Running(Spent(s))
      && Run(TIGHT, s, [a]).outcome.Stopped? && Run(TIGHT, s, [a]).outcome.reason == Finished(Complete)
      && ResumeLoop(TIGHT, Snapshot(Spent(s), Ready), a, [a]) == Halt(Exhausted(Tokens), Spent(s))
  {
    hide Good, Add, ValidContinuation, Balanced, Settled, Reply, CallsOf, Open, OnePass, Run, ResumeLoop, AccountContext, Act, Answered, ChildTokens, History.CompleteTurns;
    var a := Says(Cost(5), Accept(ANSWER), false);
    Begins();
    SmallSum(ZERO, Cost(85));
    AnswerPass(TIGHT, BEGIN, Cost(85));
    FirstAnswer(Cost(85));
    var s := Decide(Answered(BEGIN, Cost(85)), Continue);
    BothComplete();
    OpensPaid(TIGHT, s, 20);
    SpentGood(s);
    var spent := Spent(s);
    ResumeReadyAgain(TIGHT, s, a, []);
    assert [a] + [] == [a];
    ActAnswers(TIGHT, spent, a);
    AnswerReached(TIGHT, spent, Cost(5), a);
  }

  lemma ActAnswers(cfg: Config, s: State, a: Answers)
    requires a.first.Replied?
    ensures Act(cfg, s, a) == Reply(cfg, s, a.first.assistant, a.first.usage, a.first.stop, a)
  {
    hide Reply;
  }

  lemma SpentGood(s: State)
    requires Good(s) && s.steps != [] && s.messages == [QUESTION, ANSWER] && s.usage.total == 85 && ChildTokens(s) == 0
    ensures Good(Spent(s)) && ValidContinuation(Snapshot(Spent(s), Ready)) && Spent(s).usage.total == 105 && |Spent(s).steps| == |s.steps|
    ensures Add(Spent(s).usage, Cost(5)).total == 110
  {
    hide Good, Add, Balanced, Settled, AccountContext, ValidContinuation, CallsOf, History.CompleteTurns, ChildTokens;
    UsageConsistent(s);
    SmallSum(s.usage, Cost(20));
    BothComplete();
    PaidCompresses(s, 20, 0, 0);
    AccountUsage(s, Cost(20));
    SpentFits(s);
    CompressGood(s, Paid(20), 0, 0);
    GoodIsValid(Spent(s));
    UsageConsistent(Spent(s));
    SmallSum(Spent(s).usage, Cost(5));
  }

  lemma SpentFits(s: State)
    requires ChildTokens(s) == 0
    ensures CompactorOk(s, Paid(20), 0, 0)
  {
    hide CallsOf, ChildTokens;
  }

  lemma AccountUsage(s: State, summary: Usage)
    ensures AccountContext(s, summary).usage == Add(s.usage, summary) && |AccountContext(s, summary).steps| == |s.steps|
    ensures AccountContext(s, summary).messages == s.messages
  {
    hide Add;
  }

  /* ---------- context work behind child agents ---------- */

  const WATCHED: Config := PLAIN.(maxTokens := 100, compact := Some(Paid(1)))

  /** After a call whose tool spent tokens on a child agent, and an answer, paid context work
      makes the loop stop at its own boundary. */
  lemma ChildThenContextStops(next: Answers)
    requires next.inputs == []
    ensures var script := [Calls(Cost(10), Cost(40), true)] + ([Says(Cost(35), Accept(ANSWER), true)] + [next]);
      var r := Run(WATCHED, Enter(BEGIN), script).outcome;
      r.Stopped? && r.reason.BoundaryRejected?
  {
    hide Good, Add, ValidContinuation, Balanced, Settled, Reply, CallsOf, Open, OnePass, Run, AccountContext, Answered, ChildTokens, History.CompleteTurns, FinishTools, ContextWorkFits;
    var calls, says := Calls(Cost(10), Cost(40), true), Says(Cost(35), Accept(ANSWER), true);
    Begins();
    var s := CalledPass();
    AnswerPass(WATCHED, s, Cost(35));
    var t := Decide(Answered(s, Cost(35)), Continue);
    RunUnfolds(WATCHED, BEGIN, calls, [says] + [next]);
    RunUnfolds(WATCHED, s, says, [next]);
    assert [next] == [next] + [];
    RunUnfolds(WATCHED, t, next, []);
    ChildThenAnswer(s, t);
    OpensPaid(WATCHED, t, 1);
    AccountUsage(t, Cost(1));
    ArchivesItself(t.messages);
    ContextBoundaryIff(t, Cost(1), t.messages);
    AccountKeepsMessages(t, Cost(1));
    OpenStops(WATCHED, t, next);
  }

  lemma ArchivesItself(ms: seq<Message>)
    ensures History.ArchivesTo(ms, ms)
  {
  }

  lemma CalledPass() returns (s: State)
    ensures OnePass(WATCHED, BEGIN, Calls(Cost(10), Cost(40), true)).outcome == Running(s)
    ensures Good(s) && s.usage.total == 50 && s.context == ZERO && |s.steps| == 1 && s.toolCallsUsed == 1
    ensures s.steps[0].call == Some(ModelCall(Cost(10), ToolUse))
    ensures s.messages == [QUESTION, CALLING.(toolCalls := [CALL.(operation := Operation(0, 0))]), NewToolResult(RESULT)]
    ensures Add(s.usage, Cost(35)).total == 85 && Consistent(s.usage)
  {
    hide Good, Add, ValidContinuation, Balanced, Settled, Reply, CallsOf, Open, OnePass, FinishTools, TerminalSucceeded;
    var a := Calls(Cost(10), Cost(40), true);
    Begins();
    GoodIsValid(BEGIN);
    OpensQuietly(WATCHED, BEGIN);
    PassReplies(WATCHED, BEGIN, a, BEGIN);
    SmallSum(ZERO, Cost(10));
    SmallSum(Add(ZERO, Cost(10)), Cost(40));
    SmallSum(Add(Add(ZERO, Cost(10)), Cost(40)), Cost(35));
    CallReached(WATCHED, BEGIN, Cost(10), a);
    CalledHasSteps(BEGIN, Cost(10), Cost(40));
    s := OnePass(WATCHED, BEGIN, a).outcome.s;
    FinishGoesOn(WATCHED, Called(BEGIN, Cost(10), Cost(40)), a);
    CalledMessages();
  }

  lemma FinishGoesOn(cfg: Config, s: State, a: Answers)
    requires s.steps != [] && a.followUp && a.decision.Undecided?
    ensures var r := FinishTools(cfg, s, CALLING, [RESULT], a).outcome;
      && (r.Running? || (r.Stopped? && r.reason.BoundaryRejected?))
      && r.s.messages == s.messages && r.s.usage == s.usage && r.s.context == s.context && r.s.toolCallsUsed == s.toolCallsUsed
      && r.s.steps != [] && r.s.steps == MapLast(s.steps, LastStep(r.s)) && LastStep(r.s).call == LastStep(s).call
  {
    hide ValidContinuation, TerminalSucceeded;
  }

  lemma CalledMessages()
    ensures Called(BEGIN, Cost(10), Cost(40)).messages
      == [QUESTION, CALLING.(toolCalls := [CALL.(operation := Operation(0, 0))]), NewToolResult(RESULT)]
  {
    hide Add;
    assert NumberCalls([CALL], 0) == [CALL.(operation := Operation(0, 0))];
    assert ResultMessages([RESULT]) == [NewToolResult(RESULT)];
  }

  lemma CallComplete()
    ensures History.CompleteTurns([QUESTION, CALLING.(toolCalls := [CALL.(operation := Operation(0, 0))]), NewToolResult(RESULT)] + [ANSWER])
  {
    hide History.CompleteTurns, History.Answers;
    var numbered := CALLING.(toolCalls := [CALL.(operation := Operation(0, 0))]);
    CallGroupComplete(numbered);
    AloneComplete(QUESTION);
    AloneComplete(ANSWER);
    History.StaysComplete([QUESTION], [numbered, NewToolResult(RESULT)]);
    assert [QUESTION] + [numbered, NewToolResult(RESULT)] == [QUESTION, numbered, NewToolResult(RESULT)];
    History.StaysComplete([QUESTION, numbered, NewToolResult(RESULT)], [ANSWER]);
  }

  lemma AloneComplete(m: Message)
    requires !m.role.Tool? && m.toolCalls == [] && m.toolResult.None?
    ensures History.CompleteTurns([m])
  {
    assert [m][1..] == [] && [m][..1] == [m];
  }

  lemma CallGroupComplete(numbered: Message)
    requires numbered == CALLING.(toolCalls := [CALL.(operation := Operation(0, 0))])
    ensures History.CompleteTurns([numbered, NewToolResult(RESULT)])
  {
    var calls, results := numbered.toolCalls, [NewToolResult(RESULT)];
    var g := [numbered] + results;
    assert g == [numbered, NewToolResult(RESULT)];
    assert History.Answers(calls, results) by {
      assert History.Fits(calls, History.Fresh(1), results[0], 0);
      History.NamelessLastAccepted(calls, History.Fresh(1), results, [0]);
    }
    assert g[1..] == results && g[..2] == g && g[2..] == [];
    assert History.CompleteTurns(g[2..]);
  }

  lemma ChildThenAnswer(s: State, t: State)
    requires Good(s) && s.usage.total == 50 && s.context == ZERO && |s.steps| == 1 && Consistent(s.usage)
    requires s.steps[0].call == Some(ModelCall(Cost(10), ToolUse))
    requires s.messages == [QUESTION, CALLING.(toolCalls := [CALL.(operation := Operation(0, 0))]), NewToolResult(RESULT)]
    requires Add(s.usage, Cost(35)).total == 85
    requires t == Decide(Answered(s, Cost(35)), Continue) && CallsOf(t) == CallsOf(s) + [[]]
    ensures t.usage.total == 85 && |t.steps| == 2 && History.CompleteTurns(t.messages)
    ensures !ContextWorkFits(t, CallsOf(t), Cost(1))
    ensures Add(t.usage, Cost(1)).total == 86
  {
    hide Good, History.CompleteTurns, Add, CallsOf;
    CallComplete();
    assert ModelUsage(t.steps, 0) == ZERO;
    assert ModelUsage(t.steps, 1) == Add(ZERO, Cost(10));
    assert ModelUsage(t.steps, 2) == Add(Add(ZERO, Cost(10)), Cost(35));
    SmallSum(ZERO, Cost(10));
    SmallSum(Add(ZERO, Cost(10)), Cost(35));
    SmallSum(Add(Add(ZERO, Cost(10)), Cost(35)), ZERO);
    SmallSum(s.usage, Cost(35));
    SmallSum(t.usage, Cost(1));
  }

  /* ---------- answers in a retry's context ---------- */

  /** An answer in the replacement context stands in for the one a retry omits, though no
      older answer does: the boundary behind it is valid, and the next pass opens. */
  lemma StandInContinues()
    ensures var a := Says(Cost(1), Retry(false, [ANSWER], [QUESTION]), false);
      var r := OnePass(PLAIN, Enter(BEGIN), a).outcome;
      && r.Running? && !Silent(CallsOf(BEGIN), |r.s.steps|)
      && ValidContinuation(Snapshot(r.s, Ready)) && Open(PLAIN, r.s, []).outcome.Running?
  {
    hide Good, BalancedWith, Settled, Reply, Open, OnePass, ValidContinuation, ScanAll, NextToolTurn, CallsOf, Add, Silent, Aligned, VerdictFits;
    var a := Says(Cost(1), Retry(false, [ANSWER], [QUESTION]), false);
    SmallSum(ZERO, Cost(1));
    Begins();
    GoodIsValid(BEGIN);
    OpensQuietly(PLAIN, BEGIN);
    PassReplies(PLAIN, BEGIN, a, BEGIN);
    AnswerReached(PLAIN, BEGIN, Cost(1), a);
    var answered := Answered(BEGIN, Cost(1));
    AnswerStandsIn();
    VerdictOkFits(BEGIN.messages, [], 1, answered.turn, ANSWER, a);
    SettleSound(PLAIN, answered, BEGIN.messages, [], ANSWER, Complete, a);
    var s := OnePass(PLAIN, BEGIN, a).outcome.s;
    GoodIsValid(s);
    OpensQuietly(PLAIN, s);
    NothingSilent();
  }

  lemma AnswerStandsIn()
    ensures StandsIn([ANSWER] + [QUESTION])
  {
    assert ([ANSWER] + [QUESTION])[0] == ANSWER && ([ANSWER] + [QUESTION])[1] == QUESTION;
  }

  const NUMBERED: Message := CALLING.(toolCalls := [CALL.(operation := Operation(0, 0))])

  lemma CalledScan()
    ensures Analyze([QUESTION, NUMBERED, NewToolResult(RESULT)]) == Some(Scan([], true, [NUMBERED.toolCalls], 0))
  {
    var ms := [QUESTION, NUMBERED, NewToolResult(RESULT)];
    assert ms[1..] == [NUMBERED, NewToolResult(RESULT)] && ms[1..][1..] == [NewToolResult(RESULT)] && ms[1..][1..][1..] == [];
    assert NUMBERED.toolCalls[..0] == [] && LastTurn(NUMBERED.toolCalls) == 0;
    assert WellNamed(NUMBERED.toolCalls);
    var begun := START.(endsWithResults := false);
    var waiting := Scan(NUMBERED.toolCalls, false, [NUMBERED.toolCalls], 0);
    assert begun.calls + [NUMBERED.toolCalls] == [NUMBERED.toolCalls];
    var closed := Scan([], true, [NUMBERED.toolCalls], 0);
    assert ScanStep(START, QUESTION) == Some(begun);
    assert ScanStep(begun, NUMBERED) == Some(waiting);
    assert waiting.unanswered[1..] == [];
    assert ScanStep(waiting, NewToolResult(RESULT)) == Some(closed);
    assert ScanAll(closed, []) == Some(closed);
    assert ScanAll(waiting, [NewToolResult(RESULT)]) == Some(closed);
    assert ScanAll(begun, ms[1..]) == Some(closed);
  }

  /** Two answers in a row, the rejected one and one in the replacement context, push the
      answer of an earlier step out of its place. */
  lemma CrowdedAnswerStops(next: Answers)
    requires next.inputs == []
    ensures var retry := Says(Cost(1), Retry(true, [ANSWER], [QUESTION]), false);
      var r := Run(WATCHED, Enter(BEGIN), [Calls(Cost(10), Cost(40), true)] + ([retry] + [next])).outcome;
      r.Stopped? && r.reason.BoundaryRejected?
  {
    hide Good, Add, ValidContinuation, BalancedWith, Settled, Reply, CallsOf, Open, OnePass, Run, Answered, Settle, KeepsAnswers;
    var calls, retry := Calls(Cost(10), Cost(40), true), Says(Cost(1), Retry(true, [ANSWER], [QUESTION]), false);
    Begins();
    var s := CalledPass();
    SmallSum(s.usage, Cost(1));
    GoodIsValid(s);
    OpensQuietly(WATCHED, s);
    PassReplies(WATCHED, s, retry, s);
    AnswerReached(WATCHED, s, Cost(1), retry);
    AnsweredUsage(s, Cost(1));
    RetryContinuesIff(WATCHED, Answered(s, Cost(1)), s.messages, CallsOf(s), ANSWER, Complete, retry);
    CrowdedKeepsNothing(s);
    var t := OnePass(WATCHED, s, retry).outcome.s;
    SettleUsage(WATCHED, Answered(s, Cost(1)), s.messages, retry);
    RunUnfolds(WATCHED, BEGIN, calls, [retry] + [next]);
    RunUnfolds(WATCHED, s, retry, [next]);
    assert [next] == [next] + [];
    RunUnfolds(WATCHED, t, next, []);
    OpensQuietly(WATCHED, t);
    OpenStops(WATCHED, t, next);
  }

  lemma AnsweredUsage(s: State, usage: Usage)
    ensures Answered(s, usage).usage == Add(s.usage, usage) && Answered(s, usage).turn == s.turn + 1
    ensures Answered(s, usage).toolCallsUsed == s.toolCallsUsed
  {
    hide Add;
  }

  lemma SettleUsage(cfg: Config, s: State, base: seq<Message>, a: Answers)
    requires s.steps != []
    ensures var r := Settle(cfg, s, base, ANSWER, Complete, a).s;
      r.usage == s.usage && r.toolCallsUsed == s.toolCallsUsed && |r.steps| == |s.steps|
  {
    hide RecoveryCount;
  }

  lemma CrowdedKeepsNothing(s: State)
    requires s.messages == [QUESTION, NUMBERED, NewToolResult(RESULT)]
    ensures CallsOf(s) == [NUMBERED.toolCalls]
    ensures forall turn :: !KeepsAnswers(Retried(s.messages, ANSWER, Retry(true, [ANSWER], [QUESTION])), CallsOf(s) + [[]], 2, turn)
  {
    hide ScanAll;
    CalledScan();
    var ms, calls := s.messages, NUMBERED.toolCalls;
    AnalyzeAppend(ms, ANSWER);
    AnalyzeAppend(ms + [ANSWER], ANSWER);
    AnalyzeAppend(ms + [ANSWER] + [ANSWER], QUESTION);
    assert Retried(ms, ANSWER, Retry(true, [ANSWER], [QUESTION])) == ms + [ANSWER] + [ANSWER] + [QUESTION];
    assert Last([calls] + [[]], 2)[0] == calls;
    assert Last([calls] + [[]] + [[]], 2)[0] == [];
  }

  /* ---------- compactors that delete ---------- */

  /** A compactor that keeps the first message and forgets the rest. */
  function Forget(): Compactor {
    (history: seq<Message>, _: int, _: nat) => Compacted(history[..if history == [] then 0 else 1], ZERO)
  }

  const FORGETFUL: Config := PLAIN.(maxTokens := 100, compact := Some(Forget()))

  /** Once such a compactor is called, the answer of the first step is gone, and the run is
      stopped by its own boundary. */
  lemma ForgettingStops(next: Answers)
    requires next.inputs == []
    ensures var r := Run(FORGETFUL, Enter(BEGIN), [Says(Cost(85), Accept(ANSWER), true)] + [next]).outcome;
      r.Stopped? && r.reason.BoundaryRejected?
  {
    hide Good, Add, ValidContinuation, BalancedWith, Settled, Reply, CallsOf, Open, OnePass, Run, AccountContext, Answered, KeepsAnswers, History.CompleteTurns, PrefixKept;
    var says := Says(Cost(85), Accept(ANSWER), true);
    Begins();
    SmallSum(ZERO, Cost(85));
    AnswerPass(FORGETFUL, BEGIN, Cost(85));
    FirstAnswer(Cost(85));
    var s := Decide(Answered(BEGIN, Cost(85)), Continue);
    RunUnfolds(FORGETFUL, BEGIN, says, [next]);
    assert [next] == [next] + [];
    RunUnfolds(FORGETFUL, s, next, []);
    UsageConsistent(s);
    NothingAddedToo(s);
    ForgotAnswer(s.turn, CallsOf(s));
    CompactionBoundaryIff(s, ZERO, [QUESTION]);
    OpensForgetting(s);
    OpenStops(FORGETFUL, s, next);
  }

  lemma NothingAddedToo(s: State)
    requires Good(s)
    ensures AccountContext(s, ZERO) == s && Add(s.usage, ZERO) == s.usage
  {
    hide Good, Add, AccountContext;
    LoopMemory.AccountNothing(s);
    LoopMemory.NothingAdded(s);
  }

  lemma ForgotAnswer(turn: int, calls: seq<seq<ToolCall>>)
    ensures !KeepsAnswers([QUESTION], calls, 1, turn)
  {
    assert [QUESTION][1..] == [];
    assert ScanStep(START, QUESTION) == Some(START.(endsWithResults := false));
    assert ScanAll(START.(endsWithResults := false), []) == Some(START.(endsWithResults := false));
  }

  lemma OpensForgetting(s: State)
    requires s.messages == [QUESTION, ANSWER] && |s.steps| == 1 && s.usage.total == 85 && AccountContext(s, ZERO) == s
    requires !ValidContinuation(Snapshot(s.(messages := [QUESTION]), Ready))
    ensures Open(FORGETFUL, s, []).outcome == Halt(BoundaryRejected, s.(messages := [QUESTION]))
  {
    hide ValidContinuation, History.CompleteTurns, AccountContext, PrefixKept;
    BothComplete();
    AloneComplete(QUESTION);
    NoPrefix();
    AdmitNothing(s);
    assert s.messages[..1] == [QUESTION];
    assert [QUESTION][1..] == [];
    assert CompactionFor(FORGETFUL, s) == Some(Forget());
    assert Compress(s, Forget(), 0, 0) == (true, s.(messages := [QUESTION]));
  }

  lemma NoPrefix()
    ensures PrefixKept([QUESTION, ANSWER], [QUESTION])
  {
    hide History.CompleteTurns;
    BothComplete();
    History.CachePrefixIsValid([QUESTION, ANSWER]);
    assert History.Aligned([QUESTION, ANSWER], 0);
  }

  /* ---------- fitting after an overflow ---------- */

  /** Every message costs one token. */
  const ONE_EACH: FitContext.Costs := FitContext.Costs((_: string) => 0, (_: Message, _: bool) => Some(1), (text: string) => text)

  const THREE: seq<Message> := [QUESTION, ANSWER, ANSWER]

  lemma ThreeComplete()
    ensures History.CompleteTurns(THREE) && History.CachePrefix(THREE) == 0
  {
    hide History.CompleteTurns;
    BothComplete();
    AloneComplete(ANSWER);
    History.StaysComplete([QUESTION, ANSWER], [ANSWER]);
    assert [QUESTION, ANSWER] + [ANSWER] == THREE;
    History.CachePrefixIsValid(THREE);
    assert History.Aligned(THREE, 0);
  }

  lemma MessageGroup(m: Message, o: nat, prefix: nat)
    requires o < |THREE| && m == THREE[o]
    ensures History.GroupAt(THREE, o) == [m] && FitContext.Priced(ONE_EACH, [m]) == Some(1)
    ensures (exists x :: x in [m] && FitContext.ProtectedMessage(x)) <==> FitContext.ProtectedMessage(m)
  {
    assert THREE[o..][0] == m && [m][1..] == [];
    assert FitContext.MessageCost(ONE_EACH, m) == Some(1);
    assert FitContext.Priced(ONE_EACH, []) == Some(0);
    assert m in [m];
  }

  /** The first answer is the oldest thing that can go. */
  lemma FitDropsAnswer()
    ensures FitContext.Fit(ONE_EACH, THREE, 2) == Ok([QUESTION, ANSWER])
  {
    hide History.CompleteTurns, History.GroupAt, FitContext.Priced, History.CachePrefix, FitContext.ProtectedMessage;
    ThreeComplete();
    MessageGroup(QUESTION, 0, 0);
    MessageGroup(ANSWER, 1, 0);
    MessageGroup(ANSWER, 2, 0);
    assert FitContext.ProtectedMessage(QUESTION) && !FitContext.ProtectedMessage(ANSWER) by { RolesProtect(); }
    var first, middle, last := FitContext.ContextGroup([QUESTION], 1, true), FitContext.ContextGroup([ANSWER], 1, false), FitContext.ContextGroup([ANSWER], 1, true);
    assert FitContext.ContextGroups(ONE_EACH, THREE, 0, 3) == Some([]);
    assert FitContext.ContextGroups(ONE_EACH, THREE, 0, 2) == Some([last] + []);
    assert FitContext.ContextGroups(ONE_EACH, THREE, 0, 1) == Some([middle] + ([last] + []));
    assert FitContext.ContextGroups(ONE_EACH, THREE, 0, 0) == Some([first] + ([middle] + ([last] + [])));
    var gs := [first] + ([middle] + ([last] + []));
    assert gs[1..] == [middle] + [last] && gs[1..][1..] == [last] && gs[1..][1..][1..] == [];
    assert FitContext.Cost([last]) == 1 && FitContext.Cost(gs[1..]) == 2 && FitContext.Cost(gs) == 3;
    assert FitContext.Drop([last], 2, 2) == [last];
    assert FitContext.Drop(gs[1..], 3, 2) == [last];
    assert FitContext.Drop(gs, 3, 2) == [first] + [last];
    var kept := [first] + [last];
    assert kept[1..] == [last];
    assert FitContext.Contents([last]) == [ANSWER] + [];
    assert FitContext.Contents(kept) == [QUESTION, ANSWER];
    assert FitContext.Cost(kept) == 2;
    BothComplete();
    History.CachePrefixIsValid([QUESTION, ANSWER]);
  }

  lemma RolesProtect()
    ensures FitContext.ProtectedMessage(QUESTION) && !FitContext.ProtectedMessage(ANSWER)
  {
  }

  const SMALL: Config := PLAIN.(contextTarget := 3, fitContext := LoopFitting.FittingCompactor(ONE_EACH))

  /** An overflow answered by fitting the history drops the answer of the first step; the
      next answer is stopped by its own boundary. */
  lemma FittedAnswerStops()
    ensures var says := Says(Cost(1), Accept(ANSWER), true);
      var overflow := says.(first := Overflowed(true, ZERO), second := Replied(ANSWER, Cost(1), Complete));
      var r := Run(SMALL, Enter(BEGIN), [says] + ([says] + [overflow])).outcome;
      r.Stopped? && r.reason.BoundaryRejected?
  {
    hide Good, Add, ValidContinuation, BalancedWith, Settled, Reply, CallsOf, Open, OnePass, Run, AccountContext, Answered, Ask, Act;
    var says := Says(Cost(1), Accept(ANSWER), true);
    var overflow := says.(first := Overflowed(true, ZERO), second := Replied(ANSWER, Cost(1), Complete));
    Begins();
    SmallSum(ZERO, Cost(1));
    AnswerPass(SMALL, BEGIN, Cost(1));
    var s := Decide(Answered(BEGIN, Cost(1)), Continue);
    AnsweredIs(BEGIN, Cost(1));
    SmallSum(s.usage, Cost(1));
    AnswerPass(SMALL, s, Cost(1));
    var t := Decide(Answered(s, Cost(1)), Continue);
    AnsweredIs(s, Cost(1));
    assert t.messages == THREE;
    SmallSum(t.usage, Cost(1));
    RunUnfolds(SMALL, BEGIN, says, [says] + [overflow]);
    RunUnfolds(SMALL, s, says, [overflow]);
    assert [overflow] == [overflow] + [];
    RunUnfolds(SMALL, t, overflow, []);
    GoodIsValid(t);
    OpensQuietly(SMALL, t);
    FittedCompress(t);
    assert |[QUESTION, ANSWER]| != |THREE|;
    AsksFitted(SMALL, t, overflow, t.(messages := [QUESTION, ANSWER]));
    PassActs(SMALL, t, overflow);
    FittedReply(t, overflow);
  }

  lemma AnsweredIs(s: State, usage: Usage)
    ensures var next := Decide(Answered(s, usage), Continue);
      && next.messages == s.messages + [ANSWER] && |next.steps| == |s.steps| + 1
      && next.usage == Add(s.usage, usage) && next.turn == s.turn + 1
  {
    hide Add;
  }

  lemma FittedCompress(t: State)
    requires Good(t) && t.messages == THREE
    ensures Compress(t, LoopFitting.FittingCompactor(ONE_EACH), 2, 0) == (true, t.(messages := [QUESTION, ANSWER]))
  {
    hide Good, AccountContext, History.CompleteTurns, PrefixKept, History.CachePrefix, FitContext.Fit;
    FitDropsAnswer();
    ThreeComplete();
    BothComplete();
    NothingAddedToo(t);
    NoPrefixOfThree();
  }

  lemma AsksFitted(cfg: Config, t: State, a: Answers, next: State)
    requires a.first.Overflowed? && !a.second.Overflowed? && a.inputs == [] && next.messages != t.messages
    requires cfg.contextTarget == 3 && cfg.compactTo.None? && cfg.compact.None? && Compress(t, cfg.fitContext, 2, 0) == (true, next)
    ensures Ask(cfg, t, a) == (next, a.second)
  {
    hide Compress;
  }

  lemma NoPrefixOfThree()
    ensures PrefixKept(THREE, [QUESTION, ANSWER])
  {
    ThreeComplete();
  }

  lemma PassActs(cfg: Config, s: State, a: Answers)
    requires Open(cfg, s, a.inputs).outcome == Running(s)
    ensures OnePass(cfg, s, a).outcome == Act(cfg, s, a).outcome
  {
    hide Open, Act;
  }

  lemma FittedReply(t: State, a: Answers)
    requires Good(t) && |t.steps| == 2 && Add(t.usage, Cost(1)).total < MAX_INT && a.second == Replied(ANSWER, Cost(1), Complete)
    requires Ask(SMALL, t, a) == (t.(messages := [QUESTION, ANSWER]), a.second)
    ensures var r := Act(SMALL, t, a).outcome; r.Stopped? && r.reason.BoundaryRejected?
  {
    hide Good, Add, ValidContinuation, BalancedWith, Settled, CallsOf, Ask, ScanAll, SameTurns;
    var fitted := t.(messages := [QUESTION, ANSWER]);
    var next := Answered(fitted, Cost(1));
    GoodMeans(t);
    RecordTurn(t, CallsOf(t), LastStep(next), Cost(1), [], next);
    TwoAnswers();
    TranscriptValidIff(next, CallsOf(t) + [[]], Snapshot(next, ValidatingOutput));
    RepliesWithAnswer(SMALL, fitted, ANSWER, Cost(1), a);
    assert next.messages == [QUESTION, ANSWER, ANSWER];
  }

  lemma TwoAnswers()
    ensures Analyze([QUESTION, ANSWER, ANSWER]).Some? ==> |Analyze([QUESTION, ANSWER, ANSWER]).value.calls| == 2
  {
    var ms := [QUESTION, ANSWER, ANSWER];
    if Analyze(ms).Some? {
      LoopFitting.ScanCollects(START, ms);
      assert ms[1..] == [ANSWER, ANSWER] && ms[1..][1..] == [ANSWER] && ms[1..][1..][1..] == [];
      assert LoopFitting.AssistantCalls([]) == [];
      assert |LoopFitting.AssistantCalls([ANSWER])| == 1;
      assert |LoopFitting.AssistantCalls([ANSWER, ANSWER])| == 2;
    }
  }
}
