/**
 Working memory as the loop's compactor: it is what the loop's theorems assume of one.
 */
module LoopMemory {
  import opened Wrappers
  import opened Messages
  import opened TokenUsage
  import opened AgentLoop
  import opened LoopLedger
  import opened LoopInvariant
  import History
  import WorkingMemory
  import ArchiveProofs
  import WorkingMemoryGuarantees

  function MemoryCompactor(m: WorkingMemory.Memory): Compactor {
    (history: seq<Message>, target: int, freshInputs: nat) =>
      var c := WorkingMemory.Compact(m, history, target, freshInputs);
      if c.result.Ok? then Compacted(c.result.value, c.usage) else CompactionFailed(c.usage)
  }

  /** If the history is complete, its tool groups are archived as wholes. */
  predicate WholeGroups(ms: seq<Message>) {
    History.CompleteTurns(ms) ==> ArchiveProofs.Uniform(ms)
  }

  /** On such a history working memory is a compactor the loop's invariant survives, as long
      as what its summary costs fits the ledger. */
  lemma MemoryIsCompactor(s: State, m: WorkingMemory.Memory, target: int, freshInputs: nat)
    requires WholeGroups(s.messages)
    requires var usage := WorkingMemory.Compact(m, s.messages, target, freshInputs).usage;
      Consistent(usage) && ContextWorkFits(s, CallsOf(s), usage)
    ensures CompactorOk(s, MemoryCompactor(m), target, freshInputs)
  {
    hide WorkingMemory.Compact, History.ArchivesTo, ContextWorkFits, Consistent, ArchiveProofs.Uniform, History.CompleteTurns;
    CompactNeedsComplete(m, s.messages, target, freshInputs);
    if WorkingMemory.Compact(m, s.messages, target, freshInputs).result.Ok? {
      WorkingMemoryGuarantees.CompactionArchivesHistory(m, s.messages, target, freshInputs);
    }
  }

  lemma CompactNeedsComplete(m: WorkingMemory.Memory, history: seq<Message>, target: int, freshInputs: nat)
    ensures WorkingMemory.Compact(m, history, target, freshInputs).result.Ok? ==> History.CompleteTurns(history)
  {
    hide History.CompleteTurns, History.ContextView, WorkingMemory.ArchiveFlags, WorkingMemory.Archive;
  }

  /** Accounting for no auxiliary work changes nothing. */
  lemma AccountNothing(s: State)
    requires Good(s)
    ensures AccountContext(s, ZERO) == s
  {
    hide Good, Add;
    NothingAdded(s);
    assert s.steps != [] ==> MapLast(s.steps, LastStep(s).(context := s.context, tokens := s.usage.total)) == s.steps;
  }

  lemma NothingAdded(s: State)
    requires Good(s)
    ensures Add(s.context, ZERO) == s.context && Add(s.usage, ZERO) == s.usage
    ensures s.steps != [] ==> LastStep(s).context == s.context && LastStep(s).tokens == s.usage.total
  {
    AddZero(s.context);
    AddZero(s.usage);
  }

  /** What working memory has compacted for the loop it leaves alone the next time. */
  lemma CompressTwice(s: State, m: WorkingMemory.Memory, target: int, freshInputs: nat, next: State)
    requires WholeGroups(s.messages) && Good(next)
    requires Compress(s, MemoryCompactor(m), target, freshInputs) == (true, next)
    ensures Compress(next, MemoryCompactor(m), target, 0) == (true, next)
  {
    hide Good, Compress, WorkingMemory.Compact, History.CompleteTurns, History.CachePrefix, AccountContext, ArchiveProofs.Uniform;
    AccountNothing(next);
    Compressed(s, m, target, freshInputs, next);
    CompactNeedsComplete(m, s.messages, target, freshInputs);
    WorkingMemoryGuarantees.CompactTwice(m, s.messages, target, freshInputs, 0);
    CompressesToItself(next, m, target);
  }

  lemma Compressed(s: State, m: WorkingMemory.Memory, target: int, freshInputs: nat, next: State)
    requires Compress(s, MemoryCompactor(m), target, freshInputs) == (true, next)
    ensures WorkingMemory.Compact(m, s.messages, target, freshInputs).result == Ok(next.messages)
    ensures History.CompleteTurns(next.messages)
  {
    hide WorkingMemory.Compact, History.CompleteTurns, History.CachePrefix;
  }

  lemma CompressesToItself(s: State, m: WorkingMemory.Memory, target: int)
    requires History.CompleteTurns(s.messages) && AccountContext(s, ZERO) == s
    requires WorkingMemory.Compact(m, s.messages, target, 0) == WorkingMemory.Compaction(Ok(s.messages), ZERO)
    ensures Compress(s, MemoryCompactor(m), target, 0) == (true, s)
  {
    hide WorkingMemory.Compact, History.CompleteTurns, AccountContext;
    assert s.(messages := s.messages) == s;
    History.CachePrefixIsValid(s.messages);
  }

  /** Where the loop takes a history that working memory has changed, what the model no longer
      sees is what the summary in it was made of, and the summary has been paid for. */
  lemma CompressTellsSummariser(s: State, m: WorkingMemory.Memory, target: int, freshInputs: nat, next: State)
    returns (k: nat, text: string, usage: Usage)
    requires Compress(s, MemoryCompactor(m), target, freshInputs) == (true, next) && next.messages != s.messages
    ensures k < |next.messages| == |s.messages| + 1 && next.messages[k] == WorkingMemory.SummaryMessage(text)
    ensures var marked := next.messages[..k] + next.messages[k + 1..];
      && History.SameTranscript(s.messages, marked)
      && m.summarize(WorkingMemoryGuarantees.Hidden(s.messages, marked)) == WorkingMemory.Summarized(text, usage)
    ensures next.context == Add(s.context, usage) && next.usage == Add(s.usage, usage)
    ensures WorkingMemoryGuarantees.FitsIn(m, next.messages, target)
  {
    hide WorkingMemory.Compact, WorkingMemoryGuarantees.Hidden, WorkingMemoryGuarantees.Carries, WorkingMemory.SummaryMessage, History.CompleteTurns, History.CachePrefix, History.ContextView, Add;
    Compressed(s, m, target, freshInputs, next);
    usage := WorkingMemory.Compact(m, s.messages, target, freshInputs).usage;
    k, text := WorkingMemoryGuarantees.CompactSummarizes(m, s.messages, target, freshInputs);
  }

  /** Working memory refuses as a compactor exactly when it fails, at the cost it had. */
  lemma MemoryAnswers(m: WorkingMemory.Memory, history: seq<Message>, target: int, freshInputs: nat)
    ensures var c, r := WorkingMemory.Compact(m, history, target, freshInputs), MemoryCompactor(m)(history, target, freshInputs);
      r.summary == c.usage && (r.Compacted? <==> c.result.Ok?) && (r.Compacted? ==> r.messages == c.result.value)
  {
    hide WorkingMemory.Compact;
  }
}
