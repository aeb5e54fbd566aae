/**
 Fitting as the program runs it: running totals, a buffer trimmed in place, and a binary
 search for the excerpt.
 */
module FitProcedures {
  import opened Wrappers
  import opened Messages
  import opened History
  import opened Excerpts
  import opened FitContext

  /** Cuts the tool text of one message to the longest excerpt within the limit, trying
      each candidate in place. */
  method SearchExcerpt(c: Costs, history: array<Message>, index: nat, text: string, limit: int) returns (ok: bool)
    requires index < history.Length && history[index].toolResult.Some? && |text| > 512
    modifies history
    ensures ok == ShortFrame(c, old(history[index])).Some?
    ensures ok ==> var frame := ShortFrame(c, old(history[index])).value;
      history[..] == old(history[..])[index := Shortened(old(history[index]), text, TrimSize(c, text, frame, limit))]
  {
    hide LongestFitting, HeadTail, TextCost, MessageCost, ShortFrame;
    var original := history[index];
    ok := ShortFrame(c, original).Some?;
    ghost var allowed := limit - if ok then ShortFrame(c, original).value else 0;
    var low, high := 128, |text| - 1;
    while low < high
      invariant 128 <= low <= high < |text|
      invariant low < high || ok || |text| - 1 == high
      invariant history[..] == old(history[..])[index := history[index]]
      invariant ok ==> LongestFitting(c.rune, text, allowed, |text| - 1) == LongestFitting(c.rune, text, allowed, high)
      invariant ok ==> low <= LongestFitting(c.rune, text, allowed, high)
    {
      var mid := low + (high - low + 1) / 2;
      var candidate := Shortened(original, text, mid);
      history[index] := candidate;
      assert history[..] == old(history[..])[index := candidate];
      if !ok {
        return;
      }
      ShortCost(c, original, text, mid);
      if MessageCost(c, history[index]).value <= limit {
        low := mid;
        LongestAtLeast(c.rune, text, allowed, mid, high);
      } else {
        LongestFromBelow(c.rune, text, allowed, mid, high);
        high := mid - 1;
      }
    }
    history[index] := Shortened(original, text, low);
    assert history[..] == old(history[..])[index := history[index]];
  }

  /** Trims one oversized message in place, or puts it back when that saves nothing. */
  method TrimMessage(c: Costs, history: array<Message>, index: nat, excess: int) returns (ok: bool, saved: int)
    requires index < history.Length && Oversized(c, history[index])
    modifies history
    ensures ok == TrimOne(c, old(history[index]), excess).Some?
    ensures ok ==>
      && history[..] == old(history[..])[index := history[index]]
      && history[index] == TrimOne(c, old(history[index]), excess).value
      && MessageCost(c, old(history[index])).Some? && MessageCost(c, history[index]).Some?
      && saved == MessageCost(c, old(history[index])).value - MessageCost(c, history[index]).value
  {
    hide MessageCost, Oversized, ShortFrame, TrimOne, OutputText, TrimSize, TextCost, HeadTail;
    ghost var before := history[..];
    var current := history[index];
    OversizedText(c, current);
    var text, cost := OutputText(c, current.toolResult.value), MessageCost(c, current);
    if cost.None? {
      TrimUnpriced(c, current, excess);
      return false, 0;
    }
    var priced := SearchExcerpt(c, history, index, text, TrimLimit(cost.value, excess));
    if !priced {
      TrimUnpriced(c, current, excess);
      return false, 0;
    }
    TrimOneLongest(c, current, excess);
    assert history[index] == history[..][index];
    var after := MessageCost(c, history[index]);
    if after.value >= cost.value {
      history[index] := current;
      assert history[..] == before[index := current];
      return true, 0;
    }
    ok, saved := true, cost.value - after.value;
  }

  method TrimContextToolOutput(c: Costs, history: array<Message>, prefix: nat, spent: int, target: int) returns (ok: bool, total: int)
    requires prefix <= history.Length
    modifies history
    ensures ok == TrimFrom(c, old(history[..]), prefix, spent, target).Some?
    ensures ok ==> (history[..], total) == TrimFrom(c, old(history[..]), prefix, spent, target).value
  {
    hide MessageCost, Oversized, ShortFrame, TrimOne;
    total := spent;
    var index := prefix;
    while index < history.Length && total > target
      invariant prefix <= index <= history.Length
      invariant TrimFrom(c, old(history[..]), prefix, spent, target) == TrimFrom(c, history[..], index, total, target)
    {
      if Oversized(c, history[index]) {
        var trimmed, saved := TrimMessage(c, history, index, total - target);
        if !trimmed {
          return false, total;
        }
        total := total - saved;
      }
      index := index + 1;
    }
    ok := true;
  }

  lemma OversizedText(c: Costs, m: Message)
    requires Oversized(c, m)
    ensures m.toolResult.Some? && |OutputText(c, m.toolResult.value)| > 512
  {
  }

  lemma TrimUnpriced(c: Costs, m: Message, excess: int)
    requires Oversized(c, m) && (MessageCost(c, m).None? || ShortFrame(c, m).None?)
    ensures TrimOne(c, m, excess).None?
  {
  }

  /** Prices one group and tells whether one of its messages is protected. */
  method PriceGroup(c: Costs, g: seq<Message>) returns (cost: Option<nat>, protected: bool)
    ensures cost == Priced(c, g)
    ensures cost.Some? ==> (protected <==> exists m :: m in g && ProtectedMessage(m))
  {
    hide MessageCost, ProtectedMessage;
    var sum := 0;
    protected := false;
    assert g[..0] == [];
    for k := 0 to |g|
      invariant Priced(c, g[..k]) == Some(sum)
      invariant protected <==> exists m :: m in g[..k] && ProtectedMessage(m)
    {
      PricedSnoc(c, g, k);
      var price := MessageCost(c, g[k]);
      if price.None? {
        UnpricedPart(c, g, k + 1);
        return None, false;
      }
      sum := sum + price.value;
      assert g[..k + 1] == g[..k] + [g[k]];
      protected := protected || ProtectedMessage(g[k]);
    }
    assert g[..|g|] == g;
    cost := Some(sum);
  }

  lemma PricedSnoc(c: Costs, g: seq<Message>, k: nat)
    requires k < |g|
    ensures Priced(c, g[..k + 1]) ==
      if Priced(c, g[..k]).Some? && MessageCost(c, g[k]).Some? then Some(Priced(c, g[..k]).value + MessageCost(c, g[k]).value) else None
  {
    hide MessageCost;
    assert g[..k + 1] == g[..k] + [g[k]];
    PricedConcat(c, g[..k], [g[k]]);
    assert [g[k]][1..] == [];
  }

  lemma UnpricedPart(c: Costs, g: seq<Message>, k: nat)
    requires k <= |g| && Priced(c, g[..k]).None?
    ensures Priced(c, g).None?
  {
    assert g == g[..k] + g[k..];
    PricedConcat(c, g[..k], g[k..]);
  }

  lemma NextGroup(c: Costs, history: seq<Message>, prefix: nat, o: nat)
    requires o < |history| && CompleteTurns(history[o..])
    ensures var g := GroupAt(history, o);
      && |g| == 1 + |history[o].toolCalls| && g == history[o..o + |g|] && CompleteTurns(history[o + |g|..])
      && ContextGroups(c, history, prefix, o) ==
           var cost, rest := Priced(c, g), ContextGroups(c, history, prefix, o + |g|);
           if cost.None? || rest.None? then None
           else Some([ContextGroup(g, cost.value,
             (exists m :: m in g && ProtectedMessage(m)) || o < prefix || o + |g| == |history|)] + rest.value)
  {
    hide ValidGroup, Priced, ProtectedMessage;
    WidthOfComplete(history[o..]);
    assert history[o..][Width(history[o..])..] == history[o + Width(history[o..])..];
  }

  method BuildGroups(c: Costs, history: seq<Message>, prefix: nat) returns (groups: Option<seq<ContextGroup>>, total: nat)
    requires CompleteTurns(history)
    ensures groups == ContextGroups(c, history, prefix, 0)
    ensures groups.Some? ==> total == Cost(groups.value)
  {
    hide CompleteTurns, Priced, ProtectedMessage, GroupAt, ContextGroups;
    var built: seq<ContextGroup>, index := [], 0;
    total := 0;
    assert history[0..] == history;
    NoneBuilt(c, history, prefix);
    while index < |history|
      invariant index <= |history|
      invariant CompleteTurns(history[index..])
      invariant total == Cost(built)
      invariant ContextGroups(c, history, prefix, 0) ==
        var rest := ContextGroups(c, history, prefix, index); if rest.None? then None else Some(built + rest.value)
    {
      NextGroup(c, history, prefix, index);
      var end := index + 1 + |history[index].toolCalls|;
      var cost, protected := PriceGroup(c, history[index..end]);
      if cost.None? {
        return None, 0;
      }
      var group := ContextGroup(history[index..end], cost.value, protected || index < prefix || end == |history|);
      CostSnoc(built, group);
      total := total + group.cost;
      ghost var rest := ContextGroups(c, history, prefix, end);
      assert rest.Some? ==> built + ([group] + rest.value) == (built + [group]) + rest.value;
      built := built + [group];
      index := end;
    }
    NoGroups(c, history, prefix);
    assert built + [] == built;
    groups := Some(built);
  }

  lemma NoneBuilt(c: Costs, history: seq<Message>, prefix: nat)
    ensures var gs := ContextGroups(c, history, prefix, 0); gs.Some? ==> [] + gs.value == gs.value
  {
  }

  lemma NoGroups(c: Costs, history: seq<Message>, prefix: nat)
    ensures ContextGroups(c, history, prefix, |history|) == Some([])
  {
  }

  lemma {:induction false} CostSnoc(gs: seq<ContextGroup>, g: ContextGroup)
    ensures Cost(gs + [g]) == Cost(gs) + g.cost
    ensures Contents(gs + [g]) == Contents(gs) + g.messages
  {
    if gs != [] {
      assert (gs + [g])[1..] == gs[1..] + [g];
      CostSnoc(gs[1..], g);
    }
  }

  method DropGroups(groups: seq<ContextGroup>, spent: nat, target: int) returns (kept: seq<Message>, total: int)
    requires spent == Cost(groups)
    ensures var survivors := Drop(groups, spent, target); kept == Contents(survivors) && total == Cost(survivors)
  {
    kept, total := [], spent;
    ghost var done: seq<ContextGroup> := [];
    assert groups[0..] == groups;
    for k := 0 to |groups|
      invariant kept == Contents(done)
      invariant total == Cost(done) + Cost(groups[k..])
      invariant Drop(groups, spent, target) == done + Drop(groups[k..], total, target)
    {
      assert groups[k..][1..] == groups[k + 1..] && groups[k..][0] == groups[k];
      if !groups[k].protected && total > target {
        total := total - groups[k].cost;
      } else {
        CostSnoc(done, groups[k]);
        kept := kept + groups[k].messages;
        done := done + [groups[k]];
      }
    }
    assert groups[|groups|..] == [] && done + [] == done;
  }

  method FitHistory(c: Costs, history: seq<Message>, target: int) returns (r: Result<seq<Message>, FitError>)
    ensures r == Fit(c, history, target)
  {
    hide CompleteTurns, ContextGroups, CachePrefix, Drop, Contents, Cost, TrimFrom;
    var prefix := CachePrefixBoundary(history);
    if prefix.None? {
      return Err(Incomplete);
    }
    var groups, spent := BuildGroups(c, history, prefix.value);
    if groups.None? {
      return Err(Unpriced);
    }
    var kept, total := DropGroups(groups.value, spent, target);
    KeptIsComplete(c, history, target);
    var boundary := CachePrefixBoundary(kept);
    if total > target {
      var buffer := new Message[|kept|](i requires 0 <= i < |kept| => kept[i]);
      assert buffer[..] == kept;
      var ok;
      ok, total := TrimContextToolOutput(c, buffer, boundary.value, total, target);
      if !ok {
        return Err(Unpriced);
      }
      kept := buffer[..];
    } else {
      NothingToTrim(c, kept, boundary.value, total, target);
    }
    r := if total > target then Err(OverLimit) else Ok(kept);
  }

  lemma NothingToTrim(c: Costs, ms: seq<Message>, i: nat, total: int, target: int)
    requires i <= |ms| && total <= target
    ensures TrimFrom(c, ms, i, total, target) == Some((ms, total))
  {
  }

  lemma KeptIsComplete(c: Costs, h: seq<Message>, target: int)
    requires CompleteTurns(h) && Survivors(c, h, target).Some?
    ensures var kept := Contents(Survivors(c, h, target).value); CompleteTurns(kept) && CachePrefix(kept) <= |kept|
  {
    hide CompleteTurns, ContextGroups, CachePrefix, Drop, Contents, Cost, Sound;
    assert h[0..] == h;
    GroupsSound(c, h, CachePrefix(h), 0);
    var gs := ContextGroups(c, h, CachePrefix(h), 0).value;
    SurvivorsSound(c, gs, Cost(gs), target);
    ContentsSound(c, Drop(gs, Cost(gs), target));
    PrefixKept(c, h, target);
  }
}
