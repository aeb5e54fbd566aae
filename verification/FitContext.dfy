/**
 Fitting a history into a token target: old disposable groups are dropped, then tool
 output is trimmed to head/tail excerpts.
 */
module FitContext {
  import opened Wrappers
  import opened Messages
  import opened TokenUsage
  import opened History
  import opened Excerpts

  /* ---------- costs ---------- */

  /** `frame` prices a message whose tool text has been blanked, given whether there was
      any; None means it carries media. `trim` strips surrounding white space. */
  datatype Costs = Costs(rune: RuneCost, frame: (Message, bool) -> Option<nat>, trim: string -> string)

  function Blanked(c: Costs, m: Message): Message
    requires m.toolResult.Some?
  {
    var r := m.toolResult.value;
    m.(toolResult := Some(r.(content := "", structured := if c.trim(r.content) == c.trim(r.structured) then "" else r.structured)))
  }

  function MessageCost(c: Costs, m: Message): Option<nat> {
    if m.toolResult.None? then c.frame(m, false)
    else
      var text := m.toolResult.value.content;
      var frame := c.frame(Blanked(c, m), text != "");
      if frame.None? then None else Some(frame.value + TextCost(c.rune, text))
  }

  function Priced(c: Costs, ms: seq<Message>): Option<nat> {
    if ms == [] then Some(0)
    else
      var first, rest := MessageCost(c, ms[0]), Priced(c, ms[1..]);
      if first.None? || rest.None? then None else Some(first.value + rest.value)
  }

  /* ---------- dropping groups ---------- */

  predicate ProtectedMessage(m: Message) {
    || m.role.System? || m.role.User?
    || (m.toolResult.Some? && (m.toolResult.value.isError || m.toolResult.value.name == SKILL_TOOL))
  }

  datatype ContextGroup = ContextGroup(messages: seq<Message>, cost: nat, protected: bool)

  /** The groups from position `o` on; protected ones hold protected messages, start inside
      the prefix, or end the history. */
  function ContextGroups(c: Costs, history: seq<Message>, prefix: nat, o: nat): Option<seq<ContextGroup>>
    requires o <= |history|
    decreases |history| - o
  {
    if o == |history| then Some([])
    else
      var g := GroupAt(history, o);
      var cost, rest := Priced(c, g), ContextGroups(c, history, prefix, o + |g|);
      if cost.None? || rest.None? then None
      else
        var protected := (exists m :: m in g && ProtectedMessage(m)) || o < prefix || o + |g| == |history|;
        Some([ContextGroup(g, cost.value, protected)] + rest.value)
  }

  function Contents(gs: seq<ContextGroup>): seq<Message> {
    if gs == [] then [] else gs[0].messages + Contents(gs[1..])
  }

  function Cost(gs: seq<ContextGroup>): nat {
    if gs == [] then 0 else gs[0].cost + Cost(gs[1..])
  }

  /** Oldest first, disposable groups go while the total is above the target. */
  function Drop(gs: seq<ContextGroup>, total: int, target: int): seq<ContextGroup> {
    if gs == [] then []
    else if !gs[0].protected && total > target then Drop(gs[1..], total - gs[0].cost, target)
    else [gs[0]] + Drop(gs[1..], total, target)
  }

  /** The groups without their first `n` disposable ones. */
  function Without(gs: seq<ContextGroup>, n: nat): seq<ContextGroup> {
    if gs == [] then []
    else if !gs[0].protected && n > 0 then Without(gs[1..], n - 1)
    else [gs[0]] + Without(gs[1..], n)
  }

  function Disposable(gs: seq<ContextGroup>): nat {
    if gs == [] then 0 else (if gs[0].protected then 0 else 1) + Disposable(gs[1..])
  }

  function Protected(gs: seq<ContextGroup>): seq<ContextGroup> {
    if gs == [] then [] else (if gs[0].protected then [gs[0]] else []) + Protected(gs[1..])
  }

  /* ---------- trimming tool output ---------- */

  predicate Trimmable(m: Message) {
    m.toolResult.Some? && m.toolResult.value.name != SKILL_TOOL && !m.fixed
  }

  function OutputText(c: Costs, r: ToolResult): string {
    if r.structured != "" && c.trim(r.content) != c.trim(r.structured) then r.content + "\nStructured: " + r.structured
    else r.content
  }

  function Shortened(m: Message, text: string, size: nat): Message
    requires m.toolResult.Some? && size < |text|
  {
    m.(toolResult := Some(m.toolResult.value.(content := HeadTail(text, size), structured := "")))
  }

  /** The cost of a shortened message without its excerpt. */
  function ShortFrame(c: Costs, m: Message): Option<nat>
    requires m.toolResult.Some?
  {
    c.frame(m.(toolResult := Some(m.toolResult.value.(content := "", structured := ""))), true)
  }

  predicate Oversized(c: Costs, m: Message) {
    Trimmable(m) && |OutputText(c, m.toolResult.value)| > 512
  }

  /** What a message may cost once it makes up for the excess. */
  function TrimLimit(before: nat, excess: int): int {
    Max(256, before - excess)
  }

  function TrimSize(c: Costs, text: string, frame: nat, limit: int): (size: nat)
    requires |text| > 512
    ensures 128 <= size < |text|
  {
    LongestFitting(c.rune, text, limit - frame, |text| - 1)
  }

  /** The message with its longest excerpt that makes up for the excess, if that saves
      anything; None when it cannot be priced. */
  function TrimOne(c: Costs, m: Message, excess: int): Option<Message>
    requires Oversized(c, m)
  {
    var text := OutputText(c, m.toolResult.value);
    var before, frame := MessageCost(c, m), ShortFrame(c, m);
    if before.None? || frame.None? then None
    else
      var short := Shortened(m, text, TrimSize(c, text, frame.value, TrimLimit(before.value, excess)));
      if MessageCost(c, short).None? || MessageCost(c, short).value >= before.value then Some(m) else Some(short)
  }

  function TrimFrom(c: Costs, ms: seq<Message>, i: nat, total: int, target: int): Option<(seq<Message>, int)>
    requires i <= |ms|
    decreases |ms| - i
  {
    if i == |ms| || total <= target then Some((ms, total))
    else if !Oversized(c, ms[i]) then TrimFrom(c, ms, i + 1, total, target)
    else
      var m := TrimOne(c, ms[i], total - target);
      if m.None? || MessageCost(c, m.value).None? || MessageCost(c, ms[i]).None? then None
      else TrimFrom(c, ms[i := m.value], i + 1, total - (MessageCost(c, ms[i]).value - MessageCost(c, m.value).value), target)
  }

  /* ---------- the whole operation ---------- */

  datatype FitError = Incomplete | Unpriced | OverLimit

  function Survivors(c: Costs, history: seq<Message>, target: int): Option<seq<ContextGroup>> {
    var gs := ContextGroups(c, history, CachePrefix(history), 0);
    if gs.None? then None else Some(Drop(gs.value, Cost(gs.value), target))
  }

  function Fit(c: Costs, history: seq<Message>, target: int): Result<seq<Message>, FitError> {
    if !CompleteTurns(history) then Err(Incomplete)
    else
      var survivors := Survivors(c, history, target);
      if survivors.None? then Err(Unpriced)
      else
        var kept := Contents(survivors.value);
        var trimmed := TrimFrom(c, kept, CachePrefix(kept), Cost(survivors.value), target);
        if trimmed.None? then Err(Unpriced)
        else if trimmed.value.1 > target then Err(OverLimit)
        else Ok(trimmed.value.0)
  }

  /* ---------- what is dropped ---------- */

  /** Exactly the oldest disposable groups go, and no more of them than needed. */
  lemma {:induction false} DropsOldest(gs: seq<ContextGroup>, total: int, target: int) returns (n: nat)
    ensures n <= Disposable(gs) && Drop(gs, total, target) == Without(gs, n)
    ensures n == 0 || total - (Cost(gs) - Cost(Without(gs, n - 1))) > target
    ensures n == Disposable(gs) || total - (Cost(gs) - Cost(Without(gs, n))) <= target
  {
    if gs == [] {
      n := 0;
    } else if !gs[0].protected && total > target {
      var k := DropsOldest(gs[1..], total - gs[0].cost, target);
      n := k + 1;
      if k == 0 {
        WithoutNone(gs[1..]);
        WithoutNone(gs);
      }
    } else if total <= target {
      DropNone(gs, total, target);
      WithoutNone(gs);
      n := 0;
    } else {
      n := DropsOldest(gs[1..], total, target);
      if n > 0 {
        assert Without(gs, n - 1) == [gs[0]] + Without(gs[1..], n - 1);
      }
    }
  }

  lemma {:induction false} WithoutNone(gs: seq<ContextGroup>)
    ensures Without(gs, 0) == gs
  {
    if gs != [] {
      WithoutNone(gs[1..]);
    }
  }

  lemma {:induction false} DropNone(gs: seq<ContextGroup>, total: int, target: int)
    requires total <= target
    ensures Drop(gs, total, target) == gs
  {
    if gs != [] {
      DropNone(gs[1..], total, target);
    }
  }

  /** Every protected group survives, in order. */
  lemma {:induction false} ProtectedSurvive(gs: seq<ContextGroup>, total: int, target: int)
    ensures Protected(Drop(gs, total, target)) == Protected(gs)
    ensures forall g | g in Drop(gs, total, target) :: g in gs
  {
    if gs != [] {
      ProtectedSurvive(gs[1..], if !gs[0].protected && total > target then total - gs[0].cost else total, target);
    }
  }

  /* ---------- groups and their contents ---------- */

  predicate Sound(c: Costs, gs: seq<ContextGroup>) {
    forall g | g in gs :: ValidGroup(g.messages) && Priced(c, g.messages) == Some(g.cost)
  }

  lemma {:induction false} GroupsSound(c: Costs, h: seq<Message>, prefix: nat, o: nat)
    requires o <= |h| && CompleteTurns(h[o..]) && ContextGroups(c, h, prefix, o).Some?
    ensures var gs := ContextGroups(c, h, prefix, o).value; Sound(c, gs) && Contents(gs) == h[o..]
    decreases |h| - o
  {
    hide ValidGroup, Width, Priced, ProtectedMessage;
    if o < |h| {
      var g, w := GroupAt(h, o), Width(h[o..]);
      assert h[o..][..w] == g && h[o..][w..] == h[o + w..];
      GroupsSound(c, h, prefix, o + |g|);
      assert h[o..] == g + h[o + w..];
    }
  }

  lemma {:induction false} PricedConcat(c: Costs, a: seq<Message>, b: seq<Message>)
    ensures Priced(c, a + b) ==
      if Priced(c, a).Some? && Priced(c, b).Some? then Some(Priced(c, a).value + Priced(c, b).value) else None
  {
    hide MessageCost;
    if a == [] {
      assert a + b == b;
    } else {
      assert (a + b)[1..] == a[1..] + b;
      PricedConcat(c, a[1..], b);
    }
  }

  lemma SoundParts(c: Costs, gs: seq<ContextGroup>)
    requires Sound(c, gs) && gs != []
    ensures ValidGroup(gs[0].messages) && Priced(c, gs[0].messages) == Some(gs[0].cost) && Sound(c, gs[1..])
  {
    hide ValidGroup, Priced;
    assert gs[0] in gs;
  }

  lemma {:induction false} ContentsComplete(c: Costs, gs: seq<ContextGroup>)
    requires Sound(c, gs)
    ensures CompleteTurns(Contents(gs))
  {
    hide CompleteTurns, ValidGroup, Sound;
    if gs == [] {
      NothingPriced(c);
    } else {
      SoundParts(c, gs);
      ContentsComplete(c, gs[1..]);
      OneGroup(gs[0].messages);
      StaysComplete(gs[0].messages, Contents(gs[1..]));
    }
  }

  lemma {:induction false} ContentsPriced(c: Costs, gs: seq<ContextGroup>)
    requires Sound(c, gs)
    ensures Priced(c, Contents(gs)) == Some(Cost(gs))
  {
    hide Priced, ValidGroup, Sound;
    if gs == [] {
      NothingPriced(c);
    } else {
      SoundParts(c, gs);
      ContentsPriced(c, gs[1..]);
      PricedConcat(c, gs[0].messages, Contents(gs[1..]));
    }
  }

  /** Any choice of sound groups is a complete history that costs what they cost. */
  lemma ContentsSound(c: Costs, gs: seq<ContextGroup>)
    requires Sound(c, gs)
    ensures CompleteTurns(Contents(gs)) && Priced(c, Contents(gs)) == Some(Cost(gs))
  {
    hide CompleteTurns, Priced, Sound, Contents, Cost;
    ContentsComplete(c, gs);
    ContentsPriced(c, gs);
  }

  lemma NothingPriced(c: Costs)
    ensures Priced(c, []) == Some(0) && CompleteTurns([])
  {
  }

  lemma OneGroup(g: seq<Message>)
    requires ValidGroup(g)
    ensures CompleteTurns(g)
  {
    assert Width(g) == |g| && g[..|g|] == g && g[|g|..] == [];
  }

  /* ---------- the prefix ---------- */

  /** Dropping starts after the protected prefix. */
  lemma {:induction false} PrefixSurvives(c: Costs, h: seq<Message>, prefix: nat, o: nat, total: int, target: int)
    requires o <= prefix <= |h| && Aligned(h[o..], prefix - o) && ContextGroups(c, h, prefix, o).Some?
    ensures ContextGroups(c, h, prefix, prefix).Some?
    ensures Contents(Drop(ContextGroups(c, h, prefix, o).value, total, target))
      == h[o..prefix] + Contents(Drop(ContextGroups(c, h, prefix, prefix).value, total, target))
    decreases |h| - o
  {
    hide Priced, ProtectedMessage, Width;
    if o < prefix {
      var g, w := GroupAt(h, o), Width(h[o..]);
      assert h[o..][w..] == h[o + w..];
      PrefixSurvives(c, h, prefix, o + w, total, target);
      assert h[o..prefix] == g + h[o + w..prefix];
    }
  }

  lemma {:induction false} AlignUpPrefix(a: seq<Message>, b: seq<Message>, k: nat)
    requires k <= |a| && CompleteTurns(a)
    ensures AlignUp(a + b, k) == AlignUp(a, k)
    decreases |a|
  {
    hide ValidGroup;
    if k > 0 {
      WidthOfComplete(a);
      var w := Width(a);
      assert Width(a + b) == w;
      if k > w {
        assert (a + b)[w..] == a[w..] + b;
        AlignUpPrefix(a[w..], b, k - w);
      }
    }
  }

  lemma {:induction false} DroppedFrom(gs: seq<ContextGroup>, total: int, target: int, m: Message)
    requires m in Contents(Drop(gs, total, target))
    ensures m in Contents(gs)
  {
    if gs != [] {
      var rest := if !gs[0].protected && total > target then total - gs[0].cost else total;
      if m in Contents(Drop(gs[1..], rest, target)) {
        DroppedFrom(gs[1..], rest, target, m);
      }
    }
  }

  /** The prefix is kept as it is, and is the prefix of what is kept. */
  lemma PrefixKept(c: Costs, h: seq<Message>, target: int)
    requires CompleteTurns(h) && Survivors(c, h, target).Some?
    ensures var p, kept := CachePrefix(h), Contents(Survivors(c, h, target).value);
      p <= |h| && p <= |kept| && kept[..p] == h[..p] && CachePrefix(kept) == p
  {
    hide CompleteTurns, ContextGroups, Drop, Contents, Aligned, AlignUp, LastMarker;
    CachePrefixIsValid(h);
    var p, total := CachePrefix(h), Cost(ContextGroups(c, h, CachePrefix(h), 0).value);
    assert h[0..] == h;
    PrefixSurvives(c, h, p, 0, total, target);
    var late := ContextGroups(c, h, p, p).value;
    var rest := Contents(Drop(late, total, target));
    var kept := h[..p] + rest;
    assert kept == Contents(Survivors(c, h, target).value);
    GroupsSound(c, h, p, p);
    forall i | p <= i < |kept| ensures !kept[i].cacheBoundary {
      DroppedFrom(late, total, target, kept[i]);
      assert kept[i] in h[p..];
    }
    LastMarkerBelow(h, p);
    LastMarkerBelow(kept, p);
    assert kept[..p] == h[..p];
    AlignUpPrefix(h[..p], h[p..], LastMarker(h));
    AlignUpPrefix(h[..p], rest, LastMarker(h));
    assert h == h[..p] + h[p..];
  }

  lemma {:induction false} LastMarkerBelow(ms: seq<Message>, p: nat)
    requires p <= |ms| && forall i :: p <= i < |ms| ==> !ms[i].cacheBoundary
    ensures LastMarker(ms) == LastMarker(ms[..p])
  {
    if p < |ms| {
      LastMarkerBelow(ms[..|ms| - 1], p);
      assert ms[..|ms| - 1][..p] == ms[..p];
    } else {
      assert ms[..p] == ms;
    }
  }

  /* ---------- trimming ---------- */

  /** `r` is `m`, or `m` with its tool text cut to the longest excerpt within some allowance. */
  predicate TrimmedTo(c: Costs, m: Message, r: Message) {
    || r == m
    || (Oversized(c, m) &&
        var text := OutputText(c, m.toolResult.value);
        exists size :: 128 <= size < |text| && r == Shortened(m, text, size))
  }

  lemma TrimOneTrims(c: Costs, m: Message, excess: int)
    requires Oversized(c, m) && TrimOne(c, m, excess).Some?
    ensures var r := TrimOne(c, m, excess).value;
      TrimmedTo(c, m, r) && SameShape(m, r) && (r == m || MessageCost(c, r).Some?)
  {
    hide MessageCost, ShortFrame, TrimSize;
  }

  /** What trimming one message achieves: the excerpt is the longest whose message fits the
      limit, or the shortest there is; it is used exactly when it saves anything. */
  lemma TrimOneLongest(c: Costs, m: Message, excess: int)
    requires Oversized(c, m) && MessageCost(c, m).Some? && ShortFrame(c, m).Some?
    ensures var text, before, frame := OutputText(c, m.toolResult.value), MessageCost(c, m).value, ShortFrame(c, m).value;
      var limit := TrimLimit(before, excess);
      var size := TrimSize(c, text, frame, limit);
      var after := frame + TextCost(c.rune, HeadTail(text, size));
      && TrimOne(c, m, excess) == Some(if after < before then Shortened(m, text, size) else m)
      && MessageCost(c, Shortened(m, text, size)) == Some(after)
      && (size > 128 ==> after <= limit)
      && forall larger :: size < larger < |text| ==> frame + TextCost(c.rune, HeadTail(text, larger)) > limit
  {
    hide OutputText, HeadTail, TextCost, MessageCost, ShortFrame, LongestFitting;
    var text, frame := OutputText(c, m.toolResult.value), ShortFrame(c, m).value;
    var limit := TrimLimit(MessageCost(c, m).value, excess);
    LongestIsLongest(c.rune, text, limit - frame, |text| - 1);
    ShortCost(c, m, text, TrimSize(c, text, frame, limit));
  }

  lemma ShortCost(c: Costs, m: Message, text: string, size: nat)
    requires m.toolResult.Some? && size < |text| && ShortFrame(c, m).Some?
    ensures MessageCost(c, Shortened(m, text, size)) == Some(ShortFrame(c, m).value + TextCost(c.rune, HeadTail(text, size)))
  {
    hide TextCost;
    assert OMITTED != "" && HeadTail(text, size) != "";
  }

  lemma PricedUpdate(c: Costs, ms: seq<Message>, i: nat, m: Message)
    requires i < |ms| && Priced(c, ms).Some? && MessageCost(c, m).Some?
    ensures MessageCost(c, ms[i]).Some?
    ensures Priced(c, ms[i := m]) == Some(Priced(c, ms).value - MessageCost(c, ms[i]).value + MessageCost(c, m).value)
  {
    hide MessageCost;
    var a, b := ms[..i], ms[i + 1..];
    assert ms == a + ([ms[i]] + b) && ms[i := m] == a + ([m] + b);
    PricedConcat(c, a, [ms[i]] + b);
    PricedConcat(c, a, [m] + b);
    assert ([ms[i]] + b)[1..] == b && ([m] + b)[1..] == b;
  }

  /** Trimming keeps every message but for its tool text, leaves what lies before `i`
      alone, and keeps the running total exact. */
  lemma {:induction false} TrimKeeps(c: Costs, ms: seq<Message>, i: nat, total: int, target: int)
    requires i <= |ms| && Priced(c, ms) == Some(total) && TrimFrom(c, ms, i, total, target).Some?
    ensures var (r, t) := TrimFrom(c, ms, i, total, target).value;
      && |r| == |ms| && r[..i] == ms[..i] && Priced(c, r) == Some(t)
      && SameShapes(ms, r)
      && forall k :: 0 <= k < |ms| ==> TrimmedTo(c, ms[k], r[k])
    decreases |ms| - i
  {
    hide MessageCost, Priced, TrimOne, Oversized, TrimmedTo;
    if i == |ms| || total <= target {
      NothingTrimmed(c, ms);
    } else if !Oversized(c, ms[i]) {
      TrimKeeps(c, ms, i + 1, total, target);
      var r := TrimFrom(c, ms, i, total, target).value.0;
      assert r[..i] == r[..i + 1][..i] && ms[..i] == ms[..i + 1][..i];
    } else {
      var m := TrimOne(c, ms[i], total - target).value;
      TrimOneTrims(c, ms[i], total - target);
      PricedUpdate(c, ms, i, m);
      TrimKeeps(c, ms[i := m], i + 1, total - (MessageCost(c, ms[i]).value - MessageCost(c, m).value), target);
      var r := TrimFrom(c, ms, i, total, target).value.0;
      assert r[i] == r[..i + 1][i] == ms[i := m][..i + 1][i] == m;
      assert r[..i] == r[..i + 1][..i] && ms[..i] == ms[i := m][..i + 1][..i];
      forall k | 0 <= k < |ms| ensures SameShape(ms[k], r[k]) && TrimmedTo(c, ms[k], r[k]) {
        assert SameShape(ms[i := m][k], r[k]) && TrimmedTo(c, ms[i := m][k], r[k]);
      }
    }
  }

  /** At its turn, message k was trimmed for what the history then cost too much. */
  predicate TriedAt(c: Costs, ms: seq<Message>, r: seq<Message>, k: nat, target: int)
    requires k < |ms| == |r|
  {
    if !Oversized(c, ms[k]) then r[k] == ms[k]
    else
      var cost := Priced(c, r[..k] + ms[k..]);
      cost.Some? && cost.value > target && TrimOne(c, ms[k], cost.value - target) == Some(r[k])
  }

  lemma TriedLater(c: Costs, ms: seq<Message>, next: seq<Message>, r: seq<Message>, k: nat, target: int)
    requires k < |ms| == |r| == |next| && next[k..] == ms[k..] && TriedAt(c, next, r, k, target)
    ensures TriedAt(c, ms, r, k, target)
  {
    hide Oversized, TrimOne, Priced;
    assert next[k] == next[k..][0] == ms[k..][0] == ms[k];
  }

  lemma TriedNow(c: Costs, ms: seq<Message>, r: seq<Message>, i: nat, total: int, target: int)
    requires i < |ms| == |r| && Priced(c, ms) == Some(total) && total > target && r[..i] == ms[..i]
    requires if Oversized(c, ms[i]) then TrimOne(c, ms[i], total - target) == Some(r[i]) else r[i] == ms[i]
    ensures TriedAt(c, ms, r, i, target)
  {
    hide Oversized, TrimOne, Priced;
    assert r[..i] + ms[i..] == ms;
  }

  lemma TrimUnfolds(c: Costs, ms: seq<Message>, i: nat, total: int, target: int)
    requires i < |ms| && total > target && TrimFrom(c, ms, i, total, target).Some?
    ensures if !Oversized(c, ms[i]) then TrimFrom(c, ms, i, total, target) == TrimFrom(c, ms, i + 1, total, target)
      else
        var m := TrimOne(c, ms[i], total - target);
        && m.Some? && MessageCost(c, m.value).Some? && MessageCost(c, ms[i]).Some?
        && TrimFrom(c, ms, i, total, target)
           == TrimFrom(c, ms[i := m.value], i + 1, total - (MessageCost(c, ms[i]).value - MessageCost(c, m.value).value), target)
  {
    hide MessageCost, TrimOne, Oversized;
  }

  lemma TrimStep(c: Costs, ms: seq<Message>, i: nat, total: int, target: int) returns (next: seq<Message>, left: int)
    requires i < |ms| && total > target && Priced(c, ms) == Some(total) && TrimFrom(c, ms, i, total, target).Some?
    ensures |next| == |ms| && next == ms[i := next[i]] && Priced(c, next) == Some(left)
    ensures TrimFrom(c, ms, i, total, target) == TrimFrom(c, next, i + 1, left, target)
    ensures if Oversized(c, ms[i]) then TrimOne(c, ms[i], total - target) == Some(next[i]) else next[i] == ms[i]
  {
    hide MessageCost, Priced, TrimOne, Oversized, TrimFrom;
    TrimUnfolds(c, ms, i, total, target);
    if !Oversized(c, ms[i]) {
      next, left := ms, total;
    } else {
      var m := TrimOne(c, ms[i], total - target).value;
      PricedUpdate(c, ms, i, m);
      next, left := ms[i := m], total - (MessageCost(c, ms[i]).value - MessageCost(c, m).value);
    }
  }

  /** Trimming goes from the oldest message to the point where the total first fits: every
      oversized message before it has been tried, none behind it has been touched. */
  lemma {:induction false} TrimsUpTo(c: Costs, ms: seq<Message>, i: nat, total: int, target: int) returns (stop: nat)
    requires i <= |ms| && Priced(c, ms) == Some(total) && TrimFrom(c, ms, i, total, target).Some?
    ensures var (r, t) := TrimFrom(c, ms, i, total, target).value;
      && i <= stop <= |ms| == |r| && r[..i] == ms[..i] && r[stop..] == ms[stop..]
      && (forall k :: i <= k < stop ==> TriedAt(c, ms, r, k, target))
      && (stop == |ms| || t <= target)
    decreases |ms| - i
  {
    hide Priced, TrimOne, Oversized, TriedAt;
    if i == |ms| || total <= target {
      stop := i;
    } else {
      var next, left := TrimStep(c, ms, i, total, target);
      hide TrimFrom;
      stop := TrimsUpTo(c, next, i + 1, left, target);
      var r := TrimFrom(c, ms, i, total, target).value.0;
      assert r[i] == r[..i + 1][i] == next[..i + 1][i] == next[i];
      assert r[..i] == r[..i + 1][..i] == next[..i + 1][..i] == ms[..i];
      TriedNow(c, ms, r, i, total, target);
      forall k | i + 1 <= k < stop ensures TriedAt(c, ms, r, k, target) {
        assert next[k..] == ms[k..];
        TriedLater(c, ms, next, r, k, target);
      }
      assert next[stop..] == ms[stop..];
    }
  }

  lemma NothingTrimmed(c: Costs, ms: seq<Message>)
    ensures SameShapes(ms, ms) && forall k :: 0 <= k < |ms| ==> TrimmedTo(c, ms[k], ms[k])
  {
  }

  /* ---------- what a successful fit guarantees ---------- */

  /** The result costs at most the target, is complete, keeps the prefix as it is, and is
      what survives the dropping with nothing but tool text trimmed. */
  lemma FitIsSound(c: Costs, h: seq<Message>, target: int)
    requires Fit(c, h, target).Ok?
    ensures var r, p := Fit(c, h, target).value, CachePrefix(h);
      && Priced(c, r).Some? && Priced(c, r).value <= target
      && CompleteTurns(r)
      && p <= |h| && p <= |r| && r[..p] == h[..p]
      && Survivors(c, h, target).Some?
      && var kept := Contents(Survivors(c, h, target).value);
      |r| == |kept| && forall k :: 0 <= k < |r| ==> TrimmedTo(c, kept[k], r[k])
  {
    hide CompleteTurns, Priced, ContextGroups, TrimFrom, CachePrefix, Contents, Sound, TrimmedTo, SameShapes, Drop;
    assert h[0..] == h;
    var gs := ContextGroups(c, h, CachePrefix(h), 0).value;
    GroupsSound(c, h, CachePrefix(h), 0);
    var survivors := Survivors(c, h, target).value;
    SurvivorsSound(c, gs, Cost(gs), target);
    ContentsSound(c, survivors);
    PrefixKept(c, h, target);
    var kept := Contents(survivors);
    TrimKeeps(c, kept, CachePrefix(kept), Cost(survivors), target);
    CompleteByShape(kept, Fit(c, h, target).value);
  }

  lemma SurvivorsSound(c: Costs, gs: seq<ContextGroup>, total: int, target: int)
    requires Sound(c, gs)
    ensures Sound(c, Drop(gs, total, target))
  {
    hide Drop, ValidGroup, Priced;
    ProtectedSurvive(gs, total, target);
  }

  lemma {:induction false} GroupsPriced(c: Costs, h: seq<Message>, prefix: nat, o: nat)
    requires o <= |h| && Priced(c, h[o..]).Some?
    ensures ContextGroups(c, h, prefix, o).Some?
    decreases |h| - o
  {
    hide Priced, ProtectedMessage, GroupAt;
    if o < |h| {
      var g := GroupAt(h, o);
      GroupIsSlice(h, o);
      PricedConcat(c, g, h[o + |g|..]);
      assert h[o..] == g + h[o + |g|..];
      GroupsPriced(c, h, prefix, o + |g|);
    }
  }

  lemma GroupIsSlice(h: seq<Message>, o: nat)
    requires o < |h|
    ensures GroupAt(h, o) == h[o..o + |GroupAt(h, o)|]
  {
  }

  /** Fitting a fitted history again changes nothing. */
  lemma FitTwice(c: Costs, h: seq<Message>, target: int)
    requires Fit(c, h, target).Ok?
    ensures Fit(c, Fit(c, h, target).value, target) == Fit(c, h, target)
  {
    FitIsSound(c, h, target);
    hide CompleteTurns, Priced, ContextGroups, CachePrefix, Contents, Sound, Drop, TrimmedTo;
    var r := Fit(c, h, target).value;
    assert r[0..] == r;
    GroupsPriced(c, r, CachePrefix(r), 0);
    var gs := ContextGroups(c, r, CachePrefix(r), 0).value;
    GroupsSound(c, r, CachePrefix(r), 0);
    ContentsSound(c, gs);
    DropNone(gs, Cost(gs), target);
  }

  /** Exactly the oldest disposable groups that had to go are dropped; every protected
      group, the last one among them, survives. */
  lemma FitDropsOldest(c: Costs, h: seq<Message>, target: int) returns (n: nat)
    requires Survivors(c, h, target).Some?
    ensures var gs := ContextGroups(c, h, CachePrefix(h), 0).value;
      var survivors := Survivors(c, h, target).value;
      && n <= Disposable(gs) && survivors == Without(gs, n) && Protected(survivors) == Protected(gs)
      && (n > 0 ==> Cost(Without(gs, n - 1)) > target)
      && (n < Disposable(gs) ==> Cost(survivors) <= target)
  {
    hide ContextGroups, CachePrefix;
    var gs := ContextGroups(c, h, CachePrefix(h), 0).value;
    n := DropsOldest(gs, Cost(gs), target);
    ProtectedSurvive(gs, Cost(gs), target);
  }

  lemma {:induction false} LastGroupProtected(c: Costs, h: seq<Message>, prefix: nat, o: nat)
    requires o < |h| && ContextGroups(c, h, prefix, o).Some?
    ensures var gs := ContextGroups(c, h, prefix, o).value; gs != [] && gs[|gs| - 1].protected
    decreases |h| - o
  {
    hide Priced, ProtectedMessage, GroupAt;
    var e := o + |GroupAt(h, o)|;
    if e < |h| {
      LastGroupProtected(c, h, prefix, e);
    }
  }

  /** A history is refused as too large only when nothing is left to do: no disposable group
      remains, and every oversized output behind the prefix has been tried in its turn. */
  lemma OverLimitMeans(c: Costs, h: seq<Message>, target: int) returns (r: seq<Message>)
    requires Fit(c, h, target) == Err(OverLimit)
    ensures CompleteTurns(h) && Survivors(c, h, target).Some?
    ensures var survivors := Survivors(c, h, target).value;
      var kept, p := Contents(survivors), CachePrefix(h);
      && Disposable(survivors) == 0
      && |r| == |kept| && p <= |kept| && r[..p] == kept[..p] == h[..p]
      && (forall k :: p <= k < |kept| ==> TriedAt(c, kept, r, k, target))
      && Priced(c, r).Some? && Priced(c, r).value > target
  {
    hide CompleteTurns, Priced, ContextGroups, TrimFrom, CachePrefix, Contents, Sound, Drop, TriedAt, Disposable;
    assert h[0..] == h;
    var gs := ContextGroups(c, h, CachePrefix(h), 0).value;
    var survivors := Survivors(c, h, target).value;
    var kept := Contents(survivors);
    GroupsSound(c, h, CachePrefix(h), 0);
    SurvivorsSound(c, gs, Cost(gs), target);
    ContentsSound(c, survivors);
    PrefixKept(c, h, target);
    TrimKeeps(c, kept, CachePrefix(kept), Cost(survivors), target);
    var stop := TrimsUpTo(c, kept, CachePrefix(kept), Cost(survivors), target);
    r := TrimFrom(c, kept, CachePrefix(kept), Cost(survivors), target).value.0;
    NothingToSpare(c, kept, CachePrefix(kept), Cost(survivors), target);
    var n := DropsOldest(gs, Cost(gs), target);
    WithoutAll(gs, n);
  }

  lemma NothingToSpare(c: Costs, ms: seq<Message>, i: nat, total: int, target: int)
    requires i <= |ms| && TrimFrom(c, ms, i, total, target).Some?
    ensures TrimFrom(c, ms, i, total, target).value.1 > target ==> total > target
  {
  }

  lemma {:induction false} WithoutAll(gs: seq<ContextGroup>, n: nat)
    ensures n >= Disposable(gs) ==> Disposable(Without(gs, n)) == 0
  {
    if gs != [] {
      WithoutAll(gs[1..], if gs[0].protected then n else if n > 0 then n - 1 else 0);
    }
  }

  /* ---------- what the model still sees ---------- */

  /** System and user messages, errors of tools and the instructions of skills. */
  predicate MustStay(m: Message) {
    || m.role.System? || m.role.User?
    || (m.toolResult.Some? && (m.toolResult.value.isError || m.toolResult.value.name == SKILL_TOOL))
  }

  /** `r` is `m`, or differs in the text of a tool's result that carries no instructions. */
  predicate StaysAs(m: Message, r: Message) {
    || r == m
    || (m.toolResult.Some? && r.toolResult.Some? && m.toolResult.value.name != SKILL_TOOL
        && r == m.(toolResult := Some(m.toolResult.value.(content := r.toolResult.value.content, structured := ""))))
  }

  lemma {:induction false} GroupOf(c: Costs, h: seq<Message>, prefix: nat, o: nat, m: Message) returns (g: ContextGroup)
    requires o <= |h| && ContextGroups(c, h, prefix, o).Some? && m in h[o..]
    ensures g in ContextGroups(c, h, prefix, o).value && m in g.messages && (MustStay(m) ==> g.protected)
    decreases |h| - o
  {
    hide Priced, GroupAt;
    var first := GroupAt(h, o);
    GroupIsSlice(h, o);
    assert h[o..] == first + h[o + |first|..];
    if m in first {
      g := ContextGroups(c, h, prefix, o).value[0];
      assert MustStay(m) ==> ProtectedMessage(m);
    } else {
      g := GroupOf(c, h, prefix, o + |first|, m);
    }
  }

  lemma {:induction false} ProtectedIn(gs: seq<ContextGroup>)
    ensures forall g :: g in Protected(gs) <==> g in gs && g.protected
  {
    if gs != [] {
      ProtectedIn(gs[1..]);
    }
  }

  lemma {:induction false} ContentIn(gs: seq<ContextGroup>, g: ContextGroup, m: Message)
    requires g in gs && m in g.messages
    ensures m in Contents(gs)
  {
    if g != gs[0] {
      ContentIn(gs[1..], g, m);
    }
  }

  /** Fitting loses none of them, wherever they are: at most the text of an error is cut. */
  lemma NothingVitalIsLost(c: Costs, h: seq<Message>, target: int, m: Message) returns (r: Message)
    requires Fit(c, h, target).Ok? && m in h && MustStay(m)
    ensures r in Fit(c, h, target).value && StaysAs(m, r)
  {
    hide Fit, ContextGroups, CachePrefix, Drop, Contents, Protected, CompleteTurns, Priced, TrimmedTo;
    var p := CachePrefix(h);
    FitIsSound(c, h, target);
    var gs := ContextGroups(c, h, p, 0).value;
    var survivors := Survivors(c, h, target).value;
    assert h[0..] == h;
    var g := GroupOf(c, h, p, 0, m);
    ProtectedSurvive(gs, Cost(gs), target);
    ProtectedIn(gs);
    ProtectedIn(survivors);
    ContentIn(survivors, g, m);
    var k :| 0 <= k < |Contents(survivors)| && Contents(survivors)[k] == m;
    r := Fit(c, h, target).value[k];
    TrimmedStays(c, m, r);
  }

  lemma TrimmedStays(c: Costs, m: Message, r: Message)
    requires TrimmedTo(c, m, r)
    ensures StaysAs(m, r)
  {
    hide OutputText, HeadTail;
  }

  /** The text an excerpt is taken of: all of the result's content, and its structured form
      behind it unless the two say the same. */
  lemma OutputTold(c: Costs, r: ToolResult)
    ensures var text, told := OutputText(c, r), r.structured == "" || c.trim(r.content) == c.trim(r.structured);
      && (told ==> text == r.content)
      && (!told ==>
            && |r.content| + |r.structured| < |text|
            && text[..|r.content|] == r.content && text[|text| - |r.structured|..] == r.structured)
  {
  }
}
