/**
 Tool-call slots of a chat-completions stream: where each delta is merged, and the dry run
 that admits a chunk before any of it is merged.
 */
module OpenAISlots {
  import opened Wrappers

  const MAX_ITEMS: nat := 1024
  const MAX_NAME: nat := 256
  const MAX_ARGUMENTS: nat := 0x10_0000

  datatype Item = Item(index: Option<int>, id: string, name: string, arguments: string)

  datatype Call = Call(id: string, name: string, arguments: string)

  datatype Ident = Ident(id: string, name: string)

  /** What resolution looks at: the slots taken, the slots by call ID and the latest slot. */
  datatype Directory = Directory(idents: map<int, Ident>, byId: map<string, int>, last: Option<int>)

  function TakenFrom(idents: map<int, Ident>, from: nat): set<int> {
    set k | k in idents && from <= k
  }

  lemma TakenShrinks(idents: map<int, Ident>, from: nat)
    requires from in idents
    ensures |TakenFrom(idents, from + 1)| < |TakenFrom(idents, from)|
  {
    var later := TakenFrom(idents, from + 1);
    assert from !in later && TakenFrom(idents, from) == later + {from};
  }

  /** The first free slot at or after `from`. */
  function FirstFree(idents: map<int, Ident>, from: nat): (slot: nat)
    ensures from <= slot && slot !in idents && forall k :: from <= k < slot ==> k in idents
    decreases |TakenFrom(idents, from)|
  {
    if from !in idents then from
    else
      TakenShrinks(idents, from);
      FirstFree(idents, from + 1)
  }

  predicate Taken(d: Directory, slot: Option<int>) {
    slot.Some? && slot.value in d.idents
  }

  /** The slot an item is merged into, with the directory's bookkeeping done. */
  function Resolve(d: Directory, item: Item): (int, Directory) {
    if item.index.Some? then
      var index := item.index.value;
      (index, d.(byId := if item.id != "" then d.byId[item.id := index] else d.byId, last := Some(index)))
    else if item.id != "" then
      if item.id in d.byId then (d.byId[item.id], d.(last := Some(d.byId[item.id])))
      else if Taken(d, d.last) && d.idents[d.last.value].id == "" && (d.idents[d.last.value].name == "" || item.name == "") then
        (d.last.value, d.(byId := d.byId[item.id := d.last.value]))
      else
        var slot := FirstFree(d.idents, 0);
        (slot, d.(byId := d.byId[item.id := slot], last := Some(slot)))
    else if d.last.Some? then
      if item.name != "" && Taken(d, d.last) && d.idents[d.last.value].name != "" then
        var slot := FirstFree(d.idents, 0);
        (slot, d.(last := Some(slot)))
      else (d.last.value, d)
    else (0, d.(last := Some(0)))
  }

  function Identify(d: Directory, slot: int, item: Item): Directory {
    var before := if slot in d.idents then d.idents[slot] else Ident("", "");
    d.(idents := d.idents[slot := Ident(if item.id != "" then item.id else before.id, if item.name != "" then item.name else before.name)])
  }

  /* ---------- the dry run ---------- */

  datatype DryRun = DryRun(directory: Directory, sizes: map<int, nat>)

  function SizeIn(sizes: map<int, nat>, slot: int): nat {
    if slot in sizes then sizes[slot] else 0
  }

  /** None when the item is refused. */
  function Try(r: DryRun, item: Item): Option<DryRun> {
    if |item.name| > MAX_NAME then None
    else
      var (slot, directory) := Resolve(r.directory, item);
      if slot < 0 then None
      else if |item.arguments| + SizeIn(r.sizes, slot) > MAX_ARGUMENTS then None
      else
        var sizes := r.sizes[slot := SizeIn(r.sizes, slot) + |item.arguments|];
        if |sizes| > MAX_ITEMS then None else Some(DryRun(Identify(directory, slot, item), sizes))
  }

  function TryAll(r: DryRun, items: seq<Item>): Option<DryRun>
    decreases |items|
  {
    if items == [] then Some(r)
    else
      var next := Try(r, items[0]);
      if next.None? then None else TryAll(next.value, items[1..])
  }

  /* ---------- the commit ---------- */

  /** `order` lists the slots by first use; `deltas` the slots the items went to. */
  datatype Slots = Slots(calls: map<int, Call>, byId: map<string, int>, last: Option<int>, order: seq<int>, deltas: seq<(int, Item)>)

  const NO_SLOTS := Slots(map[], map[], None, [], [])

  function Idents(calls: map<int, Call>): (idents: map<int, Ident>)
    ensures idents.Keys == calls.Keys
  {
    map k | k in calls :: Ident(calls[k].id, calls[k].name)
  }

  function DirectoryOf(s: Slots): Directory {
    Directory(Idents(s.calls), s.byId, s.last)
  }

  function Merged(s: Slots, slot: int, item: Item): Call {
    var before := if slot in s.calls then s.calls[slot] else Call("", "", "");
    Call(if item.id != "" then item.id else before.id, if item.name != "" then item.name else before.name,
         before.arguments + item.arguments)
  }

  function Commit(s: Slots, item: Item): Slots {
    var (slot, directory) := Resolve(DirectoryOf(s), item);
    Slots(s.calls[slot := Merged(s, slot, item)], directory.byId, directory.last,
          if slot in s.calls then s.order else s.order + [slot], s.deltas + [(slot, item)])
  }

  function CommitAll(s: Slots, items: seq<Item>): Slots
    decreases |items|
  {
    if items == [] then s else CommitAll(Commit(s, items[0]), items[1..])
  }

  function Sizes(calls: map<int, Call>): (sizes: map<int, nat>)
    ensures sizes.Keys == calls.Keys
  {
    map k | k in calls :: |calls[k].arguments|
  }

  function DryRunOf(s: Slots): DryRun {
    DryRun(DirectoryOf(s), Sizes(s.calls))
  }

  function Validate(s: Slots, items: seq<Item>): bool {
    |items| <= MAX_ITEMS && TryAll(DryRunOf(s), items).Some?
  }

  /* ---------- the dry run agrees with the commit ---------- */

  lemma MapUpdateSize(m: map<int, nat>, k: int, v: nat)
    ensures |m[k := v]| == |m| + if k in m then 0 else 1
  {
    assert m[k := v].Keys == m.Keys + {k};
  }

  /** An admitted item goes to the same slot in the dry run and in the commit. */
  lemma TryAgrees(s: Slots, item: Item)
    ensures Try(DryRunOf(s), item).Some? ==> Try(DryRunOf(s), item).value == DryRunOf(Commit(s, item))
  {
    hide Resolve;
    if Try(DryRunOf(s), item).Some? {
      var (slot, directory) := Resolve(DirectoryOf(s), item);
      var next := Commit(s, item);
      assert Idents(next.calls) == Identify(directory, slot, item).idents by { ResolveKeepsIdents(DirectoryOf(s), item); }
      assert Sizes(next.calls) == Sizes(s.calls)[slot := SizeIn(Sizes(s.calls), slot) + |item.arguments|];
    }
  }

  lemma ResolveKeepsIdents(d: Directory, item: Item)
    ensures Resolve(d, item).1.idents == d.idents
  {
  }

  lemma {:induction false} TryAllAgrees(s: Slots, items: seq<Item>)
    requires TryAll(DryRunOf(s), items).Some?
    ensures TryAll(DryRunOf(s), items).value == DryRunOf(CommitAll(s, items))
    decreases |items|
  {
    hide Try, Commit, DryRunOf;
    if items != [] {
      TryAgrees(s, items[0]);
      TryAllAgrees(Commit(s, items[0]), items[1..]);
    }
  }

  /* ---------- the limits ---------- */

  predicate Bounded(s: Slots) {
    && (forall k :: k in s.calls ==> 0 <= k && |s.calls[k].arguments| <= MAX_ARGUMENTS)
    && |s.calls| <= MAX_ITEMS
  }

  /** The slot order lists every slot once. */
  ghost predicate Listed(s: Slots) {
    && (forall i, j :: 0 <= i < j < |s.order| ==> s.order[i] != s.order[j])
    && (forall k :: k in s.order <==> k in s.calls)
  }

  lemma SlotCount(calls: map<int, Call>, slot: int, call: Call)
    ensures |calls[slot := call]| == |calls| + if slot in calls then 0 else 1
  {
    assert calls[slot := call].Keys == calls.Keys + {slot};
  }

  lemma SameSize(s: Slots)
    ensures |Sizes(s.calls)| == |s.calls|
  {
    assert Sizes(s.calls).Keys == s.calls.Keys;
  }

  /** An item is admitted exactly when its name is short enough and merging it keeps the limits. */
  lemma TryIff(s: Slots, item: Item)
    requires Bounded(s)
    ensures Try(DryRunOf(s), item).Some? <==> |item.name| <= MAX_NAME && Bounded(Commit(s, item))
  {
    hide Resolve;
    var (slot, directory) := Resolve(DirectoryOf(s), item);
    var next := Commit(s, item);
    SlotCount(s.calls, slot, Merged(s, slot, item));
    SameSize(s);
    MapUpdateSize(Sizes(s.calls), slot, SizeIn(Sizes(s.calls), slot) + |item.arguments|);
    assert slot in next.calls && |next.calls[slot].arguments| == SizeIn(Sizes(s.calls), slot) + |item.arguments|;
  }

  /** Merging only grows: what breaks a limit breaks it for good. */
  lemma CommitGrows(s: Slots, item: Item)
    requires Bounded(Commit(s, item))
    ensures Bounded(s)
  {
    hide Resolve;
    var (slot, directory) := Resolve(DirectoryOf(s), item);
    var next := Commit(s, item);
    SlotCount(s.calls, slot, Merged(s, slot, item));
    forall k | k in s.calls ensures 0 <= k && |s.calls[k].arguments| <= MAX_ARGUMENTS {
      assert k in next.calls;
    }
  }

  lemma {:induction false} CommitAllGrows(s: Slots, items: seq<Item>)
    requires Bounded(CommitAll(s, items))
    ensures Bounded(s)
    decreases |items|
  {
    hide Bounded, Commit;
    if items != [] {
      CommitAllGrows(Commit(s, items[0]), items[1..]);
      CommitGrows(s, items[0]);
    }
  }

  lemma {:induction false} TryAllIff(s: Slots, items: seq<Item>)
    requires Bounded(s)
    ensures TryAll(DryRunOf(s), items).Some? <==>
      (forall i :: 0 <= i < |items| ==> |items[i].name| <= MAX_NAME) && Bounded(CommitAll(s, items))
    decreases |items|
  {
    hide Try, Commit, DryRunOf, Bounded;
    if items != [] {
      var next := Commit(s, items[0]);
      TryIff(s, items[0]);
      TryAgrees(s, items[0]);
      assert forall i :: 0 < i < |items| ==> items[i] == items[1..][i - 1];
      if Bounded(next) {
        TryAllIff(next, items[1..]);
      } else if Bounded(CommitAll(s, items)) {
        CommitAllGrows(next, items[1..]);
      }
    }
  }

  /** A chunk is admitted exactly when it is not too long, its names are short enough, and
      merging all of it leaves every limit kept. */
  lemma ValidateIff(s: Slots, items: seq<Item>)
    requires Bounded(s)
    ensures Validate(s, items) <==>
      && |items| <= MAX_ITEMS
      && (forall i :: 0 <= i < |items| ==> |items[i].name| <= MAX_NAME)
      && Bounded(CommitAll(s, items))
  {
    hide TryAll, CommitAll, Bounded;
    TryAllIff(s, items);
  }

  /** The stream after its chunks: refused chunks change nothing. */
  function Stream(s: Slots, chunks: seq<seq<Item>>): Slots
    decreases |chunks|
  {
    if chunks == [] then s
    else Stream(if Validate(s, chunks[0]) then CommitAll(s, chunks[0]) else s, chunks[1..])
  }

  lemma CommitLists(s: Slots, item: Item)
    requires Listed(s)
    ensures Listed(Commit(s, item))
  {
    hide Resolve;
  }

  lemma {:induction false} CommitAllLists(s: Slots, items: seq<Item>)
    requires Listed(s)
    ensures Listed(CommitAll(s, items))
    decreases |items|
  {
    hide Listed, Commit;
    if items != [] {
      CommitLists(s, items[0]);
      CommitAllLists(Commit(s, items[0]), items[1..]);
    }
  }

  /** After any sequence of chunks no slot is negative, there are at most 1024 calls, and no
      call's arguments exceed a mebibyte. */
  lemma {:induction false} StreamStaysBounded(s: Slots, chunks: seq<seq<Item>>)
    requires Bounded(s) && Listed(s)
    ensures Bounded(Stream(s, chunks)) && Listed(Stream(s, chunks))
    decreases |chunks|
  {
    hide Bounded, Listed, Validate, CommitAll;
    if chunks != [] {
      ValidateIff(s, chunks[0]);
      CommitAllLists(s, chunks[0]);
      StreamStaysBounded(if Validate(s, chunks[0]) then CommitAll(s, chunks[0]) else s, chunks[1..]);
    }
  }

  /* ---------- what the calls are made of ---------- */

  /** The argument pieces of the items that went to a slot, put together. */
  function ArgumentsIn(deltas: seq<(int, Item)>, slot: int): string {
    if deltas == [] then ""
    else
      var last := deltas[|deltas| - 1];
      ArgumentsIn(deltas[..|deltas| - 1], slot) + (if last.0 == slot then last.1.arguments else "")
  }

  /** The latest ID given to a slot. */
  function IdIn(deltas: seq<(int, Item)>, slot: int): string {
    if deltas == [] then ""
    else
      var last := deltas[|deltas| - 1];
      if last.0 == slot && last.1.id != "" then last.1.id else IdIn(deltas[..|deltas| - 1], slot)
  }

  /** The latest name given to a slot. */
  function NameIn(deltas: seq<(int, Item)>, slot: int): string {
    if deltas == [] then ""
    else
      var last := deltas[|deltas| - 1];
      if last.0 == slot && last.1.name != "" then last.1.name else NameIn(deltas[..|deltas| - 1], slot)
  }

  /** The slots in the order of their first item. */
  function SlotsOf(deltas: seq<(int, Item)>): seq<int> {
    if deltas == [] then []
    else
      var before, slot := SlotsOf(deltas[..|deltas| - 1]), deltas[|deltas| - 1].0;
      if slot in before then before else before + [slot]
  }

  /** The slot the latest item with an ID went to. */
  function SlotWith(deltas: seq<(int, Item)>, id: string): Option<int> {
    if deltas == [] then None
    else if deltas[|deltas| - 1].1.id == id then Some(deltas[|deltas| - 1].0)
    else SlotWith(deltas[..|deltas| - 1], id)
  }

  function LastSlot(deltas: seq<(int, Item)>): Option<int> {
    if deltas == [] then None else Some(deltas[|deltas| - 1].0)
  }

  ghost predicate CallsAssembled(s: Slots) {
    && s.order == SlotsOf(s.deltas)
    && (forall k :: k in s.calls <==> k in s.order)
    && (forall k :: k in s.calls ==>
          s.calls[k] == Call(IdIn(s.deltas, k), NameIn(s.deltas, k), ArgumentsIn(s.deltas, k)))
  }

  ghost predicate BookKept(s: Slots) {
    && s.last == LastSlot(s.deltas) && "" !in s.byId
    && (forall id :: id != "" ==> (if id in s.byId then Some(s.byId[id]) else None) == SlotWith(s.deltas, id))
  }

  lemma {:induction false} NothingBefore(deltas: seq<(int, Item)>, slot: int)
    requires slot !in SlotsOf(deltas)
    ensures ArgumentsIn(deltas, slot) == IdIn(deltas, slot) == NameIn(deltas, slot) == ""
  {
    if deltas != [] {
      NothingBefore(deltas[..|deltas| - 1], slot);
    }
  }

  /** One more delta concerns its own slot alone. */
  lemma DeltaAdds(deltas: seq<(int, Item)>, slot: int, item: Item, k: int)
    ensures var all := deltas + [(slot, item)];
      && IdIn(all, k) == (if k == slot && item.id != "" then item.id else IdIn(deltas, k))
      && NameIn(all, k) == (if k == slot && item.name != "" then item.name else NameIn(deltas, k))
      && ArgumentsIn(all, k) == (if k == slot then ArgumentsIn(deltas, k) + item.arguments else ArgumentsIn(deltas, k))
      && SlotsOf(all) == (if slot in SlotsOf(deltas) then SlotsOf(deltas) else SlotsOf(deltas) + [slot])
  {
    var all := deltas + [(slot, item)];
    assert all[..|all| - 1] == deltas;
    assert ArgumentsIn(deltas, k) + "" == ArgumentsIn(deltas, k);
  }

  lemma CommitAssembles(s: Slots, item: Item)
    requires CallsAssembled(s)
    ensures CallsAssembled(Commit(s, item))
  {
    hide Resolve, ArgumentsIn, IdIn, NameIn, SlotsOf;
    var n, slot := Commit(s, item), Resolve(DirectoryOf(s), item).0;
    if slot !in s.calls {
      NothingBefore(s.deltas, slot);
    }
    DeltaAdds(s.deltas, slot, item, slot);
    forall k | k in n.calls
      ensures n.calls[k] == Call(IdIn(n.deltas, k), NameIn(n.deltas, k), ArgumentsIn(n.deltas, k))
    {
      DeltaAdds(s.deltas, slot, item, k);
    }
  }

  lemma CommitKeepsBook(s: Slots, item: Item)
    requires CallsAssembled(s) && BookKept(s)
    ensures BookKept(Commit(s, item))
  {
    hide CallsAssembled, Merged;
    var n := Commit(s, item);
    assert n.deltas[..|n.deltas| - 1] == s.deltas;
  }

  lemma {:induction false} CommitAllAssembles(s: Slots, items: seq<Item>)
    requires CallsAssembled(s) && BookKept(s)
    ensures CallsAssembled(CommitAll(s, items)) && BookKept(CommitAll(s, items))
    decreases |items|
  {
    hide CallsAssembled, BookKept, Commit;
    if items != [] {
      CommitAssembles(s, items[0]);
      CommitKeepsBook(s, items[0]);
      CommitAllAssembles(Commit(s, items[0]), items[1..]);
    }
  }

  function ItemsOf(deltas: seq<(int, Item)>): (items: seq<Item>)
    ensures |items| == |deltas| && forall k :: 0 <= k < |items| ==> items[k] == deltas[k].1
  {
    seq(|deltas|, k requires 0 <= k < |deltas| => deltas[k].1)
  }

  lemma {:induction false} CommitAllLogs(s: Slots, items: seq<Item>)
    ensures ItemsOf(CommitAll(s, items).deltas) == ItemsOf(s.deltas) + items
    decreases |items|
  {
    hide Resolve;
    if items != [] {
      CommitAllLogs(Commit(s, items[0]), items[1..]);
      assert ItemsOf(s.deltas) + items == ItemsOf(s.deltas) + [items[0]] + items[1..];
      assert ItemsOf(Commit(s, items[0]).deltas) == ItemsOf(s.deltas) + [items[0]];
    }
  }

  /** The items of the chunks that were accepted, from a stream's state on. */
  function AcceptedItems(s: Slots, chunks: seq<seq<Item>>): seq<Item>
    decreases |chunks|
  {
    if chunks == [] then []
    else if Validate(s, chunks[0]) then chunks[0] + AcceptedItems(CommitAll(s, chunks[0]), chunks[1..])
    else AcceptedItems(s, chunks[1..])
  }

  lemma {:induction false} ChunksAssemble(s: Slots, chunks: seq<seq<Item>>)
    requires CallsAssembled(s) && BookKept(s)
    ensures var n := Stream(s, chunks);
      && CallsAssembled(n) && BookKept(n)
      && ItemsOf(n.deltas) == ItemsOf(s.deltas) + AcceptedItems(s, chunks)
    decreases |chunks|
  {
    hide CallsAssembled, BookKept, Validate, CommitAll;
    if chunks != [] {
      CommitAllAssembles(s, chunks[0]);
      CommitAllLogs(s, chunks[0]);
      ChunksAssemble(if Validate(s, chunks[0]) then CommitAll(s, chunks[0]) else s, chunks[1..]);
    }
  }

  lemma StreamBegins()
    ensures CallsAssembled(NO_SLOTS) && BookKept(NO_SLOTS)
  {
  }

  /** After any chunks: each item of the accepted ones went to one slot, in order; a slot's
      call has the latest ID and name given to it and its argument pieces put together; and
      the slots are listed by first use. */
  lemma StreamAssembles(chunks: seq<seq<Item>>)
    ensures var n := Stream(NO_SLOTS, chunks);
      && CallsAssembled(n) && BookKept(n)
      && ItemsOf(n.deltas) == AcceptedItems(NO_SLOTS, chunks)
  {
    hide CallsAssembled, BookKept, Stream, AcceptedItems;
    StreamBegins();
    ChunksAssemble(NO_SLOTS, chunks);
    assert ItemsOf(NO_SLOTS.deltas) == [];
  }

  ghost predicate LeastFree(s: Slots, slot: int) {
    0 <= slot && slot !in s.calls && forall k :: 0 <= k < slot ==> k in s.calls
  }

  /** Where an item goes: to its index; or to the slot of the latest item with its ID; with a
      new ID to the latest slot, if that has no ID and not both have a name; without either
      to the latest slot, unless both have a name; and otherwise to the least free slot. */
  lemma ItemGoes(s: Slots, item: Item)
    requires CallsAssembled(s) && BookKept(s)
    ensures var slot, last := Resolve(DirectoryOf(s), item).0, LastSlot(s.deltas);
      var bothNamed := last.Some? && NameIn(s.deltas, last.value) != "" && item.name != "";
      if item.index.Some? then slot == item.index.value
      else if item.id != "" && SlotWith(s.deltas, item.id).Some? then slot == SlotWith(s.deltas, item.id).value
      else if last.Some? && !bothNamed && (item.id == "" || IdIn(s.deltas, last.value) == "") then slot == last.value
      else LeastFree(s, slot)
  {
    if s.deltas != [] {
      LatestTaken(s.deltas);
    }
  }

  lemma LatestTaken(deltas: seq<(int, Item)>)
    requires deltas != []
    ensures deltas[|deltas| - 1].0 in SlotsOf(deltas)
  {
  }

  /* ---------- the object ---------- */

  class StreamState {
    var calls: map<int, Call>
    var byId: map<string, int>
    var last: Option<int>
    var order: seq<int>
    var deltas: seq<(int, Item)>

    constructor ()
      ensures Now() == NO_SLOTS
    {
      calls, byId, last, order, deltas := map[], map[], None, [], [];
    }

    function Now(): Slots
      reads this
    {
      Slots(calls, byId, last, order, deltas)
    }

    /** Merges the items of one delta, one after another. */
    method ProcessDelta(items: seq<Item>)
      modifies this
      ensures Now() == CommitAll(old(Now()), items)
    {
      hide Resolve;
      assert items[0..] == items;
      for k := 0 to |items|
        invariant CommitAll(old(Now()), items) == CommitAll(Now(), items[k..])
      {
        assert items[k..][1..] == items[k + 1..];
        var item := items[k];
        ghost var before := Now();
        var slot, directory := ResolveToolCallIndex(DirectoryOf(Now()), item);
        byId, last := directory.byId, directory.last;
        var call := Call("", "", "");
        if slot in calls {
          call := calls[slot];
        } else {
          order := order + [slot];
        }
        if item.id != "" {
          call := call.(id := item.id);
        }
        if item.name != "" {
          call := call.(name := item.name);
        }
        call := call.(arguments := call.arguments + item.arguments);
        calls := calls[slot := call];
        deltas := deltas + [(slot, item)];
        assert Now() == Commit(before, item);
      }
      assert items[|items|..] == [];
    }

    method ValidateChunk(items: seq<Item>) returns (ok: bool)
      ensures ok == Validate(Now(), items)
    {
      hide Try;
      var r := DryRun(DirectoryOf(Now()), Sizes(calls));
      assert items[0..] == items;
      var k := 0;
      while k < |items|
        invariant k <= |items| && k <= MAX_ITEMS
        invariant TryAll(DryRunOf(Now()), items) == TryAll(r, items[k..])
      {
        assert items[k..][1..] == items[k + 1..];
        if k + 1 > MAX_ITEMS {
          return false;
        }
        var tried := TryItem(r, items[k]);
        if tried.None? {
          return false;
        }
        r := tried.value;
        k := k + 1;
      }
      ok := true;
    }

    method ConsumeChunk(items: seq<Item>) returns (ok: bool)
      modifies this
      ensures ok == Validate(old(Now()), items)
      ensures Now() == Stream(old(Now()), [items])
    {
      hide Validate, CommitAll;
      assert [items][1..] == [];
      ok := ValidateChunk(items);
      if ok {
        ProcessDelta(items);
      }
    }
  }

  method TryItem(r: DryRun, item: Item) returns (next: Option<DryRun>)
    ensures next == Try(r, item)
  {
    hide Resolve;
    if |item.name| > MAX_NAME {
      return None;
    }
    var slot, directory := ResolveToolCallIndex(r.directory, item);
    if slot < 0 {
      return None;
    }
    var ident := if slot in directory.idents then directory.idents[slot] else Ident("", "");
    if item.id != "" {
      ident := ident.(id := item.id);
    }
    if item.name != "" {
      ident := ident.(name := item.name);
    }
    directory := directory.(idents := directory.idents[slot := ident]);
    if |item.arguments| > MAX_ARGUMENTS - SizeIn(r.sizes, slot) {
      return None;
    }
    var sizes := r.sizes[slot := SizeIn(r.sizes, slot) + |item.arguments|];
    if |sizes| > MAX_ITEMS {
      return None;
    }
    next := Some(DryRun(directory, sizes));
  }

  method FreeSlot(idents: map<int, Ident>) returns (slot: nat)
    ensures slot == FirstFree(idents, 0)
  {
    slot := 0;
    while slot in idents
      invariant FirstFree(idents, 0) == FirstFree(idents, slot) && slot <= FirstFree(idents, 0)
      decreases FirstFree(idents, 0) - slot
    {
      slot := slot + 1;
    }
  }

  method ResolveToolCallIndex(d: Directory, item: Item) returns (slot: int, next: Directory)
    ensures (slot, next) == Resolve(d, item)
  {
    hide FirstFree;
    next := d;
    if item.index.Some? {
      slot := item.index.value;
      if item.id != "" {
        next := next.(byId := next.byId[item.id := slot]);
      }
      next := next.(last := Some(slot));
      return;
    }
    if item.id != "" {
      if item.id in d.byId {
        slot := d.byId[item.id];
        next := next.(last := Some(slot));
        return;
      }
      if d.last.Some? && d.last.value in d.idents {
        var existing := d.idents[d.last.value];
        if existing.id == "" && (existing.name == "" || item.name == "") {
          slot := d.last.value;
          next := next.(byId := next.byId[item.id := slot]);
          return;
        }
      }
      slot := FreeSlot(d.idents);
      next := next.(byId := next.byId[item.id := slot], last := Some(slot));
      return;
    }
    if d.last.Some? {
      if item.name != "" && d.last.value in d.idents && d.idents[d.last.value].name != "" {
        slot := FreeSlot(d.idents);
        next := next.(last := Some(slot));
        return;
      }
      slot := d.last.value;
      return;
    }
    slot := 0;
    next := next.(last := Some(0));
  }
}
