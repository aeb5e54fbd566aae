/**
 Assembling tool calls from complete calls and fragments that name themselves by ID, by
 index, or both. A builder is known by its place in the order of first mention.
 */
module CallBuilders {
  import opened Wrappers

  datatype Builder = Builder(
    id: string, index: Option<int>, name: string, arguments: string,
    fullSeen: bool, fullArguments: bool, conflict: bool)

  datatype Mention =
    | Complete(id: string, name: string, arguments: string)
    | Fragment(id: string, index: Option<int>, name: string, arguments: string)

  function IndexOf(m: Mention): Option<int> {
    if m.Complete? then None else m.index
  }

  /** The builders, and which of them IDs and indexes are bound to. */
  datatype Bench = Bench(builders: seq<Builder>, byId: map<string, nat>, byIndex: map<int, nat>)

  const EMPTY := Bench([], map[], map[])

  predicate Wired(b: Bench) {
    && (forall id | id in b.byId :: b.byId[id] < |b.builders|)
    && (forall i | i in b.byIndex :: b.byIndex[i] < |b.builders|)
  }

  lemma Bound(b: Bench, id: string, index: int)
    requires Wired(b)
    ensures id in b.byId ==> b.byId[id] < |b.builders|
    ensures index in b.byIndex ==> b.byIndex[index] < |b.builders|
  {
  }

  function Put(b: Bench, at: nat, builder: Builder): Bench
    requires at < |b.builders|
  {
    b.(builders := b.builders[at := builder])
  }

  /** An ID that already has a builder meets an index. */
  function MeetIndex(b: Bench, at: nat, index: int): Bench
    requires at < |b.builders|
  {
    var builder := b.builders[at];
    if (index in b.byIndex && b.byIndex[index] != at) || (builder.index.Some? && builder.index.value != index)
    then Put(b, at, builder.(conflict := true))
    else Put(b, at, builder.(index := Some(index))).(byIndex := b.byIndex[index := at])
  }

  /** An index that already has a builder meets an ID that has none. */
  function MeetId(b: Bench, at: nat, id: string): Bench
    requires at < |b.builders|
  {
    var builder := b.builders[at];
    if builder.id != "" && builder.id != id then Put(b, at, builder.(conflict := true))
    else Put(b, at, builder.(id := id)).(byId := b.byId[id := at])
  }

  function Create(b: Bench, id: string, index: Option<int>): Bench {
    var at := |b.builders|;
    Bench(
      b.builders + [Builder(id, index, "", "", false, false, false)],
      if id != "" then b.byId[id := at] else b.byId,
      if index.Some? then b.byIndex[index.value := at] else b.byIndex)
  }

  /** The builder an ID or an index leads to, made if there is none. */
  function Ensure(b: Bench, id: string, index: Option<int>): (r: (nat, Bench))
    requires Wired(b)
    ensures r.0 < |r.1.builders| && Wired(r.1)
  {
    Bound(b, id, if index.Some? then index.value else 0);
    if id != "" && id in b.byId then (b.byId[id], if index.Some? then MeetIndex(b, b.byId[id], index.value) else b)
    else if index.Some? && index.value in b.byIndex then
      (b.byIndex[index.value], if id != "" then MeetId(b, b.byIndex[index.value], id) else b)
    else (|b.builders|, Create(b, id, index))
  }

  function Amended(builder: Builder, m: Mention): Builder {
    if m.Fragment? && builder.fullArguments then builder
    else
      var named := builder.(id := if m.id != "" then m.id else builder.id, name := if m.name != "" then m.name else builder.name);
      match m
      case Complete(_, _, arguments) =>
        if arguments == "" then named.(fullSeen := true)
        else named.(fullSeen := true, fullArguments := true, arguments := arguments)
      case Fragment(_, index, _, arguments) =>
        named.(index := if index.Some? then index else builder.index, arguments := builder.arguments + arguments)
  }

  /** None when a call is completed twice. */
  function Apply(b: Bench, m: Mention): (r: Option<Bench>)
    requires Wired(b)
    ensures r.Some? ==> Wired(r.value)
  {
    var (at, ensured) := Ensure(b, m.id, IndexOf(m));
    var builder := ensured.builders[at];
    if m.Complete? && builder.fullSeen then None else Some(Put(ensured, at, Amended(builder, m)))
  }

  function ApplyAll(b: Bench, ms: seq<Mention>): (r: Option<Bench>)
    requires Wired(b)
    ensures r.Some? ==> Wired(r.value)
    decreases |ms|
  {
    if ms == [] then Some(b)
    else
      var next := Apply(b, ms[0]);
      if next.None? then None else ApplyAll(next.value, ms[1..])
  }

  /* ---------- what the bindings keep ---------- */

  /** A bound ID is its builder's own, unless the builder is in conflict. */
  predicate IdsOwned(b: Bench)
    requires Wired(b)
  {
    forall id | id in b.byId :: id != "" && (b.builders[b.byId[id]].conflict || b.builders[b.byId[id]].id == id)
  }

  /** A builder's own ID is bound to it, unless it is in conflict. */
  predicate OwnIdsBound(b: Bench) {
    forall k :: 0 <= k < |b.builders| ==>
      var own := b.builders[k].id; b.builders[k].conflict || own == "" || (own in b.byId && b.byId[own] == k)
  }

  /** A bound index is its builder's own, unless the builder is in conflict. */
  predicate IndexesOwned(b: Bench)
    requires Wired(b)
  {
    forall i | i in b.byIndex :: b.builders[b.byIndex[i]].conflict || b.builders[b.byIndex[i]].index == Some(i)
  }

  predicate Tidy(b: Bench) {
    Wired(b) && IdsOwned(b) && IndexesOwned(b) && OwnIdsBound(b)
  }

  predicate Conflicted(b: Bench) {
    exists k :: 0 <= k < |b.builders| && b.builders[k].conflict
  }

  /** Later states keep the builders, the bindings and the conflicts of earlier ones. */
  predicate Extends(b: Bench, n: Bench) {
    && |b.builders| <= |n.builders|
    && (forall k :: 0 <= k < |b.builders| && b.builders[k].conflict ==> n.builders[k].conflict)
    && (forall id | id in b.byId :: id in n.byId && n.byId[id] == b.byId[id])
    && (forall i | i in b.byIndex :: i in n.byIndex && n.byIndex[i] == b.byIndex[i])
  }

  /** A builder replaced by one with the same ID, or put in conflict. */
  lemma PutTidy(b: Bench, at: nat, builder: Builder)
    requires Tidy(b) && at < |b.builders|
    requires builder.conflict || builder.id == b.builders[at].id
    requires builder.conflict || b.builders[at].index.None? || builder.index == b.builders[at].index
    requires b.builders[at].conflict ==> builder.conflict
    ensures Tidy(Put(b, at, builder)) && Extends(b, Put(b, at, builder))
  {
  }

  /** What one mention does to the bench, whichever builder `at` it leads to. */
  predicate Led(b: Bench, n: Bench, at: nat, id: string, index: Option<int>) {
    && at < |n.builders| && |n.builders| == (if at < |b.builders| then |b.builders| else |b.builders| + 1)
    && (n.builders[at].conflict || id == "" || (id in n.byId && n.byId[id] == at && n.builders[at].id == id))
    && (n.builders[at].conflict || index.None? || (index.value in n.byIndex && n.byIndex[index.value] == at && n.builders[at].index == index))
    && (forall k :: 0 <= k < |b.builders| && k != at ==> n.builders[k] == b.builders[k])
    && (at < |b.builders| && b.builders[at].conflict ==> n.builders[at].conflict)
    && (if at < |b.builders| then n.builders[at] == b.builders[at].(id := n.builders[at].id, index := n.builders[at].index, conflict := n.builders[at].conflict)
        else n.builders[at] == Builder(id, index, "", "", false, false, false))
  }

  lemma BindIndexTidy(b: Bench, at: nat, index: int)
    requires Tidy(b) && at < |b.builders| && b.builders[at].index == Some(index)
    requires index in b.byIndex ==> b.byIndex[index] == at
    ensures var n := b.(byIndex := b.byIndex[index := at]); Tidy(n) && Extends(b, n)
  {
  }

  lemma MeetIndexTidy(b: Bench, at: nat, id: string, index: int)
    requires Tidy(b) && at < |b.builders| && id in b.byId && b.byId[id] == at
    ensures var n := MeetIndex(b, at, index); Tidy(n) && Extends(b, n) && Led(b, n, at, id, Some(index))
  {
    IdOwned(b, id);
    hide Tidy, Extends;
    if (index in b.byIndex && b.byIndex[index] != at) || (b.builders[at].index.Some? && b.builders[at].index.value != index) {
      PutTidy(b, at, b.builders[at].(conflict := true));
    } else {
      var put := Put(b, at, b.builders[at].(index := Some(index)));
      PutTidy(b, at, b.builders[at].(index := Some(index)));
      BindIndexTidy(put, at, index);
      ExtendsOn(b, put, put.(byIndex := put.byIndex[index := at]));
    }
  }

  lemma NameTidy(b: Bench, at: nat, id: string)
    requires Tidy(b) && at < |b.builders| && id != "" && id !in b.byId && b.builders[at].id == ""
    ensures var n := Put(b, at, b.builders[at].(id := id)).(byId := b.byId[id := at]); Tidy(n) && Extends(b, n)
  {
  }

  lemma MeetIdTidy(b: Bench, at: nat, id: string, index: int)
    requires Tidy(b) && at < |b.builders| && id != "" && id !in b.byId && index in b.byIndex && b.byIndex[index] == at
    ensures var n := MeetId(b, at, id); Tidy(n) && Extends(b, n) && Led(b, n, at, id, Some(index))
  {
    IndexOwned(b, index);
    var builder := b.builders[at];
    if builder.id != "" && builder.id != id {
      PutTidy(b, at, builder.(conflict := true));
      hide Tidy, Extends;
    } else if builder.id == "" {
      NameTidy(b, at, id);
      hide Tidy, Extends;
    }
  }

  lemma CreateTidy(b: Bench, id: string, index: Option<int>)
    requires Tidy(b) && (id == "" || id !in b.byId) && (index.Some? ==> index.value !in b.byIndex)
    ensures var n := Create(b, id, index); Tidy(n) && Extends(b, n) && Led(b, n, |b.builders|, id, index)
  {
  }

  lemma KeepTidy(b: Bench, at: nat, id: string, index: Option<int>)
    requires Tidy(b) && at < |b.builders|
    requires id == "" || (id in b.byId && b.byId[id] == at)
    requires index.None? || (index.value in b.byIndex && b.byIndex[index.value] == at)
    ensures Extends(b, b) && Led(b, b, at, id, index)
  {
    Bound(b, id, if index.Some? then index.value else 0);
    if index.Some? {
      IndexOwned(b, index.value);
    }
    if id != "" {
      IdOwned(b, id);
    }
  }

  lemma IdOwned(b: Bench, id: string)
    requires Tidy(b) && id in b.byId
    ensures b.byId[id] < |b.builders| && (b.builders[b.byId[id]].conflict || b.builders[b.byId[id]].id == id)
  {
  }

  lemma IndexOwned(b: Bench, index: int)
    requires Tidy(b) && index in b.byIndex
    ensures b.byIndex[index] < |b.builders|
    ensures b.builders[b.byIndex[index]].conflict || b.builders[b.byIndex[index]].index == Some(index)
  {
  }

  lemma EnsureTidy(b: Bench, id: string, index: Option<int>)
    requires Tidy(b)
    ensures var (at, n) := Ensure(b, id, index); Tidy(n) && Extends(b, n) && Led(b, n, at, id, index)
  {
    hide IdsOwned, IndexesOwned, OwnIdsBound, Extends, MeetIndex, MeetId, Create, Led;
    Bound(b, id, if index.Some? then index.value else 0);
    if id != "" && id in b.byId {
      if index.Some? {
        MeetIndexTidy(b, b.byId[id], id, index.value);
      } else {
        KeepTidy(b, b.byId[id], id, index);
      }
    } else if index.Some? && index.value in b.byIndex {
      if id != "" {
        MeetIdTidy(b, b.byIndex[index.value], id, index.value);
      } else {
        KeepTidy(b, b.byIndex[index.value], id, index);
      }
    } else {
      CreateTidy(b, id, index);
    }
  }

  lemma ExtendsOn(a: Bench, b: Bench, c: Bench)
    requires Extends(a, b) && Extends(b, c)
    ensures Extends(a, c)
  {
  }

  lemma ExtendsItself(b: Bench)
    ensures Extends(b, b)
  {
  }

  /** What a mention leaves: its ID and its index bound to the builder it went to, unless in
      conflict, and every other builder as it was. */
  predicate Landed(b: Bench, n: Bench, at: nat, m: Mention) {
    && at < |n.builders| && |n.builders| == (if at < |b.builders| then |b.builders| else |b.builders| + 1)
    && (n.builders[at].conflict || m.id == "" || (m.id in n.byId && n.byId[m.id] == at))
    && (n.builders[at].conflict || IndexOf(m).None? || (IndexOf(m).value in n.byIndex && n.byIndex[IndexOf(m).value] == at))
    && (forall k :: 0 <= k < |b.builders| && k != at ==> n.builders[k] == b.builders[k])
    && var before := if at < |b.builders| then b.builders[at] else Builder("", None, "", "", false, false, false);
    var after := Amended(before, m);
    && n.builders[at].arguments == after.arguments && n.builders[at].fullArguments == after.fullArguments
    && n.builders[at].fullSeen == after.fullSeen && n.builders[at].name == after.name
    && (before.conflict ==> n.builders[at].conflict)
  }

  lemma AmendLands(b: Bench, n: Bench, at: nat, m: Mention)
    requires at < |n.builders| && Led(b, n, at, m.id, IndexOf(m))
    ensures Landed(b, Put(n, at, Amended(n.builders[at], m)), at, m)
  {
  }

  lemma AmendTidy(b: Bench, n: Bench, at: nat, m: Mention)
    requires Tidy(n) && at < |n.builders| && Led(b, n, at, m.id, IndexOf(m))
    ensures Tidy(Put(n, at, Amended(n.builders[at], m))) && Extends(n, Put(n, at, Amended(n.builders[at], m)))
  {
    hide Tidy, Extends;
    PutTidy(n, at, Amended(n.builders[at], m));
  }

  lemma ApplyTidy(b: Bench, m: Mention)
    requires Tidy(b) && Apply(b, m).Some?
    ensures var at, n := Ensure(b, m.id, IndexOf(m)).0, Apply(b, m).value; Tidy(n) && Extends(b, n) && Landed(b, n, at, m)
  {
    EnsureTidy(b, m.id, IndexOf(m));
    hide Tidy, Extends, Ensure, Led, Landed, Amended;
    var (at, ensured) := Ensure(b, m.id, IndexOf(m));
    AmendTidy(b, ensured, at, m);
    AmendLands(b, ensured, at, m);
    ExtendsOn(b, ensured, Put(ensured, at, Amended(ensured.builders[at], m)));
  }

  lemma {:induction false} ApplyAllTidy(b: Bench, ms: seq<Mention>)
    requires Tidy(b) && ApplyAll(b, ms).Some?
    ensures Tidy(ApplyAll(b, ms).value) && Extends(b, ApplyAll(b, ms).value)
    decreases |ms|
  {
    hide IdsOwned, IndexesOwned, OwnIdsBound, Extends, Apply, Landed;
    if ms == [] {
      ExtendsItself(b);
    } else {
      ApplyTidy(b, ms[0]);
      ApplyAllTidy(Apply(b, ms[0]).value, ms[1..]);
      ExtendsOn(b, Apply(b, ms[0]).value, ApplyAll(b, ms).value);
    }
  }
}
