/**
 Which mentions make up which tool call: the assembled calls against a description that
 looks at the mentions only.
 */
module CallAssembly {
  import opened Wrappers
  import opened CallBuilders

  /** The builder each mention goes to. */
  function Places(b: Bench, ms: seq<Mention>): (places: seq<nat>)
    requires Wired(b) && ApplyAll(b, ms).Some?
    ensures |places| == |ms|
    decreases |ms|
  {
    if ms == [] then []
    else [Ensure(b, ms[0].id, IndexOf(ms[0])).0] + Places(Apply(b, ms[0]).value, ms[1..])
  }

  predicate AtPlace(n: Bench, m: Mention, at: nat) {
    && at < |n.builders|
    && (m.id != "" ==> m.id in n.byId && n.byId[m.id] == at)
    && (IndexOf(m).Some? ==> IndexOf(m).value in n.byIndex && n.byIndex[IndexOf(m).value] == at)
  }

  lemma LandedAtPlace(b: Bench, n: Bench, last: Bench, at: nat, m: Mention)
    requires Landed(b, n, at, m) && Extends(n, last) && !Conflicted(last)
    ensures AtPlace(last, m, at)
  {
    assert !last.builders[at].conflict;
    BindingKept(n, last, m.id, if IndexOf(m).Some? then IndexOf(m).value else 0);
  }

  lemma BindingKept(n: Bench, last: Bench, id: string, index: int)
    requires Extends(n, last)
    ensures id in n.byId ==> id in last.byId && last.byId[id] == n.byId[id]
    ensures index in n.byIndex ==> index in last.byIndex && last.byIndex[index] == n.byIndex[index]
  {
  }

  /** Without conflicts, every mention's ID and index lead to its builder to the end. */
  lemma {:induction false} PlacesBound(b: Bench, ms: seq<Mention>, i: nat)
    requires Tidy(b) && ApplyAll(b, ms).Some? && !Conflicted(ApplyAll(b, ms).value) && i < |ms|
    ensures AtPlace(ApplyAll(b, ms).value, ms[i], Places(b, ms)[i])
    decreases |ms|
  {
    hide IdsOwned, IndexesOwned, OwnIdsBound, Extends, Apply, Landed, AtPlace, Conflicted, Ensure;
    ApplyTidy(b, ms[0]);
    var next := Apply(b, ms[0]).value;
    ApplyAllTidy(next, ms[1..]);
    if i == 0 {
      LandedAtPlace(b, next, ApplyAll(b, ms).value, Places(b, ms)[0], ms[0]);
    } else {
      PlacesBound(next, ms[1..], i - 1);
    }
  }

  /* ---------- nameless mentions ---------- */

  predicate Unbound(b: Bench, at: nat) {
    at < |b.builders| && (forall id | id in b.byId :: b.byId[id] != at) && (forall i | i in b.byIndex :: b.byIndex[i] != at)
  }

  lemma UnboundStep(b: Bench, m: Mention, at: nat)
    requires Wired(b) && Unbound(b, at) && Apply(b, m).Some?
    ensures Unbound(Apply(b, m).value, at) && Apply(b, m).value.builders[at] == b.builders[at]
  {
    hide Amended;
    Bound(b, m.id, if IndexOf(m).Some? then IndexOf(m).value else 0);
  }

  lemma {:induction false} UnboundStays(b: Bench, ms: seq<Mention>, at: nat)
    requires Wired(b) && Unbound(b, at) && ApplyAll(b, ms).Some?
    ensures at < |ApplyAll(b, ms).value.builders| && ApplyAll(b, ms).value.builders[at] == b.builders[at]
    decreases |ms|
  {
    hide Apply, Unbound;
    UnboundIn(b, at);
    if ms != [] {
      UnboundStep(b, ms[0], at);
      UnboundStays(Apply(b, ms[0]).value, ms[1..], at);
    }
  }

  lemma UnboundIn(b: Bench, at: nat)
    requires Unbound(b, at)
    ensures at < |b.builders|
  {
  }

  /** A mention with neither ID nor index makes a call that never gets an ID. */
  lemma {:induction false} NamelessStaysNameless(b: Bench, ms: seq<Mention>, i: nat)
    requires Wired(b) && ApplyAll(b, ms).Some? && i < |ms| && ms[i].id == "" && IndexOf(ms[i]).None?
    ensures Places(b, ms)[i] < |ApplyAll(b, ms).value.builders|
    ensures ApplyAll(b, ms).value.builders[Places(b, ms)[i]].id == ""
    decreases |ms|
  {
    hide Apply, Unbound;
    var next := Apply(b, ms[0]).value;
    if i == 0 {
      NamelessCreates(b, ms[0]);
      UnboundStays(next, ms[1..], |b.builders|);
    } else {
      NamelessStaysNameless(next, ms[1..], i - 1);
    }
  }

  lemma NamelessCreates(b: Bench, m: Mention)
    requires Wired(b) && Apply(b, m).Some? && m.id == "" && IndexOf(m).None?
    ensures var n := Apply(b, m).value;
      && Ensure(b, m.id, IndexOf(m)).0 == |b.builders|
      && Unbound(n, |b.builders|) && |b.builders| < |n.builders| && n.builders[|b.builders|].id == ""
  {
  }

  /* ---------- what a call is made of ---------- */

  datatype Content = Content(name: string, arguments: string, fullSeen: bool, fullArguments: bool)

  const NO_CONTENT := Content("", "", false, false)

  function ContentAt(b: Bench, at: nat): Content {
    if at < |b.builders| then
      var builder := b.builders[at];
      Content(builder.name, builder.arguments, builder.fullSeen, builder.fullArguments)
    else NO_CONTENT
  }

  function Add(c: Content, m: Mention): Content {
    if m.Fragment? && c.fullArguments then c
    else
      var named := c.(name := if m.name != "" then m.name else c.name);
      match m
      case Complete(_, _, arguments) =>
        if arguments == "" then named.(fullSeen := true) else named.(fullSeen := true, fullArguments := true, arguments := arguments)
      case Fragment(_, _, _, arguments) => named.(arguments := c.arguments + arguments)
  }

  function AddAll(c: Content, ms: seq<Mention>): Content
    decreases |ms|
  {
    if ms == [] then c else AddAll(Add(c, ms[0]), ms[1..])
  }

  /** The mentions at whose position `marks` has `mark`. */
  function Select<T(==)>(ms: seq<Mention>, marks: seq<T>, mark: T): seq<Mention>
    requires |ms| == |marks|
    decreases |ms|
  {
    if ms == [] then [] else (if marks[0] == mark then [ms[0]] else []) + Select(ms[1..], marks[1..], mark)
  }

  lemma LandedContent(b: Bench, n: Bench, at: nat, m: Mention, k: nat)
    requires Landed(b, n, at, m)
    ensures ContentAt(n, k) == if k == at then Add(ContentAt(b, k), m) else ContentAt(b, k)
  {
  }

  lemma {:induction false} ContentOfPlace(b: Bench, ms: seq<Mention>, k: nat)
    requires Tidy(b) && ApplyAll(b, ms).Some?
    ensures ContentAt(ApplyAll(b, ms).value, k) == AddAll(ContentAt(b, k), Select(ms, Places(b, ms), k))
    decreases |ms|
  {
    hide IdsOwned, IndexesOwned, OwnIdsBound, Extends, Apply, Landed, Ensure, ContentAt, Add;
    if ms != [] {
      var next, at := Apply(b, ms[0]).value, Ensure(b, ms[0].id, IndexOf(ms[0])).0;
      ApplyTidy(b, ms[0]);
      LandedContent(b, next, at, ms[0], k);
      ContentOfPlace(next, ms[1..], k);
      var places := Places(b, ms);
      assert places[0] == at && places[1..] == Places(next, ms[1..]);
      var rest := Select(ms[1..], places[1..], k);
      assert at == k ==> ([ms[0]] + rest)[1..] == rest;
      assert at != k ==> Select(ms, places, k) == rest;
    }
  }

  /** No call is completed twice. */
  predicate CompletedOnce(seen: bool, ms: seq<Mention>)
    decreases |ms|
  {
    ms == [] || (!(seen && ms[0].Complete?) && CompletedOnce(seen || ms[0].Complete?, ms[1..]))
  }

  lemma AcceptedComplete(b: Bench, m: Mention)
    requires Tidy(b) && Apply(b, m).Some?
    ensures !(m.Complete? && ContentAt(b, Ensure(b, m.id, IndexOf(m)).0).fullSeen)
  {
    EnsureTidy(b, m.id, IndexOf(m));
    hide Ensure, Tidy, Extends;
  }

  lemma {:induction false} PlaceCompletedOnce(b: Bench, ms: seq<Mention>, k: nat)
    requires Tidy(b) && ApplyAll(b, ms).Some?
    ensures CompletedOnce(ContentAt(b, k).fullSeen, Select(ms, Places(b, ms), k))
    decreases |ms|
  {
    hide IdsOwned, IndexesOwned, OwnIdsBound, Extends, Apply, Landed, Ensure, ContentAt;
    if ms != [] {
      var next, at := Apply(b, ms[0]).value, Ensure(b, ms[0].id, IndexOf(ms[0])).0;
      ApplyTidy(b, ms[0]);
      AcceptedComplete(b, ms[0]);
      LandedContent(b, next, at, ms[0], k);
      PlaceCompletedOnce(next, ms[1..], k);
      var places := Places(b, ms);
      assert places[0] == at && places[1..] == Places(next, ms[1..]);
      var rest := Select(ms[1..], places[1..], k);
      assert at == k ==> ([ms[0]] + rest)[1..] == rest;
      assert at != k ==> Select(ms, places, k) == rest;
    }
  }

  /** The arguments a complete call supplies. */
  function Supplied(ms: seq<Mention>): Option<string>
    decreases |ms|
  {
    if ms == [] then None
    else if ms[0].Complete? && ms[0].arguments != "" then Some(ms[0].arguments)
    else Supplied(ms[1..])
  }

  function Pieces(ms: seq<Mention>): string
    decreases |ms|
  {
    if ms == [] then "" else (if ms[0].Fragment? then ms[0].arguments else "") + Pieces(ms[1..])
  }

  /** A call's arguments: those of the complete call if it supplied any, otherwise its
      fragments one after another. */
  function Arguments(ms: seq<Mention>): string {
    if Supplied(ms).Some? then Supplied(ms).value else Pieces(ms)
  }

  lemma {:induction false} ArgumentsAdd(c: Content, ms: seq<Mention>)
    requires CompletedOnce(c.fullSeen, ms) && (c.fullArguments ==> c.fullSeen)
    ensures AddAll(c, ms).arguments ==
      if c.fullArguments then c.arguments
      else if Supplied(ms).Some? then Supplied(ms).value
      else c.arguments + Pieces(ms)
    ensures c.fullSeen ==> Supplied(ms).None?
    decreases |ms|
  {
    if ms == [] {
      assert c.arguments + Pieces(ms) == c.arguments;
    } else {
      ArgumentsAdd(Add(c, ms[0]), ms[1..]);
      if ms[0].Fragment? {
        assert (c.arguments + ms[0].arguments) + Pieces(ms[1..]) == c.arguments + (ms[0].arguments + Pieces(ms[1..]));
      } else {
        assert "" + Pieces(ms[1..]) == Pieces(ms[1..]);
      }
    }
  }

  /** A call's name: the latest one given, up to the complete call that supplies arguments. */
  function LatestName(ms: seq<Mention>): string
    decreases |ms|
  {
    if ms == [] then ""
    else
      var later := if ms[0].Complete? && ms[0].arguments != "" then "" else LatestName(ms[1..]);
      if later != "" then later else ms[0].name
  }

  lemma {:induction false} NamesAdd(c: Content, ms: seq<Mention>)
    requires CompletedOnce(c.fullSeen, ms) && (c.fullArguments ==> c.fullSeen)
    ensures AddAll(c, ms).name == if c.fullArguments || LatestName(ms) == "" then c.name else LatestName(ms)
    decreases |ms|
  {
    if ms != [] {
      NamesAdd(Add(c, ms[0]), ms[1..]);
    }
  }

  /* ---------- the order of first mention ---------- */

  /** The positions whose mark has not occurred before, from `from` on. */
  function Firsts<T(==)>(marks: seq<T>, from: nat): seq<nat>
    requires from <= |marks|
    decreases |marks| - from
  {
    if from == |marks| then []
    else (if marks[from] in marks[..from] then [] else [from]) + Firsts(marks, from + 1)
  }

  lemma {:induction false} SameFirsts<T, U>(a: seq<T>, b: seq<U>, from: nat)
    requires |a| == |b| && from <= |a|
    requires forall i, j :: 0 <= i < |a| && 0 <= j < |a| ==> (a[i] == a[j] <==> b[i] == b[j])
    ensures Firsts(a, from) == Firsts(b, from)
    decreases |a| - from
  {
    if from < |a| {
      SameFirsts(a, b, from + 1);
      if a[from] in a[..from] {
        var i :| 0 <= i < from && a[..from][i] == a[from];
        assert b[..from][i] == b[from];
      }
      if b[from] in b[..from] {
        var i :| 0 <= i < from && b[..from][i] == b[from];
        assert a[..from][i] == a[from];
      }
    }
  }

  /** Places are handed out in order: a mention goes to a builder that has been mentioned, or
      to the next one. */
  predicate Dense(places: seq<nat>, seen: nat)
    decreases |places|
  {
    places == [] || (places[0] <= seen && Dense(places[1..], if places[0] == seen then seen + 1 else seen))
  }

  lemma {:induction false} PlacesDense(b: Bench, ms: seq<Mention>)
    requires Tidy(b) && ApplyAll(b, ms).Some?
    ensures Dense(Places(b, ms), |b.builders|)
    decreases |ms|
  {
    hide IdsOwned, IndexesOwned, OwnIdsBound, Extends, Apply, Ensure;
    if ms != [] {
      ApplyTidy(b, ms[0]);
      PlacesDense(Apply(b, ms[0]).value, ms[1..]);
      assert Places(b, ms)[1..] == Places(Apply(b, ms[0]).value, ms[1..]);
      EnsureAtMost(b, ms[0].id, IndexOf(ms[0]));
    }
  }

  lemma EnsureAtMost(b: Bench, id: string, index: Option<int>)
    requires Wired(b)
    ensures Ensure(b, id, index).0 <= |b.builders|
  {
    Bound(b, id, if index.Some? then index.value else 0);
  }

  function Seen(places: seq<nat>, seen: nat): nat
    decreases |places|
  {
    if places == [] then seen else Seen(places[1..], if places[0] == seen then seen + 1 else seen)
  }

  lemma {:induction false} BuildersSeen(b: Bench, ms: seq<Mention>)
    requires Tidy(b) && ApplyAll(b, ms).Some?
    ensures |ApplyAll(b, ms).value.builders| == Seen(Places(b, ms), |b.builders|)
    decreases |ms|
  {
    hide IdsOwned, IndexesOwned, OwnIdsBound, Extends, Apply, Ensure;
    if ms != [] {
      ApplyTidy(b, ms[0]);
      BuildersSeen(Apply(b, ms[0]).value, ms[1..]);
      assert Places(b, ms)[1..] == Places(Apply(b, ms[0]).value, ms[1..]);
      EnsureAtMost(b, ms[0].id, IndexOf(ms[0]));
    }
  }

  /** The first mentions of dense places are those of 0, 1, 2 and so on. */
  lemma {:induction false} DenseFirsts(places: seq<nat>, from: nat, seen: nat)
    requires from <= |places| && Dense(places[from..], seen)
    requires forall p: nat :: p in places[..from] <==> p < seen
    ensures var firsts := Firsts(places, from);
      && |firsts| == Seen(places[from..], seen) - seen
      && forall k :: 0 <= k < |firsts| ==> firsts[k] < |places| && places[firsts[k]] == seen + k
    decreases |places| - from
  {
    hide Firsts, Seen, Dense;
    if from < |places| {
      var p := places[from];
      var next := if p == seen then seen + 1 else seen;
      DenseStep(places, from, seen);
      assert places[..from + 1] == places[..from] + [p];
      DenseFirsts(places, from + 1, next);
      assert Firsts(places, from) == (if p < seen then [] else [from]) + Firsts(places, from + 1);
    } else {
      DenseEnd(places, seen);
    }
  }

  lemma DenseStep(places: seq<nat>, from: nat, seen: nat)
    requires from < |places| && Dense(places[from..], seen)
    ensures var p := places[from];
      var next := if p == seen then seen + 1 else seen;
      && p <= seen && Dense(places[from + 1..], next) && Seen(places[from..], seen) == Seen(places[from + 1..], next)
      && Firsts(places, from) == (if p in places[..from] then [] else [from]) + Firsts(places, from + 1)
  {
    assert places[from..][1..] == places[from + 1..];
  }

  lemma DenseEnd(places: seq<nat>, seen: nat)
    ensures Firsts(places, |places|) == [] && Seen(places[|places|..], seen) == seen
  {
  }

  /* ---------- the calls, described by the mentions alone ---------- */

  /** The IDs that indexes stand for. */
  function NamesOf(b: Bench): map<int, string>
    requires Wired(b)
  {
    map i | i in b.byIndex :: Bound(b, "", i); b.builders[b.byIndex[i]].id
  }

  /** The ID a mention means: its own, or that of its index. */
  function Meant(m: Mention, names: map<int, string>): string {
    if m.id != "" then m.id
    else if IndexOf(m).Some? && IndexOf(m).value in names then names[IndexOf(m).value]
    else ""
  }

  function MeantAll(ms: seq<Mention>, names: map<int, string>): (ids: seq<string>)
    ensures |ids| == |ms| && forall i :: 0 <= i < |ids| ==> ids[i] == Meant(ms[i], names)
  {
    seq(|ms|, i requires 0 <= i < |ms| => Meant(ms[i], names))
  }

  /** Nothing went wrong: every call has an ID and no ID or index was used for two calls. */
  predicate Settled(b: Bench) {
    !Conflicted(b) && forall k :: 0 <= k < |b.builders| ==> b.builders[k].id != ""
  }

  lemma PlaceMeans(ms: seq<Mention>, i: nat)
    requires ApplyAll(EMPTY, ms).Some? && Settled(ApplyAll(EMPTY, ms).value) && i < |ms|
    ensures var b := ApplyAll(EMPTY, ms).value;
      Places(EMPTY, ms)[i] < |b.builders| && Meant(ms[i], NamesOf(b)) == b.builders[Places(EMPTY, ms)[i]].id
  {
    hide ApplyAll, Places, OwnIdsBound, Conflicted;
    assert Tidy(EMPTY) by { EmptyTidy(); }
    ApplyAllTidy(EMPTY, ms);
    PlacesBound(EMPTY, ms, i);
    if ms[i].id == "" && IndexOf(ms[i]).None? {
      NamelessStaysNameless(EMPTY, ms, i);
    }
    OwnId(ApplyAll(EMPTY, ms).value, ms[i].id);
  }

  lemma EmptyTidy()
    ensures Tidy(EMPTY)
  {
  }

  lemma OwnId(b: Bench, id: string)
    requires Tidy(b) && !Conflicted(b)
    ensures id in b.byId ==> b.byId[id] < |b.builders| && b.builders[b.byId[id]].id == id
  {
    Bound(b, id, 0);
    if id in b.byId {
      assert !b.builders[b.byId[id]].conflict;
    }
  }

  /** Two builders never share an ID. */
  lemma DistinctIds(b: Bench, i: nat, j: nat)
    requires Tidy(b) && Settled(b) && i < |b.builders| && j < |b.builders| && b.builders[i].id == b.builders[j].id
    ensures i == j
  {
    assert !b.builders[i].conflict && !b.builders[j].conflict;
    OwnBound(b, i);
    OwnBound(b, j);
  }

  lemma DifferentIds(b: Bench, i: nat, j: nat)
    requires Tidy(b) && Settled(b) && i < j < |b.builders|
    ensures b.builders[i].id != b.builders[j].id
  {
    hide Tidy, Settled;
    if b.builders[i].id == b.builders[j].id {
      DistinctIds(b, i, j);
    }
  }

  lemma OwnBound(b: Bench, k: nat)
    requires OwnIdsBound(b) && k < |b.builders| && !b.builders[k].conflict && b.builders[k].id != ""
    ensures b.builders[k].id in b.byId && b.byId[b.builders[k].id] == k
  {
  }

  lemma {:induction false} SameSelection(ms: seq<Mention>, places: seq<nat>, ids: seq<string>, k: nat, id: string)
    requires |ms| == |places| == |ids|
    requires forall i :: 0 <= i < |ms| ==> (places[i] == k <==> ids[i] == id)
    ensures Select(ms, places, k) == Select(ms, ids, id)
    decreases |ms|
  {
    if ms != [] {
      SameSelection(ms[1..], places[1..], ids[1..], k, id);
    }
  }

  lemma PlacesAndIds(ms: seq<Mention>)
    requires ApplyAll(EMPTY, ms).Some? && Settled(ApplyAll(EMPTY, ms).value)
    ensures var b, places := ApplyAll(EMPTY, ms).value, Places(EMPTY, ms);
      var ids := MeantAll(ms, NamesOf(b));
      && (forall i :: 0 <= i < |ms| ==> places[i] < |b.builders| && ids[i] == b.builders[places[i]].id)
      && (forall i, j :: 0 <= i < |ms| && 0 <= j < |ms| ==> (places[i] == places[j] <==> ids[i] == ids[j]))
      && (forall i, k: nat :: 0 <= i < |ms| && k < |b.builders| ==> (places[i] == k <==> ids[i] == b.builders[k].id))
  {
    hide ApplyAll, Places, Settled, Meant, IdsOwned, IndexesOwned, OwnIdsBound;
    var b, places := ApplyAll(EMPTY, ms).value, Places(EMPTY, ms);
    var ids := MeantAll(ms, NamesOf(b));
    assert Tidy(EMPTY) by { EmptyTidy(); }
    ApplyAllTidy(EMPTY, ms);
    forall i | 0 <= i < |ms| ensures places[i] < |b.builders| && ids[i] == b.builders[places[i]].id {
      PlaceMeans(ms, i);
    }
    forall i, k: nat | 0 <= i < |ms| && k < |b.builders| ensures places[i] == k <==> ids[i] == b.builders[k].id {
      if ids[i] == b.builders[k].id {
        DistinctIds(b, places[i], k);
      }
    }
  }

  /** A mention's index stands for its ID wherever it has both. */
  predicate NamesAgree(ms: seq<Mention>, names: map<int, string>) {
    forall i :: 0 <= i < |ms| ==> IndexOf(ms[i]).Some? ==>
      IndexOf(ms[i]).value in names && (ms[i].id != "" ==> names[IndexOf(ms[i]).value] == ms[i].id)
  }

  lemma NamesFollow(ms: seq<Mention>)
    requires ApplyAll(EMPTY, ms).Some? && Settled(ApplyAll(EMPTY, ms).value)
    ensures NamesAgree(ms, NamesOf(ApplyAll(EMPTY, ms).value))
  {
    hide ApplyAll, Places, Settled, IdsOwned, IndexesOwned, OwnIdsBound;
    var b := ApplyAll(EMPTY, ms).value;
    assert Tidy(EMPTY) by { EmptyTidy(); }
    ApplyAllTidy(EMPTY, ms);
    forall i | 0 <= i < |ms| && IndexOf(ms[i]).Some?
      ensures IndexOf(ms[i]).value in NamesOf(b) && (ms[i].id != "" ==> NamesOf(b)[IndexOf(ms[i]).value] == ms[i].id)
    {
      SettledIsFree(b);
      PlacesBound(EMPTY, ms, i);
      OwnId(b, ms[i].id);
    }
  }

  /** Some mention carries both the ID and the index. */
  predicate Introduced(ms: seq<Mention>, id: string, index: int) {
    exists i :: 0 <= i < |ms| && ms[i].id == id && IndexOf(ms[i]) == Some(index)
  }

  /** Every index that stands for an ID was introduced together with it. */
  predicate NamesIntroduced(ms: seq<Mention>, names: map<int, string>) {
    forall index | index in names :: Introduced(ms, names[index], index)
  }

  predicate Linked(b: Bench, ms: seq<Mention>) {
    forall k :: 0 <= k < |b.builders| ==>
      var builder := b.builders[k];
      !builder.conflict && builder.id != "" && builder.index.Some? ==> Introduced(ms, builder.id, builder.index.value)
  }

  lemma IntroducedLater(ms: seq<Mention>, m: Mention, id: string, index: int)
    ensures Introduced(ms, id, index) ==> Introduced(ms + [m], id, index)
    ensures m.id == id && IndexOf(m) == Some(index) ==> Introduced(ms + [m], id, index)
  {
    assert (ms + [m])[|ms|] == m;
    if i :| 0 <= i < |ms| && ms[i].id == id && IndexOf(ms[i]) == Some(index) {
      assert (ms + [m])[i] == ms[i];
    }
  }

  /** A mention without ID or without index links nothing. */
  lemma EnsureKeeps(b: Bench, m: Mention)
    requires Tidy(b) && Apply(b, m).Some?
    ensures var at, n := Ensure(b, m.id, IndexOf(m)).0, Apply(b, m).value;
      && at < |n.builders|
      && (forall k :: 0 <= k < |n.builders| && k != at ==> k < |b.builders| && n.builders[k] == b.builders[k])
      && (!n.builders[at].conflict && n.builders[at].id != "" && n.builders[at].index.Some? ==>
            || (m.id == n.builders[at].id && IndexOf(m) == n.builders[at].index)
            || (at < |b.builders| && b.builders[at].id == n.builders[at].id && b.builders[at].index == n.builders[at].index && !b.builders[at].conflict))
  {
    EnsureTidy(b, m.id, IndexOf(m));
    hide Tidy, Extends;
  }

  lemma ApplyLinks(b: Bench, m: Mention, ms: seq<Mention>)
    requires Tidy(b) && Apply(b, m).Some? && Linked(b, ms)
    ensures Linked(Apply(b, m).value, ms + [m])
  {
    EnsureKeeps(b, m);
    hide Tidy, Apply, Ensure, Introduced;
    var n := Apply(b, m).value;
    forall k | 0 <= k < |n.builders| && !n.builders[k].conflict && n.builders[k].id != "" && n.builders[k].index.Some?
      ensures Introduced(ms + [m], n.builders[k].id, n.builders[k].index.value)
    {
      IntroducedLater(ms, m, n.builders[k].id, n.builders[k].index.value);
    }
  }

  lemma {:induction false} ApplyAllLinks(b: Bench, seen: seq<Mention>, ms: seq<Mention>)
    requires Tidy(b) && ApplyAll(b, ms).Some? && Linked(b, seen)
    ensures Linked(ApplyAll(b, ms).value, seen + ms)
    decreases |ms|
  {
    hide Tidy, Apply, Linked;
    if ms == [] {
      assert seen + ms == seen;
    } else {
      FirstApplies(b, ms);
      ApplyTidy(b, ms[0]);
      ApplyLinks(b, ms[0], seen);
      ApplyAllLinks(Apply(b, ms[0]).value, seen + [ms[0]], ms[1..]);
      assert seen + [ms[0]] + ms[1..] == seen + ms;
    }
  }

  lemma FirstApplies(b: Bench, ms: seq<Mention>)
    requires Tidy(b) && ms != [] && ApplyAll(b, ms).Some?
    ensures Wired(b) && Apply(b, ms[0]).Some?
  {
  }

  lemma NamesWereIntroduced(ms: seq<Mention>)
    requires ApplyAll(EMPTY, ms).Some? && Settled(ApplyAll(EMPTY, ms).value)
    ensures NamesIntroduced(ms, NamesOf(ApplyAll(EMPTY, ms).value))
  {
    hide ApplyAll, Introduced;
    var b := ApplyAll(EMPTY, ms).value;
    EmptyTidy();
    ApplyAllTidy(EMPTY, ms);
    ApplyAllLinks(EMPTY, [], ms);
    assert [] + ms == ms;
    forall index | index in NamesOf(b) ensures Introduced(ms, NamesOf(b)[index], index) {
      IndexOwned(b, index);
      assert b.byIndex[index] < |b.builders| && !b.builders[b.byIndex[index]].conflict;
    }
  }

  lemma SettledIsFree(b: Bench)
    requires Settled(b)
    ensures !Conflicted(b)
  {
  }

  lemma NothingYet(k: nat)
    ensures ContentAt(EMPTY, k) == NO_CONTENT && Tidy(EMPTY)
  {
  }

  lemma CallContent(ms: seq<Mention>, k: nat)
    requires ApplyAll(EMPTY, ms).Some? && k < |ApplyAll(EMPTY, ms).value.builders|
    ensures var builder, own := ApplyAll(EMPTY, ms).value.builders[k], Select(ms, Places(EMPTY, ms), k);
      builder.arguments == Arguments(own) && builder.name == LatestName(own)
  {
    hide ApplyAll, Places, Tidy, AddAll, Select, Supplied, Pieces, CompletedOnce, LatestName;
    NothingYet(k);
    ContentOfPlace(EMPTY, ms, k);
    PlaceCompletedOnce(EMPTY, ms, k);
    var own := Select(ms, Places(EMPTY, ms), k);
    ArgumentsAdd(NO_CONTENT, own);
    NamesAdd(NO_CONTENT, own);
    assert "" + Pieces(own) == Pieces(own);
  }

  /** The builders of mentions in the order of first mention. */
  lemma CallOrder(ms: seq<Mention>)
    requires ApplyAll(EMPTY, ms).Some? && Settled(ApplyAll(EMPTY, ms).value)
    ensures var b, ids := ApplyAll(EMPTY, ms).value, MeantAll(ms, NamesOf(ApplyAll(EMPTY, ms).value));
      var firsts := Firsts(ids, 0);
      && |b.builders| == |firsts|
      && forall k :: 0 <= k < |firsts| ==> firsts[k] < |ids| && b.builders[k].id == ids[firsts[k]]
  {
    hide ApplyAll, Places, Settled, Tidy, Firsts, NamesOf, MeantAll;
    var places := Places(EMPTY, ms);
    NothingYet(0);
    PlacesAndIds(ms);
    PlacesDense(EMPTY, ms);
    BuildersSeen(EMPTY, ms);
    assert places[0..] == places && places[..0] == [];
    DenseFirsts(places, 0, 0);
    SameFirsts(places, MeantAll(ms, NamesOf(ApplyAll(EMPTY, ms).value)), 0);
  }

  /** The assembled calls, from the mentions alone: one per ID meant, in the order of first
      mention, each with the arguments of its own mentions. */
  lemma AssembledCalls(ms: seq<Mention>)
    requires ApplyAll(EMPTY, ms).Some? && Settled(ApplyAll(EMPTY, ms).value)
    ensures var b := ApplyAll(EMPTY, ms).value;
      var ids := MeantAll(ms, NamesOf(b));
      var firsts := Firsts(ids, 0);
      && NamesAgree(ms, NamesOf(b)) && NamesIntroduced(ms, NamesOf(b))
      && |b.builders| == |firsts|
      && (forall k :: 0 <= k < |firsts| ==>
            var own := Select(ms, ids, b.builders[k].id);
            && firsts[k] < |ids| && b.builders[k].id == ids[firsts[k]]
            && b.builders[k].arguments == Arguments(own) && b.builders[k].name == LatestName(own))
      && (forall i, j :: 0 <= i < j < |b.builders| ==> b.builders[i].id != b.builders[j].id)
  {
    hide ApplyAll, Places, Settled, Tidy, AddAll, Select, Firsts, NamesOf, MeantAll, Arguments, NamesAgree, NamesIntroduced;
    var b, places := ApplyAll(EMPTY, ms).value, Places(EMPTY, ms);
    var ids := MeantAll(ms, NamesOf(b));
    NamesFollow(ms);
    NamesWereIntroduced(ms);
    CallOrder(ms);
    PlacesAndIds(ms);
    forall k | 0 <= k < |b.builders|
      ensures var own := Select(ms, ids, b.builders[k].id);
        b.builders[k].arguments == Arguments(own) && b.builders[k].name == LatestName(own)
    {
      SameSelection(ms, places, ids, k, b.builders[k].id);
      CallContent(ms, k);
    }
    NothingYet(0);
    ApplyAllTidy(EMPTY, ms);
    forall i, j | 0 <= i < j < |b.builders| ensures b.builders[i].id != b.builders[j].id {
      DifferentIds(b, i, j);
    }
  }
}
