/**
 The edit distance behind tool-name suggestions: two rows of the dynamic program against
 the length of a shortest edit script.
 */
module EditDistance {
  import opened TokenUsage
  import opened Wrappers

  type Text = seq<char>

  function Init(s: Text): Text
    requires s != []
  {
    s[..|s| - 1]
  }

  function Last(s: Text): char
    requires s != []
  {
    s[|s| - 1]
  }

  /** The recurrence the dynamic program tabulates, on the last runes of two texts. */
  function Distance(a: Text, b: Text): nat
    decreases |a| + |b|
  {
    if a == [] then |b|
    else if b == [] then |a|
    else
      var cost := if Last(a) == Last(b) then 0 else 1;
      Min(Min(Distance(a, Init(b)) + 1, Distance(Init(a), b) + 1), Distance(Init(a), Init(b)) + cost)
  }

  /* ---------- the program ---------- */

  /** Row `i` of the table: the distances of the first `i` runes to every prefix. */
  ghost predicate IsRow(row: seq<nat>, left: Text, right: Text, i: nat)
    requires i <= |left|
  {
    |row| == |right| + 1 && forall j :: 0 <= j <= |right| ==> row[j] == Distance(left[..i], right[..j])
  }

  lemma Cell(left: Text, right: Text, i: nat, j: nat)
    requires 0 < i <= |left| && 0 < j <= |right|
    ensures Distance(left[..i], right[..j]) == Min(
      Min(Distance(left[..i], right[..j - 1]) + 1, Distance(left[..i - 1], right[..j]) + 1),
      Distance(left[..i - 1], right[..j - 1]) + if left[i - 1] == right[j - 1] then 0 else 1)
  {
    hide Distance;
    Unfold(left[..i], right[..j]);
    assert Init(left[..i]) == left[..i - 1] && Init(right[..j]) == right[..j - 1];
  }

  lemma Unfold(a: Text, b: Text)
    requires a != [] && b != []
    ensures Distance(a, b) == Min(Min(Distance(a, Init(b)) + 1, Distance(Init(a), b) + 1),
      Distance(Init(a), Init(b)) + if Last(a) == Last(b) then 0 else 1)
  {
    hide Min, Init, Last;
  }

  method FillRow(left: Text, right: Text, i: nat, previous: array<nat>, current: array<nat>)
    requires 0 < i <= |left| && previous != current && current.Length == |right| + 1
    requires IsRow(previous[..], left, right, i - 1)
    modifies current
    ensures IsRow(current[..], left, right, i)
  {
    hide Distance;
    current[0] := i;
    assert Distance(left[..i], right[..0]) == i by { FirstColumn(left[..i]); }
    for j := 1 to |right| + 1
      invariant forall k :: 0 <= k < j ==> current[k] == Distance(left[..i], right[..k])
    {
      Cell(left, right, i, j);
      assert previous[..][j] == previous[j] && previous[..][j - 1] == previous[j - 1];
      var cost := if left[i - 1] == right[j - 1] then 0 else 1;
      current[j] := Min(Min(current[j - 1] + 1, previous[j] + 1), previous[j - 1] + cost);
    }
  }

  lemma FirstColumn(a: Text)
    ensures Distance(a, []) == |a| == Distance([], a)
  {
  }

  method Levenshtein(left: Text, right: Text) returns (distance: nat)
    ensures distance == Distance(left, right)
  {
    hide Distance;
    var n := |right|;
    var previous, current := new nat[n + 1](j => j), new nat[n + 1](j => j);
    assert left[..0] == [];
    forall j | 0 <= j <= n ensures previous[j] == Distance(left[..0], right[..j]) {
      FirstColumn(right[..j]);
    }
    for i := 1 to |left| + 1
      invariant fresh(previous) && fresh(current) && previous != current && current.Length == n + 1
      invariant IsRow(previous[..], left, right, i - 1)
    {
      FillRow(left, right, i, previous, current);
      previous, current := current, previous;
    }
    assert left[..|left|] == left && right[..n] == right;
    distance := previous[..][n];
  }

  /* ---------- edit scripts ---------- */

  datatype Edit = Keep | Substitute(c: char) | Insert(c: char) | Delete

  /** What a script makes of a text; None when it does not fit the text. */
  function Apply(script: seq<Edit>, a: Text): Option<Text> {
    if script == [] then if a == [] then Some([]) else None
    else
      var rest, e := script[..|script| - 1], script[|script| - 1];
      if e.Insert? then
        var x := Apply(rest, a);
        if x.None? then None else Some(x.value + [e.c])
      else if a == [] then None
      else
        var x := Apply(rest, Init(a));
        if x.None? then None
        else match e
          case Delete => x
          case Keep => Some(x.value + [Last(a)])
          case Substitute(c) => Some(x.value + [c])
          case Insert(c) => None
  }

  function Cost(script: seq<Edit>): nat {
    if script == [] then 0
    else Cost(script[..|script| - 1]) + if script[|script| - 1].Keep? then 0 else 1
  }

  lemma Snoc(script: seq<Edit>, e: Edit, a: Text)
    ensures Cost(script + [e]) == Cost(script) + if e.Keep? then 0 else 1
    ensures e.Insert? ==> Apply(script + [e], a) == (match Apply(script, a) case None => None case Some(x) => Some(x + [e.c]))
    ensures !e.Insert? && a != [] ==> Apply(script + [e], a) == (match Apply(script, Init(a))
      case None => None
      case Some(x) => Some(if e.Delete? then x else x + [if e.Keep? then Last(a) else e.c]))
  {
    assert (script + [e])[..|script|] == script;
  }

  lemma Split(s: Text)
    requires s != []
    ensures s == Init(s) + [Last(s)]
  {
  }

  lemma SnocParts(s: Text, c: char)
    ensures Init(s + [c]) == s && Last(s + [c]) == c && s + [c] != []
  {
  }

  /** Some script makes `b` of `a` at the cost of the distance. */
  lemma {:induction false} Shortest(a: Text, b: Text) returns (script: seq<Edit>)
    ensures Apply(script, a) == Some(b) && Cost(script) == Distance(a, b)
    decreases |a| + |b|
  {
    hide Apply, Cost;
    if a == [] && b == [] {
      EmptyScript();
      return [];
    }
    if b != [] { Split(b); }
    var e: Edit;
    if a == [] || (b != [] && Distance(a, b) == Distance(a, Init(b)) + 1) {
      script := Shortest(a, Init(b));
      e := Insert(Last(b));
    } else if b == [] || Distance(a, b) == Distance(Init(a), b) + 1 {
      script := Shortest(Init(a), b);
      e := Delete;
    } else {
      script := Shortest(Init(a), Init(b));
      e := if Last(a) == Last(b) then Keep else Substitute(Last(b));
    }
    Snoc(script, e, a);
    script := script + [e];
  }

  lemma EmptyScript()
    ensures Apply([], []) == Some([]) && Cost([]) == 0
  {
  }

  lemma {:induction false} DistanceSteps(a: Text, b: Text)
    ensures b != [] ==> Distance(a, b) <= Distance(a, Init(b)) + 1
    ensures a != [] ==> Distance(a, b) <= Distance(Init(a), b) + 1
    ensures a != [] && b != [] ==> Distance(a, b) <= Distance(Init(a), Init(b)) + if Last(a) == Last(b) then 0 else 1
    decreases |a| + |b|
  {
  }

  /** No script does it for less. */
  lemma {:induction false} NoneShorter(script: seq<Edit>, a: Text, b: Text)
    requires Apply(script, a) == Some(b)
    ensures Distance(a, b) <= Cost(script)
    decreases |script|
  {
    hide Distance;
    if script == [] {
      NothingToDo();
    } else {
      var rest, e := script[..|script| - 1], script[|script| - 1];
      DistanceSteps(a, b);
      match e
      case Insert(c) =>
        SnocParts(Apply(rest, a).value, c);
        NoneShorter(rest, a, Init(b));
      case Delete => NoneShorter(rest, Init(a), b);
      case Keep =>
        SnocParts(Apply(rest, Init(a)).value, Last(a));
        NoneShorter(rest, Init(a), Init(b));
      case Substitute(c) =>
        SnocParts(Apply(rest, Init(a)).value, c);
        NoneShorter(rest, Init(a), Init(b));
    }
  }

  lemma NothingToDo()
    ensures Distance([], []) == 0
  {
  }

  /* ---------- a metric ---------- */

  lemma {:induction false} Symmetric(a: Text, b: Text)
    ensures Distance(a, b) == Distance(b, a)
    decreases |a| + |b|
  {
    if a != [] && b != [] {
      Symmetric(a, Init(b));
      Symmetric(Init(a), b);
      Symmetric(Init(a), Init(b));
    }
  }

  lemma {:induction false} ZeroIffEqual(a: Text, b: Text)
    ensures Distance(a, b) == 0 <==> a == b
    decreases |a| + |b|
  {
    if a != [] && b != [] {
      ZeroIffEqual(Init(a), Init(b));
      Split(a);
      Split(b);
    }
  }

  lemma {:induction false} AtMostLonger(a: Text, b: Text)
    ensures Distance(a, b) <= Max(|a|, |b|)
    decreases |a| + |b|
  {
    if a != [] && b != [] {
      AtMostLonger(Init(a), Init(b));
    }
  }

  /** Doing one script after another, edit by edit. */
  lemma {:induction false} Compose(s: seq<Edit>, t: seq<Edit>, a: Text, b: Text, c: Text) returns (u: seq<Edit>)
    requires Apply(s, a) == Some(b) && Apply(t, b) == Some(c)
    ensures Apply(u, a) == Some(c) && Cost(u) <= Cost(s) + Cost(t)
    decreases |s| + |t|
  {
    if t != [] && t[|t| - 1].Insert? {
      var rest, e := t[..|t| - 1], t[|t| - 1];
      u := Compose(s, rest, a, b, Apply(rest, b).value);
      hide Apply, Cost;
      Snoc(u, e, a);
      SnocCost(t);
      u := u + [e];
    } else if s != [] && s[|s| - 1].Delete? {
      var rest := s[..|s| - 1];
      u := Compose(rest, t, Init(a), b, c);
      hide Apply, Cost;
      Snoc(u, Delete, a);
      SnocCost(s);
      u := u + [Delete];
    } else if s == [] {
      u := [];
    } else {
      u := ComposeLast(s, t, a, b, c);
    }
  }

  lemma SnocCost(s: seq<Edit>)
    requires s != []
    ensures Cost(s) == Cost(s[..|s| - 1]) + if s[|s| - 1].Keep? then 0 else 1
  {
  }

  /** The first script ends by writing a rune that the second script ends by reading. */
  lemma {:induction false} ComposeLast(s: seq<Edit>, t: seq<Edit>, a: Text, b: Text, c: Text) returns (u: seq<Edit>)
    requires Apply(s, a) == Some(b) && Apply(t, b) == Some(c) && s != [] && !s[|s| - 1].Delete?
    requires t == [] || !t[|t| - 1].Insert?
    ensures Apply(u, a) == Some(c) && Cost(u) <= Cost(s) + Cost(t)
    decreases |s| + |t|, 0
  {
    var p, q := s[..|s| - 1], t[..|t| - 1];
    var d, e := s[|s| - 1], t[|t| - 1];
    SnocCost(s);
    SnocCost(t);
    var x := if d.Insert? then a else Init(a);
    SnocParts(Apply(p, x).value, Last(b));
    u := Compose(p, q, x, Init(b), Apply(q, Init(b)).value);
    hide Apply, Cost;
    if e.Delete? {
      if !d.Insert? {
        Snoc(u, Delete, a);
        u := u + [Delete];
      }
    } else {
      var f := if d.Insert? then Insert(if e.Keep? then d.c else e.c)
        else if e.Keep? then d else e;
      Snoc(u, f, a);
      u := u + [f];
    }
  }

  lemma Triangle(a: Text, b: Text, c: Text)
    ensures Distance(a, c) <= Distance(a, b) + Distance(b, c)
  {
    var s := Shortest(a, b);
    var t := Shortest(b, c);
    var u := Compose(s, t, a, b, c);
    NoneShorter(u, a, c);
  }

  /* ---------- the score ---------- */

  /** One minus the distance over the longer length; lengths are counted in bytes, of which
      a rune has at least one. */
  function Score(a: Text, b: Text, longest: nat): real
    requires 0 < longest
  {
    1.0 - Distance(a, b) as real / longest as real
  }

  lemma ScoreInUnit(a: Text, b: Text, longest: nat)
    requires 0 < longest && |a| <= longest && |b| <= longest
    ensures 0.0 <= Score(a, b, longest) <= 1.0
    ensures Score(a, b, longest) == 1.0 <==> a == b
  {
    AtMostLonger(a, b);
    ZeroIffEqual(a, b);
    Ratio(Distance(a, b), longest);
  }

  lemma Ratio(d: nat, n: nat)
    requires 0 < n && d <= n
    ensures 0.0 <= d as real / n as real <= 1.0
    ensures d as real / n as real == 0.0 <==> d == 0
  {
    var q := d as real / n as real;
    assert q * n as real == d as real;
  }
}
