/**
 The edit distance that ranks suggestions for a misspelt step name.  The two-row loop is proved to compute
 the recursive Levenshtein distance, which is the least cost of an edit script and so a metric.
 */
module EditDistance {
  function Min(x: int, y: int): int {
    if x <= y then x else y
  }

  /** The cheapest way to the last character: insert it, delete the other one, or match the two. */
  function Best(insert: nat, delete: nat, match1: nat, equal: bool): nat {
    Min(Min(insert + 1, delete + 1), match1 + if equal then 0 else 1)
  }

  /** Python compares the characters with `is`: the objects are the same, which implies that the characters are.
      The other direction depends on the interpreter. */
  type Identity = f: (char, char) -> bool | forall x, y :: f(x, y) ==> x == y witness (x, y) => x == y

  function DistanceBy(same: Identity, a: string, b: string): (d: nat) {
    if a == [] then |b| else if b == [] then |a| else
    var m, n := |a| - 1, |b| - 1;
    Best(DistanceBy(same, a, b[..n]), DistanceBy(same, a[..m], b), DistanceBy(same, a[..m], b[..n]), same(a[m], b[n]))
  }

  /** The Levenshtein distance. */
  function Distance(a: string, b: string): (d: nat) {
    if a == [] then |b| else if b == [] then |a| else
    var m, n := |a| - 1, |b| - 1;
    Best(Distance(a, b[..n]), Distance(a[..m], b), Distance(a[..m], b[..n]), a[m] == b[n])
  }

  // ---------------------------------------------------------------- the loop

  /** Each entry of the row is the distance to a prefix of `b`. */
  ghost predicate IsRow(same: Identity, row: seq<nat>, a: string, b: string, n: nat) {
    n <= |row| && n <= |b| + 1 && forall j :: 0 <= j < n ==> row[j] == DistanceBy(same, a, b[..j])
  }

  lemma Cell(same: Identity, a: string, b: string, i: nat, j: nat)
    requires i < |a| && j < |b|
    ensures DistanceBy(same, a[..i+1], b[..j+1]) ==
      Best(DistanceBy(same, a[..i+1], b[..j]), DistanceBy(same, a[..i], b[..j+1]), DistanceBy(same, a[..i], b[..j]),
           same(a[i], b[j]))
  {
    assert a[..i+1][..i] == a[..i] && b[..j+1][..j] == b[..j];
  }

  /** The edges of the table. */
  lemma Edges(same: Identity, a: string, b: string)
    ensures DistanceBy(same, a, b[..0]) == |a|
    ensures IsRow(same, seq(|b| + 1, j => j), [], b, |b| + 1)
  {
  }

  /** For an empty `a` the row is never filled in, and the result is 0 whatever `b` is. */
  function Result(same: Identity, a: string, b: string): nat {
    if a == [] then 0 else DistanceBy(same, a, b)
  }

  method EditDistance(same: Identity, a: string, b: string) returns (d: nat)
    ensures d == Result(same, a, b)
  {
    var r0: seq<nat> := seq(|b| + 1, j => j);
    var r1 := new nat[|b| + 1](_ => 0);
    Edges(same, a[..0], b);
    hide DistanceBy;
    for i := 0 to |a|
      invariant |r0| == |b| + 1 && IsRow(same, r0, a[..i], b, |b| + 1)
      invariant if i == 0 then r1[|b|] == 0 else r1[..] == r0
    {
      FillRow(same, a, b, i, r0, r1);
      r0 := r1[..];
    }
    assert a[..|a|] == a && b[..|b|] == b;
    return r1[|b|];
  }

  /** The body of the outer loop. */
  method FillRow(same: Identity, a: string, b: string, i: nat, r0: seq<nat>, r1: array<nat>)
    requires i < |a| && |r0| == |b| + 1 == r1.Length && IsRow(same, r0, a[..i], b, |b| + 1)
    modifies r1
    ensures IsRow(same, r1[..], a[..i+1], b, |b| + 1)
  {
    Edges(same, a[..i+1], b);
    hide DistanceBy, Best;
    r1[0] := i + 1;
    for j := 0 to |b|
      invariant IsRow(same, r1[..], a[..i+1], b, j + 1)
    {
      Cell(same, a, b, i, j);
      var c := same(a[i], b[j]);
      r1[j+1] := Best(r1[j], r0[j+1], r0[j], c);
    }
  }

  /** The distance is Levenshtein's if equal characters of the two strings are the same object. */
  lemma {:induction false} IdentityIsEquality(same: Identity, a: string, b: string)
    requires forall x <- a :: x in b ==> same(x, x)
    ensures DistanceBy(same, a, b) == Distance(a, b)
  {
    if a != [] && b != [] {
      var m, n := |a| - 1, |b| - 1;
      assert a[m] in a && b[n] in b;
      assert forall x <- a[..m] :: x in a;
      assert forall y <- b[..n] :: y in b;
      assert same(a[m], b[n]) <==> a[m] == b[n];
      IdentityIsEquality(same, a, b[..n]);
      IdentityIsEquality(same, a[..m], b);
      IdentityIsEquality(same, a[..m], b[..n]);
    }
  }

  /** An interpreter that makes a new object for each character outside Latin-1 finds a distance between equal names. */
  lemma IdentityMatters(same: Identity, x: char)
    requires !same(x, x)
    ensures DistanceBy(same, [x], [x]) == 1 && Distance([x], [x]) == 0
  {
    assert [x][..0] == [];
  }

  predicate IsOver(a: string, chars: set<char>) {
    forall x <- a :: x in chars
  }

  /** On all pairs of names over a character set the result is the Levenshtein distance just where the first name is
      not empty or both are, exactly if the interpreter has one object for each character of the set. */
  lemma LevenshteinJustForSharedObjects(same: Identity, chars: set<char>)
    ensures (forall x <- chars :: same(x, x)) <==>
            forall a: string, b: string :: IsOver(a, chars) && IsOver(b, chars) ==>
              (Result(same, a, b) == Distance(a, b) <==> a != [] || b == [])
  {
    if forall x <- chars :: same(x, x) {
      forall a: string, b: string | IsOver(a, chars) && IsOver(b, chars)
        ensures Result(same, a, b) == Distance(a, b) <==> a != [] || b == []
      {
        IdentityIsEquality(same, a, b);
      }
    } else {
      var x :| x in chars && !same(x, x);
      IdentityMatters(same, x);
      assert IsOver([x], chars);
    }
  }

  // ---------------------------------------------------------------- edit scripts

  datatype Edit = Keep(c: char) | Insert(c: char) | Delete(c: char) | Substitute(from: char, to: char)
  type Script = seq<Edit>

  function Source(s: Script): string {
    if s == [] then [] else
    var rest := Source(s[..|s|-1]);
    match s[|s|-1]
    case Keep(c) => rest + [c]
    case Insert(_) => rest
    case Delete(c) => rest + [c]
    case Substitute(from, _) => rest + [from]
  }

  function Target(s: Script): string {
    if s == [] then [] else
    var rest := Target(s[..|s|-1]);
    match s[|s|-1]
    case Keep(c) => rest + [c]
    case Insert(c) => rest + [c]
    case Delete(_) => rest
    case Substitute(_, to) => rest + [to]
  }

  function Cost(s: Script): nat {
    if s == [] then 0 else Cost(s[..|s|-1]) + if s[|s|-1].Keep? then 0 else 1
  }

  predicate Turns(s: Script, a: string, b: string) {
    Source(s) == a && Target(s) == b
  }

  lemma Snoc(s: Script, e: Edit)
    ensures Source(s + [e]) == Source(s) + (if e.Insert? then [] else if e.Substitute? then [e.from] else [e.c])
    ensures Target(s + [e]) == Target(s) + (if e.Delete? then [] else if e.Substitute? then [e.to] else [e.c])
    ensures Cost(s + [e]) == Cost(s) + if e.Keep? then 0 else 1
  {
    assert (s + [e])[..|s|] == s;
  }

  /** One more character on either side changes the distance by at most one. */
  lemma OneCharacter(a: string, b: string, x: char, y: char)
    ensures Distance(a + [x], b) <= Distance(a, b) + 1
    ensures Distance(a, b + [y]) <= Distance(a, b) + 1
    ensures Distance(a + [x], b + [y]) <= Distance(a, b) + if x == y then 0 else 1
  {
    assert (a + [x])[..|a|] == a && (b + [y])[..|b|] == b;
    LengthBound(a, b);
  }

  lemma {:induction false} LengthBound(a: string, b: string)
    ensures a == [] ==> Distance(a, b) == |b|
    ensures b == [] ==> Distance(a, b) == |a|
  {
  }

  /** No script is cheaper than the distance. */
  lemma {:induction false} NoScriptIsCheaper(s: Script)
    ensures Distance(Source(s), Target(s)) <= Cost(s)
  {
    if s != [] {
      var rest, e := s[..|s|-1], s[|s|-1];
      NoScriptIsCheaper(rest);
      assert s == rest + [e];
      Snoc(rest, e);
      hide Distance, Source, Target, Cost;
      match e
      case Keep(c) => OneCharacter(Source(rest), Target(rest), c, c);
      case Insert(c) => OneCharacter(Source(rest), Target(rest), c, c);
      case Delete(c) => OneCharacter(Source(rest), Target(rest), c, c);
      case Substitute(from, to) => OneCharacter(Source(rest), Target(rest), from, to);
    }
  }

  /** Some script costs just the distance. */
  lemma {:induction false} BestScript(a: string, b: string) returns (s: Script)
    ensures Turns(s, a, b) && Cost(s) == Distance(a, b)
  {
    var m, n := |a| - 1, |b| - 1;
    Choice(a, b);
    hide Distance, Source, Target, Cost;
    if a == [] && b == [] {
      s := [];
      Nothing();
    } else if b != [] && Distance(a, b) == Distance(a, b[..n]) + 1 {
      var t := BestScript(a, b[..n]);
      s := t + [Insert(b[n])];
      Snoc(t, Insert(b[n]));
    } else if a != [] && Distance(a, b) == Distance(a[..m], b) + 1 {
      var t := BestScript(a[..m], b);
      s := t + [Delete(a[m])];
      Snoc(t, Delete(a[m]));
    } else {
      var e := if a[m] == b[n] then Keep(a[m]) else Substitute(a[m], b[n]);
      var t := BestScript(a[..m], b[..n]);
      s := t + [e];
      Snoc(t, e);
    }
  }

  /** One of the three ways to the last character is the best. */
  lemma Choice(a: string, b: string)
    ensures var m, n := |a| - 1, |b| - 1;
            || (a == [] && b == [] && Distance(a, b) == 0)
            || (b != [] && Distance(a, b) == Distance(a, b[..n]) + 1)
            || (a != [] && Distance(a, b) == Distance(a[..m], b) + 1)
            || (a != [] && b != [] && Distance(a, b) == Distance(a[..m], b[..n]) + if a[m] == b[n] then 0 else 1)
  {
  }

  lemma Nothing()
    ensures Turns([], [], []) && Cost([]) == 0
  {
  }

  /** The distance is the least cost of a script from `a` to `b`. */
  lemma DistanceIsLeastCost(a: string, b: string)
    ensures forall s: Script :: Turns(s, a, b) ==> Distance(a, b) <= Cost(s)
    ensures exists s: Script :: Turns(s, a, b) && Cost(s) == Distance(a, b)
  {
    forall s: Script | Turns(s, a, b)
      ensures Distance(a, b) <= Cost(s)
    {
      NoScriptIsCheaper(s);
    }
    var s := BestScript(a, b);
  }

  // ---------------------------------------------------------------- a metric

  function Inverse(e: Edit): Edit {
    match e
    case Keep(c) => Keep(c)
    case Insert(c) => Delete(c)
    case Delete(c) => Insert(c)
    case Substitute(from, to) => Substitute(to, from)
  }

  lemma {:induction false} Undo(s: Script) returns (t: Script)
    ensures Turns(t, Target(s), Source(s)) && Cost(t) == Cost(s)
  {
    t := [];
    if s != [] {
      var u := Undo(s[..|s|-1]);
      t := u + [Inverse(s[|s|-1])];
      Snoc(u, Inverse(s[|s|-1]));
    }
  }

  /** Two scripts one after the other, as one script. */
  lemma {:induction false} Compose(s: Script, t: Script) returns (u: Script)
    requires Target(s) == Source(t)
    ensures Turns(u, Source(s), Target(t)) && Cost(u) <= Cost(s) + Cost(t)
    decreases |s| + |t|
  {
    if s == [] {
      u := OnlyInserts(t);
    } else if s[|s|-1].Delete? {
      var v := Compose(s[..|s|-1], t);
      u := v + [s[|s|-1]];
      Snoc(v, s[|s|-1]);
    } else {
      var e, f := s[|s|-1], t[|t|-1];
      if f.Insert? {
        var v := Compose(s, t[..|t|-1]);
        u := v + [f];
        Snoc(v, f);
      } else {
        u := ComposeLast(s, t);
      }
    }
  }

  lemma {:induction false} OnlyInserts(t: Script) returns (u: Script)
    requires Source(t) == []
    ensures Turns(u, [], Target(t)) && Cost(u) <= Cost(t)
  {
    u := t;
  }

  /** Both last edits are about the same character in the middle. */
  lemma {:induction false} ComposeLast(s: Script, t: Script) returns (u: Script)
    requires Target(s) == Source(t) && s != [] && t != []
    requires !s[|s|-1].Delete? && !t[|t|-1].Insert?
    ensures Turns(u, Source(s), Target(t)) && Cost(u) <= Cost(s) + Cost(t)
    decreases |s| + |t|, 0
  {
    var e, f := s[|s|-1], t[|t|-1];
    var s', t' := s[..|s|-1], t[..|t|-1];
    assert Target(s') == Target(s)[..|Target(s)|-1] == Source(t');
    var v := Compose(s', t');
    if e.Insert? && f.Delete? {
      u := v;
    } else {
      var g := if e.Insert? then Insert(if f.Keep? then f.c else f.to)
               else if f.Delete? then Delete(if e.Keep? then e.c else e.from)
               else if e.Keep? && f.Keep? then e
               else Substitute(if e.Keep? then e.c else e.from, if f.Keep? then f.c else f.to);
      u := v + [g];
      Snoc(v, g);
    }
  }

  lemma {:induction false} Symmetry(a: string, b: string)
    ensures Distance(a, b) == Distance(b, a)
  {
    var s := BestScript(a, b);
    var s' := Undo(s);
    NoScriptIsCheaper(s');
    var t := BestScript(b, a);
    var t' := Undo(t);
    NoScriptIsCheaper(t');
  }

  lemma {:induction false} TriangleInequality(a: string, b: string, c: string)
    ensures Distance(a, c) <= Distance(a, b) + Distance(b, c)
  {
    var s := BestScript(a, b);
    var t := BestScript(b, c);
    var u := Compose(s, t);
    NoScriptIsCheaper(u);
  }

  lemma {:induction false} AtMostTheLongerLength(a: string, b: string)
    ensures Distance(a, b) <= if |a| >= |b| then |a| else |b|
  {
    if a != [] && b != [] {
      AtMostTheLongerLength(a[..|a|-1], b[..|b|-1]);
    }
  }

  lemma {:induction false} ZeroJustForEqual(a: string, b: string)
    ensures Distance(a, b) == 0 <==> a == b
  {
    if a != [] && b != [] {
      ZeroJustForEqual(a[..|a|-1], b[..|b|-1]);
      assert a == a[..|a|-1] + [a[|a|-1]] && b == b[..|b|-1] + [b[|b|-1]];
    }
  }

  /** What the method computes on names that are not empty is symmetric and satisfies the triangle inequality. */
  lemma {:induction false} EditDistanceIsMetric(same: Identity, a: string, b: string, c: string)
    requires a != [] && b != [] && c != []
    requires forall x <- a + b + c :: same(x, x)
    ensures Result(same, a, b) == Result(same, b, a)
    ensures Result(same, a, c) <= Result(same, a, b) + Result(same, b, c)
    ensures Result(same, a, b) == 0 <==> a == b
    ensures Result(same, a, b) <= if |a| >= |b| then |a| else |b|
  {
    IdentityIsEquality(same, a, b);
    IdentityIsEquality(same, b, a);
    IdentityIsEquality(same, b, c);
    IdentityIsEquality(same, a, c);
    Symmetry(a, b);
    TriangleInequality(a, b, c);
    ZeroJustForEqual(a, b);
    AtMostTheLongerLength(a, b);
  }
}
