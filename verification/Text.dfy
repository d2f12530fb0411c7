/** Joining, splitting and sorting lists of strings, and lists read as sets. */
module Text {
  import opened KeyOrder

  /** White space as the Unicode standard and Go's unicode package define it. */
  predicate Space(c: char)
  {
    var x := c as int;
    0x09 <= x <= 0x0d || x == 0x20 || x == 0x85 || x == 0xa0 || x == 0x1680 || 0x2000 <= x <= 0x200a
    || x == 0x2028 || x == 0x2029 || x == 0x202f || x == 0x205f || x == 0x3000
  }

  predicate Trimmed(s: string)
  {
    s == "" || (!Space(s[0]) && !Space(s[|s| - 1]))
  }

  function TrimLeft(s: string): (t: string)
    ensures t != "" ==> !Space(t[0]) && s != "" && t[|t| - 1] == s[|s| - 1]
  {
    if s == "" || !Space(s[0]) then s else TrimLeft(s[1..])
  }

  function TrimRight(s: string): (t: string)
    ensures t != "" ==> !Space(t[|t| - 1]) && s != "" && t[0] == s[0]
  {
    if s == "" || !Space(s[|s| - 1]) then s else TrimRight(s[..|s| - 1])
  }

  function Trim(s: string): (t: string)
    ensures Trimmed(t)
  {
    TrimRight(TrimLeft(s))
  }

  /** Nothing is left after trimming. */
  predicate Blank(s: string)
  {
    forall i :: 0 <= i < |s| ==> Space(s[i])
  }

  function Join(parts: seq<string>, sep: char): string
  {
    if parts == [] then "" else if |parts| == 1 then parts[0] else parts[0] + [sep] + Join(parts[1..], sep)
  }

  function Split(s: string, sep: char): (parts: seq<string>)
    ensures parts != []
  {
    if s == "" then [""]
    else
      var rest := Split(s[1..], sep);
      if s[0] == sep then [""] + rest else [[s[0]] + rest[0]] + rest[1..]
  }

  predicate Free(parts: seq<string>, sep: char)
  {
    forall i :: 0 <= i < |parts| ==> sep !in parts[i]
  }

  lemma {:induction false} SplitHead(p: string, rest: string, sep: char)
    requires sep !in p
    ensures Split(p, sep) == [p]
    ensures Split(p + [sep] + rest, sep) == [p] + Split(rest, sep)
  {
    var s := p + [sep] + rest;
    if p == "" {
      assert s[1..] == rest;
    } else {
      SplitHead(p[1..], rest, sep);
      assert s[1..] == p[1..] + [sep] + rest && s[0] == p[0];
      assert p == [p[0]] + p[1..];
    }
  }

  /** Splitting a joined list of separator-free parts gives the parts back. */
  lemma {:induction false} SplitJoin(parts: seq<string>, sep: char)
    requires parts != [] && Free(parts, sep)
    ensures Split(Join(parts, sep), sep) == parts
  {
    if |parts| == 1 {
      SplitHead(parts[0], "", sep);
    } else {
      SplitJoin(parts[1..], sep);
      SplitHead(parts[0], Join(parts[1..], sep), sep);
    }
  }

  lemma JoinInjective(a: seq<string>, b: seq<string>, sep: char)
    requires a != [] && b != [] && Free(a, sep) && Free(b, sep) && Join(a, sep) == Join(b, sep)
    ensures a == b
  {
    SplitJoin(a, sep);
    SplitJoin(b, sep);
  }

  lemma {:induction false} JoinFree(parts: seq<string>, sep: char, c: char)
    requires c != sep && Free(parts, c)
    ensures c !in Join(parts, sep)
  {
    if |parts| > 1 { JoinFree(parts[1..], sep, c); }
  }

  /* ---- Sorting ---- */

  predicate Ordered(xs: seq<string>)
  {
    forall i, j :: 0 <= i < j < |xs| ==> AtMost(xs[i], xs[j])
  }

  function Place(x: string, xs: seq<string>): seq<string>
  {
    if xs == [] || AtMost(x, xs[0]) then [x] + xs else [xs[0]] + Place(x, xs[1..])
  }

  function Sort(xs: seq<string>): seq<string>
  {
    if xs == [] then [] else Place(xs[0], Sort(xs[1..]))
  }

  lemma AtMostTransitive(a: string, b: string, c: string)
    requires AtMost(a, b) && AtMost(b, c)
    ensures AtMost(a, c)
  {
    if a != b && b != c { LessTransitive(a, b, c); }
  }

  lemma {:induction false} PlaceOrdered(x: string, xs: seq<string>)
    requires Ordered(xs)
    ensures Ordered(Place(x, xs)) && multiset(Place(x, xs)) == multiset([x] + xs)
  {
    var r := Place(x, xs);
    if xs == [] {
    } else if AtMost(x, xs[0]) {
      forall j | 0 <= j < |xs| ensures AtMost(x, xs[j]) {
        if j > 0 { AtMostTransitive(x, xs[0], xs[j]); }
      }
    } else {
      LessTotal(x, xs[0]);
      PlaceOrdered(x, xs[1..]);
      var t := Place(x, xs[1..]);
      forall j | 0 <= j < |t| ensures AtMost(xs[0], t[j]) {
        assert t[j] in multiset(t);
        assert t[j] in [x] + xs[1..];
      }
      assert xs == [xs[0]] + xs[1..];
    }
  }

  /** Sorting permutes its input into ascending order. */
  lemma {:induction false} SortOrders(xs: seq<string>)
    ensures Ordered(Sort(xs)) && multiset(Sort(xs)) == multiset(xs)
  {
    if xs != [] {
      SortOrders(xs[1..]);
      PlaceOrdered(xs[0], Sort(xs[1..]));
      assert xs == [xs[0]] + xs[1..];
    }
  }

  lemma {:induction false} OrderedUnique(a: seq<string>, b: seq<string>)
    requires Ordered(a) && Ordered(b) && multiset(a) == multiset(b)
    ensures a == b
  {
    if a == [] {
      assert |multiset(b)| == 0;
    } else {
      assert b != [] by { assert a[0] in multiset(b); }
      HeadsAgree(a, b);
      assert a == [a[0]] + a[1..] && b == [b[0]] + b[1..];
      assert multiset(a[1..]) == multiset(a) - multiset{a[0]};
      assert multiset(b[1..]) == multiset(b) - multiset{b[0]};
      OrderedUnique(a[1..], b[1..]);
    }
  }

  lemma HeadsAgree(a: seq<string>, b: seq<string>)
    requires a != [] && b != [] && Ordered(a) && Ordered(b) && multiset(a) == multiset(b)
    ensures a[0] == b[0]
  {
    assert a[0] in multiset(b) && b[0] in multiset(a);
    var i :| 0 <= i < |b| && b[i] == a[0];
    var j :| 0 <= j < |a| && a[j] == b[0];
    assert AtMost(b[0], a[0]) && AtMost(a[0], b[0]);
    if a[0] != b[0] { LessAsymmetric(a[0], b[0]); }
  }

  /** Two lists sort alike exactly when they are permutations of each other. */
  lemma SortForgetsOrder(a: seq<string>, b: seq<string>)
    ensures Sort(a) == Sort(b) <==> multiset(a) == multiset(b)
  {
    SortOrders(a);
    SortOrders(b);
    if multiset(a) == multiset(b) { OrderedUnique(Sort(a), Sort(b)); }
  }

  /* ---- Lists as sets ---- */

  function Elems(xs: seq<string>): set<string> { set x | x in xs }

  predicate NoRepeat(xs: seq<string>)
  {
    forall i, j :: 0 <= i < j < |xs| ==> xs[i] != xs[j]
  }

  lemma NoRepeatCons(x: string, t: seq<string>)
    ensures NoRepeat([x] + t) <==> x !in t && NoRepeat(t)
  {
    var xs := [x] + t;
    if NoRepeat(xs) {
      forall i | 0 <= i < |t| ensures t[i] != x { assert xs[i + 1] == t[i] && xs[0] == x; }
      forall i, j | 0 <= i < j < |t| ensures t[i] != t[j] { assert xs[i + 1] == t[i] && xs[j + 1] == t[j]; }
    }
  }

  /** A list holds at most as many values as it is long, and as many only without repetition. */
  lemma {:induction false} ElemsSize(xs: seq<string>)
    ensures |Elems(xs)| <= |xs|
    ensures |Elems(xs)| == |xs| <==> NoRepeat(xs)
  {
    if xs != [] {
      var x, t := xs[0], xs[1..];
      ElemsSize(t);
      NoRepeatCons(x, t);
      assert xs == [x] + t;
      assert Elems(xs) == {x} + Elems(t);
      assert x in t <==> x in Elems(t);
    }
  }

  lemma SubsetSize(a: set<string>, b: set<string>)
    requires a <= b
    ensures |a| <= |b|
    ensures |a| == |b| ==> a == b
  {
    assert b == a + (b - a) && |b| == |a| + |b - a|;
  }

  /** A permutation keeps the length, the values and freedom from repetition. */
  lemma PermutationKeeps(a: seq<string>, b: seq<string>)
    requires multiset(a) == multiset(b)
    ensures |a| == |b| && Elems(a) == Elems(b) && (NoRepeat(a) <==> NoRepeat(b))
  {
    assert |multiset(a)| == |a| && |multiset(b)| == |b|;
    forall x ensures x in a <==> x in b { assert x in a <==> x in multiset(a); }
    ElemsSize(a);
    ElemsSize(b);
  }
}
