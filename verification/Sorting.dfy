/** Stable sorting by a comparison, as `sort_by` and `sort_by_key` do it, and lexicographic order. */
module Sorting {

  ghost predicate TotalPreorder<T(!new)>(leq: (T, T) -> bool) {
    && (forall a, b :: leq(a, b) || leq(b, a))
    && (forall a, b, c :: leq(a, b) && leq(b, c) ==> leq(a, c))
  }

  ghost predicate SortedBy<T>(leq: (T, T) -> bool, s: seq<T>) {
    forall i, j :: 0 <= i < j < |s| ==> leq(s[i], s[j])
  }

  /** Put `x` before the first element it does not exceed. */
  function Insert<T>(leq: (T, T) -> bool, x: T, s: seq<T>): (r: seq<T>)
    ensures multiset(r) == multiset{x} + multiset(s)
    ensures |r| == |s| + 1
  {
    if s == [] then [x]
    else if leq(x, s[0]) then [x] + s
    else
      assert s == [s[0]] + s[1..];
      [s[0]] + Insert(leq, x, s[1..])
  }

  lemma {:induction false} InsertSorted<T(!new)>(leq: (T, T) -> bool, x: T, s: seq<T>)
    requires TotalPreorder(leq) && SortedBy(leq, s)
    ensures SortedBy(leq, Insert(leq, x, s))
  {
    if s != [] && !leq(x, s[0]) {
      InsertSorted(leq, x, s[1..]);
      var rest := Insert(leq, x, s[1..]);
      forall y | y in rest
        ensures leq(s[0], y)
      {
        assert y in multiset(rest);
        assert y == x || y in s[1..];
      }
    }
  }

  /** The stable sort: equal elements keep their order. */
  function Sort<T>(leq: (T, T) -> bool, s: seq<T>): (r: seq<T>)
    ensures multiset(r) == multiset(s)
    ensures |r| == |s|
  {
    if s == [] then [] else
    assert s == [s[0]] + s[1..];
    Insert(leq, s[0], Sort(leq, s[1..]))
  }

  lemma {:induction false} SortSorted<T(!new)>(leq: (T, T) -> bool, s: seq<T>)
    requires TotalPreorder(leq)
    ensures SortedBy(leq, Sort(leq, s))
  {
    if s != [] {
      SortSorted(leq, s[1..]);
      InsertSorted(leq, s[0], Sort(leq, s[1..]));
    }
  }

  lemma SameElements<T>(s: seq<T>, t: seq<T>)
    requires multiset(s) == multiset(t)
    ensures |s| == |t|
    ensures forall x :: x in s <==> x in t
  {
    assert |multiset(s)| == |s| && |multiset(t)| == |t|;
    forall x ensures x in s <==> x in t {
      assert x in s <==> x in multiset(s);
      assert x in t <==> x in multiset(t);
    }
  }

  ghost predicate Distinct<T>(s: seq<T>) {
    forall i, j :: 0 <= i < j < |s| ==> s[i] != s[j]
  }

  /** Two arrangements of the same distinct elements hold the same multiset. */
  lemma DistinctSameMultiset<T>(s: seq<T>, t: seq<T>)
    requires Distinct(s) && Distinct(t)
    requires forall x :: x in s <==> x in t
    ensures multiset(s) == multiset(t)
  {
    forall x ensures multiset(s)[x] == multiset(t)[x] {
      DistinctMultiplicity(s, x);
      DistinctMultiplicity(t, x);
    }
  }

  lemma {:induction false} DistinctMultiplicity<T>(s: seq<T>, x: T)
    requires Distinct(s)
    ensures multiset(s)[x] == if x in s then 1 else 0
  {
    if s != [] {
      DistinctMultiplicity(s[1..], x);
      assert s == [s[0]] + s[1..];
    }
  }

  lemma {:induction false} DistinctSize<T>(s: seq<T>, bound: set<T>)
    requires Distinct(s) && forall x :: x in s ==> x in bound
    ensures |s| <= |bound|
  {
    if s != [] {
      assert s[0] in bound;
      DistinctSize(s[1..], bound - {s[0]});
    }
  }

  lemma TwoPlaces<T>(t: seq<T>, i: nat, j: nat)
    requires i < j < |t| && t[i] == t[j]
    ensures multiset(t)[t[i]] >= 2
  {
    assert t == t[..i] + [t[i]] + t[i + 1..j] + [t[j]] + t[j + 1..];
  }

  lemma DistinctPermutation<T>(s: seq<T>, t: seq<T>)
    requires Distinct(s) && multiset(s) == multiset(t)
    ensures Distinct(t)
  {
    forall i, j | 0 <= i < j < |t| ensures t[i] != t[j] {
      DistinctMultiplicity(s, t[i]);
      if t[i] == t[j] { TwoPlaces(t, i, j); }
    }
  }

  lemma SameTails<T>(s: seq<T>, t: seq<T>)
    requires s != [] && t != [] && s[0] == t[0] && multiset(s) == multiset(t)
    ensures multiset(s[1..]) == multiset(t[1..])
  {
    assert s == [s[0]] + s[1..] && t == [t[0]] + t[1..];
    assert multiset(s[1..]) == multiset(s) - multiset{s[0]};
    assert multiset(t[1..]) == multiset(t) - multiset{t[0]};
  }

  ghost predicate NoTies<T>(leq: (T, T) -> bool, s: seq<T>) {
    forall a, b :: a in s && b in s && leq(a, b) && leq(b, a) ==> a == b
  }

  lemma SameHeads<T>(leq: (T, T) -> bool, s: seq<T>, t: seq<T>)
    requires SortedBy(leq, s) && SortedBy(leq, t) && multiset(s) == multiset(t)
    requires NoTies(leq, s) && s != []
    ensures t != [] && s[0] == t[0]
  {
    SameElements(s, t);
    assert s[0] in s && t[0] in t;
    assert s[0] in t && t[0] in s;
    var i :| 0 <= i < |t| && t[i] == s[0];
    var j :| 0 <= j < |s| && s[j] == t[0];
    if i != 0 && j != 0 {
      assert leq(t[0], t[i]) && leq(s[0], s[j]);
    }
  }

  /** Only one arrangement of a collection is sorted when no two of its elements tie. */
  lemma {:induction false} SortedUnique<T>(leq: (T, T) -> bool, s: seq<T>, t: seq<T>)
    requires SortedBy(leq, s) && SortedBy(leq, t) && multiset(s) == multiset(t)
    requires NoTies(leq, s)
    ensures s == t
  {
    SameElements(s, t);
    if s != [] {
      SameHeads(leq, s, t);
      SameTails(s, t);
      SortedUnique(leq, s[1..], t[1..]);
      assert s == [s[0]] + s[1..] && t == [t[0]] + t[1..];
    }
  }

  /** Lexicographic order on sequences of numbers, as on byte strings. */
  predicate LexLeq(a: seq<int>, b: seq<int>) {
    if a == [] then true
    else if b == [] then false
    else if a[0] != b[0] then a[0] < b[0]
    else LexLeq(a[1..], b[1..])
  }

  lemma {:induction false} LexTotal(a: seq<int>, b: seq<int>)
    ensures LexLeq(a, b) || LexLeq(b, a)
    ensures LexLeq(a, b) && LexLeq(b, a) ==> a == b
  {
    if a != [] && b != [] {
      LexTotal(a[1..], b[1..]);
      assert a == [a[0]] + a[1..] && b == [b[0]] + b[1..];
    }
  }

  lemma {:induction false} LexTransitive(a: seq<int>, b: seq<int>, c: seq<int>)
    requires LexLeq(a, b) && LexLeq(b, c)
    ensures LexLeq(a, c)
  {
    if a != [] && a[0] == b[0] && b[0] == c[0] {
      LexTransitive(a[1..], b[1..], c[1..]);
    }
  }
}
