/** Small shared vocabulary: optional values, results, subsequences. */
module Collections {

  datatype Option<+T> = None | Some(value: T)

  datatype Result<+T, +E> = Ok(value: T) | Err(error: E)

  type Byte = b: int | 0 <= b < 256

  lemma Associative<T>(a: seq<T>, b: seq<T>, c: seq<T>)
    ensures a + b + c == a + (b + c)
  {
  }

  /** Keep the elements of `s` that satisfy `keep`, in order. */
  function Filter<T(!new)>(s: seq<T>, keep: T -> bool): (r: seq<T>)
    ensures forall x :: x in r <==> x in s && keep(x)
    ensures |r| <= |s|
  {
    if s == [] then [] else (if keep(s[0]) then [s[0]] else []) + Filter(s[1..], keep)
  }

  lemma {:induction false} FilterAppend<T(!new)>(s: seq<T>, t: seq<T>, keep: T -> bool)
    ensures Filter(s + t, keep) == Filter(s, keep) + Filter(t, keep)
  {
    if s == [] {
      assert s + t == t;
    } else {
      assert (s + t)[0] == s[0] && (s + t)[1..] == s[1..] + t;
      FilterAppend(s[1..], t, keep);
    }
  }

  lemma {:induction false} FilterNone<T(!new)>(s: seq<T>, keep: T -> bool)
    requires forall x :: x in s ==> !keep(x)
    ensures Filter(s, keep) == []
  {
    if s != [] {
      assert s[0] in s;
      FilterNone(s[1..], keep);
    }
  }

  /** `s` is what remains of `t` after dropping some elements, order kept. */
  predicate IsSubsequence<T(==)>(s: seq<T>, t: seq<T>) {
    if s == [] then true
    else if t == [] then false
    else if s[0] == t[0] && IsSubsequence(s[1..], t[1..]) then true
    else IsSubsequence(s, t[1..])
  }

  lemma {:induction false} SubsequenceTail<T>(s: seq<T>, t: seq<T>)
    requires s != [] && IsSubsequence(s, t)
    ensures t != [] && IsSubsequence(s[1..], t) && IsSubsequence(s[1..], t[1..])
    decreases |t|, 0
  {
    if s[0] == t[0] && IsSubsequence(s[1..], t[1..]) {
      SubsequenceSkip(s[1..], t[0], t[1..]);
      assert [t[0]] + t[1..] == t;
    } else {
      SubsequenceTail(s, t[1..]);
      SubsequenceSkip(s[1..], t[0], t[1..]);
      assert [t[0]] + t[1..] == t;
    }
  }

  lemma SubsequenceSkip<T>(s: seq<T>, x: T, t: seq<T>)
    requires IsSubsequence(s, t)
    ensures IsSubsequence(s, [x] + t)
    decreases |t|, 1
  {
    assert ([x] + t)[1..] == t;
    if s != [] && s[0] == x && !IsSubsequence(s[1..], t) {
      SubsequenceTail(s, t);
    }
  }

  lemma {:induction false} SubsequenceTransitive<T>(a: seq<T>, b: seq<T>, c: seq<T>)
    requires IsSubsequence(a, b) && IsSubsequence(b, c)
    ensures IsSubsequence(a, c)
    decreases |a| + |b| + |c|
  {
    if a != [] {
      if b[0] == c[0] && IsSubsequence(b[1..], c[1..]) {
        if a[0] == b[0] && IsSubsequence(a[1..], b[1..]) {
          SubsequenceTransitive(a[1..], b[1..], c[1..]);
        } else {
          SubsequenceTransitive(a, b[1..], c[1..]);
        }
      } else {
        SubsequenceTransitive(a, b, c[1..]);
      }
    }
  }

  lemma {:induction false} SubsequenceReflexive<T>(s: seq<T>)
    ensures IsSubsequence(s, s)
  {
    if s != [] { SubsequenceReflexive(s[1..]); }
  }

  lemma {:induction false} SubsetSize<T>(a: set<T>, b: set<T>)
    requires a <= b
    ensures |a| <= |b|
  {
    if a != {} {
      var x :| x in a;
      SubsetSize(a - {x}, b - {x});
    }
  }

  /** The bytes of a stream that arrives in chunks. */
  function Flatten<T>(chunks: seq<seq<T>>): (r: seq<T>) {
    if chunks == [] then [] else Flatten(chunks[..|chunks| - 1]) + chunks[|chunks| - 1]
  }

  lemma {:induction false} FlattenPrefix<T>(chunks: seq<seq<T>>, i: nat)
    requires i <= |chunks|
    ensures Flatten(chunks[..i]) <= Flatten(chunks)
  {
    if i < |chunks| {
      FlattenPrefix(chunks[..|chunks| - 1], i);
      assert chunks[..|chunks| - 1][..i] == chunks[..i];
    } else {
      assert chunks[..i] == chunks;
    }
  }

  lemma FlattenStep<T>(chunks: seq<seq<T>>, i: nat)
    requires i < |chunks|
    ensures Flatten(chunks[..i + 1]) == Flatten(chunks[..i]) + chunks[i]
    ensures Flatten(chunks[..i + 1]) <= Flatten(chunks)
  {
    assert chunks[..i + 1][..i] == chunks[..i];
    FlattenPrefix(chunks, i + 1);
  }

  lemma FlattenTwo<T>(x: seq<T>, y: seq<T>)
    ensures Flatten([x]) == x
    ensures Flatten([x, y]) == x + y && Flatten([x, y][..1]) == x
  {
    assert [x][..0] == [] && [x, y][..1] == [x];
    assert Flatten([x]) == [] + x == x;
  }
}
