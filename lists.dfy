/** Python list operations used throughout the engine: `list.remove` and repeated removal. */
module Lists {

  /** `s.remove(x)` when the error is caught: the first element equal to `x` is dropped;
      a list without `x` is returned as it is. */
  function RemoveFirst<T(==)>(s: seq<T>, x: T): seq<T>
  {
    if s == [] then []
    else if s[0] == x then s[1..]
    else [s[0]] + RemoveFirst(s[1..], x)
  }

  /** Removes the elements of `xs` one after the other, in the order of `xs`. */
  function RemoveEach<T(==)>(s: seq<T>, xs: seq<T>): seq<T>
    decreases xs
  {
    if xs == [] then s else RemoveEach(RemoveFirst(s, xs[0]), xs[1..])
  }

  /** No two positions hold equal elements. */
  predicate NoDup<T(==)>(s: seq<T>)
  {
    forall i, j :: 0 <= i < j < |s| ==> s[i] != s[j]
  }

  /** A present element: exactly its first occurrence goes, everything else keeps its order. */
  lemma {:induction false} RemoveFirstPresent<T>(s: seq<T>, x: T)
    requires x in s
    ensures exists i :: 0 <= i < |s| && s[i] == x && x !in s[..i] && RemoveFirst(s, x) == s[..i] + s[i + 1..]
    ensures |RemoveFirst(s, x)| == |s| - 1
  {
    if s[0] == x {
      assert s[..0] == [];
      assert RemoveFirst(s, x) == s[..0] + s[1..];
    } else {
      RemoveFirstPresent(s[1..], x);
      var i :| 0 <= i < |s[1..]| && s[1..][i] == x && x !in s[1..][..i]
             && RemoveFirst(s[1..], x) == s[1..][..i] + s[1..][i + 1..];
      assert s[..i + 1] == [s[0]] + s[1..][..i];
      assert s[i + 2..] == s[1..][i + 1..];
      assert RemoveFirst(s, x) == [s[0]] + RemoveFirst(s[1..], x);
      ConcatAssoc([s[0]], s[1..][..i], s[1..][i + 1..]);
      assert s[i + 1] == x && x !in s[..i + 1];
      assert 0 <= i + 1 < |s| && s[i + 1] == x && x !in s[..i + 1] && RemoveFirst(s, x) == s[..i + 1] + s[i + 2..];
    }
  }

  /** An absent element: the list is unchanged and nothing fails. */
  lemma {:induction false} RemoveFirstAbsent<T>(s: seq<T>, x: T)
    requires x !in s
    ensures RemoveFirst(s, x) == s
  {
    if s != [] {
      assert s[0] != x;
      RemoveFirstAbsent(s[1..], x);
      assert [s[0]] + s[1..] == s;
    }
  }

  /** Whether or not `x` is present, the multiset loses one `x` at most. */
  lemma {:induction false} RemoveFirstMultiset<T>(s: seq<T>, x: T)
    ensures multiset(RemoveFirst(s, x)) == multiset(s) - multiset{x}
  {
    if s != [] {
      assert s == [s[0]] + s[1..];
      if s[0] != x {
        RemoveFirstMultiset(s[1..], x);
      }
    }
  }

  /** Taking away `b` and then `c` is taking away `b + c`. */
  lemma MultisetDifferenzaDoppia<T>(a: multiset<T>, b: multiset<T>, c: multiset<T>)
    ensures (a - b) - c == a - (b + c)
  {
    forall z ensures ((a - b) - c)[z] == (a - (b + c))[z] {
    }
  }

  /** Concatenation regroups freely. */
  lemma ConcatAssoc<T>(a: seq<T>, b: seq<T>, c: seq<T>)
    ensures a + b + c == a + (b + c)
  {
    forall i | 0 <= i < |a + b + c| ensures (a + b + c)[i] == (a + (b + c))[i] {
      if i >= |a| + |b| {
        assert (a + b + c)[i] == c[i - |a| - |b|];
      }
    }
  }

  /** Sequential removal takes away exactly the multiset of removed elements. */
  lemma {:induction false} RemoveEachMultiset<T>(s: seq<T>, xs: seq<T>)
    ensures multiset(RemoveEach(s, xs)) == multiset(s) - multiset(xs)
    decreases xs
  {
    if xs != [] {
      RemoveFirstMultiset(s, xs[0]);
      RemoveEachMultiset(RemoveFirst(s, xs[0]), xs[1..]);
      assert xs == [xs[0]] + xs[1..];
      MultisetDifferenzaDoppia(multiset(s), multiset{xs[0]}, multiset(xs[1..]));
    }
  }

  /** When every removed element is present, the length drops by exactly `|xs|`. */
  lemma RemoveEachLength<T>(s: seq<T>, xs: seq<T>)
    requires multiset(xs) <= multiset(s)
    ensures |RemoveEach(s, xs)| == |s| - |xs|
  {
    RemoveEachMultiset(s, xs);
    assert |multiset(RemoveEach(s, xs))| == |multiset(s) - multiset(xs)|;
    MultisetSubtractSize(multiset(s), multiset(xs));
  }

  lemma MultisetSubtractSize<T>(a: multiset<T>, b: multiset<T>)
    requires b <= a
    ensures |a - b| == |a| - |b|
  {
    assert (a - b) + b == a;
  }

  /** A suffix that is removed element by element: `RemoveEach` on `xs + [y]` removes `y` last. */
  lemma {:induction false} RemoveEachSnoc<T>(s: seq<T>, xs: seq<T>, y: T)
    ensures RemoveEach(s, xs + [y]) == RemoveFirst(RemoveEach(s, xs), y)
    decreases xs
  {
    if xs == [] {
      assert [] + [y] == [y];
    } else {
      assert (xs + [y])[1..] == xs[1..] + [y];
      RemoveEachSnoc(RemoveFirst(s, xs[0]), xs[1..], y);
    }
  }
}
