/** Python's built-in `sorted(xs, key=k, reverse=True)` and `sorted(xs, key=k)`: stable
    sorts by a real-valued key. Both are defined by insertion, so that the order of
    elements with equal keys is visibly the input order. */
module StableSort {

  /** Elements of `s` whose key equals `c`, in their order in `s`. */
  function WithKey<T>(s: seq<T>, key: T -> real, c: real): seq<T> {
    if |s| == 0 then []
    else (if key(s[0]) == c then [s[0]] else []) + WithKey(s[1..], key, c)
  }

  ghost predicate SortedDesc<T>(s: seq<T>, key: T -> real) {
    forall i, j :: 0 <= i < j < |s| ==> key(s[i]) >= key(s[j])
  }

  ghost predicate SortedAsc<T>(s: seq<T>, key: T -> real) {
    forall i, j :: 0 <= i < j < |s| ==> key(s[i]) <= key(s[j])
  }

  /** Inserts `x` in front of the first element whose key is not larger than its own. */
  function InsertDesc<T>(x: T, s: seq<T>, key: T -> real): (r: seq<T>)
    ensures |r| == |s| + 1
  {
    if |s| == 0 || key(s[0]) <= key(x) then [x] + s
    else [s[0]] + InsertDesc(x, s[1..], key)
  }

  lemma {:induction false} InsertDescPermutes<T>(x: T, s: seq<T>, key: T -> real)
    ensures multiset(InsertDesc(x, s, key)) == multiset(s) + multiset{x}
  {
    if |s| > 0 && key(s[0]) > key(x) {
      InsertDescPermutes(x, s[1..], key);
      assert s == [s[0]] + s[1..];
    }
  }

  /** `sorted(s, key=key, reverse=True)`. */
  function SortDesc<T>(s: seq<T>, key: T -> real): (r: seq<T>)
    ensures |r| == |s|
  {
    if |s| == 0 then [] else InsertDesc(s[0], SortDesc(s[1..], key), key)
  }

  /** The sort is a permutation of its input. */
  lemma {:induction false} SortDescPermutes<T>(s: seq<T>, key: T -> real)
    ensures multiset(SortDesc(s, key)) == multiset(s)
  {
    if |s| > 0 {
      SortDescPermutes(s[1..], key);
      InsertDescPermutes(s[0], SortDesc(s[1..], key), key);
      assert s == [s[0]] + s[1..];
    }
  }

  /** `sorted(s, key=key)`: ascending order is descending order of the negated key. */
  function SortAsc<T>(s: seq<T>, key: T -> real): (r: seq<T>)
    ensures |r| == |s|
  {
    SortDesc(s, x => -key(x))
  }

  lemma {:induction false} WithKeyAppend<T>(a: seq<T>, b: seq<T>, key: T -> real, c: real)
    ensures WithKey(a + b, key, c) == WithKey(a, key, c) + WithKey(b, key, c)
  {
    if |a| > 0 {
      assert (a + b)[1..] == a[1..] + b;
      WithKeyAppend(a[1..], b, key, c);
    } else {
      assert a + b == b;
    }
  }

  lemma {:induction false} InsertDescSorted<T>(x: T, s: seq<T>, key: T -> real)
    requires SortedDesc(s, key)
    ensures SortedDesc(InsertDesc(x, s, key), key)
  {
    if |s| > 0 && key(s[0]) > key(x) {
      var t := InsertDesc(x, s[1..], key);
      InsertDescSorted(x, s[1..], key);
      InsertDescBound(x, s[1..], key, key(s[0]));
      assert InsertDesc(x, s, key) == [s[0]] + t;
    }
  }

  /** Every key in `InsertDesc(x, s)` is at most `b` when `x`'s and all of `s`'s are. */
  lemma {:induction false} InsertDescBound<T>(x: T, s: seq<T>, key: T -> real, b: real)
    requires key(x) <= b && forall k :: 0 <= k < |s| ==> key(s[k]) <= b
    ensures forall k :: 0 <= k < |InsertDesc(x, s, key)| ==> key(InsertDesc(x, s, key)[k]) <= b
  {
    if |s| > 0 && key(s[0]) > key(x) {
      InsertDescBound(x, s[1..], key, b);
      var t := InsertDesc(x, s[1..], key);
      assert InsertDesc(x, s, key) == [s[0]] + t;
    }
  }

  lemma WithKeyCons<T>(a: T, t: seq<T>, key: T -> real, c: real)
    ensures WithKey([a] + t, key, c) == (if key(a) == c then [a] else []) + WithKey(t, key, c)
  {
    assert ([a] + t)[0] == a;
    assert ([a] + t)[1..] == t;
  }

  lemma {:induction false} InsertDescStable<T>(x: T, s: seq<T>, key: T -> real, c: real)
    ensures WithKey(InsertDesc(x, s, key), key, c)
         == (if key(x) == c then [x] else []) + WithKey(s, key, c)
  {
    if |s| == 0 || key(s[0]) <= key(x) {
      WithKeyCons(x, s, key, c);
    } else {
      InsertDescStable(x, s[1..], key, c);
      InsertDescStableStep(x, s, key, c);
    }
  }

  /** The step of `InsertDescStable` where `x` passes the head of `s`, which has a larger
      key and so never shares `x`'s key. */
  lemma InsertDescStableStep<T>(x: T, s: seq<T>, key: T -> real, c: real)
    requires |s| > 0 && key(s[0]) > key(x)
    requires WithKey(InsertDesc(x, s[1..], key), key, c)
          == (if key(x) == c then [x] else []) + WithKey(s[1..], key, c)
    ensures WithKey(InsertDesc(x, s, key), key, c)
         == (if key(x) == c then [x] else []) + WithKey(s, key, c)
  {
    var t := InsertDesc(x, s[1..], key);
    var w1 := WithKey(s[1..], key, c);
    var head := if key(s[0]) == c then [s[0]] else [];
    assert InsertDesc(x, s, key) == [s[0]] + t;
    WithKeyCons(s[0], t, key, c);
    assert WithKey(InsertDesc(x, s, key), key, c) == head + WithKey(t, key, c);
    assert s == [s[0]] + s[1..];
    WithKeyCons(s[0], s[1..], key, c);
    assert WithKey(s, key, c) == head + w1;
    if key(x) == c {
      assert head == [];
      assert WithKey(t, key, c) == [x] + w1;
    } else {
      assert WithKey(t, key, c) == w1;
    }
  }

  /** `sorted(..., reverse=True)` yields a permutation in non-increasing key order. */
  lemma {:induction false} SortDescSorted<T>(s: seq<T>, key: T -> real)
    ensures SortedDesc(SortDesc(s, key), key)
  {
    if |s| > 0 {
      SortDescSorted(s[1..], key);
      InsertDescSorted(s[0], SortDesc(s[1..], key), key);
    }
  }

  /** Stability: elements with equal keys keep their input order. */
  lemma {:induction false} SortDescStable<T>(s: seq<T>, key: T -> real, c: real)
    ensures WithKey(SortDesc(s, key), key, c) == WithKey(s, key, c)
  {
    if |s| > 0 {
      SortDescStable(s[1..], key, c);
      InsertDescStable(s[0], SortDesc(s[1..], key), key, c);
    }
  }

  /** The ascending sort is a permutation of its input. */
  lemma SortAscPermutes<T>(s: seq<T>, key: T -> real)
    ensures multiset(SortAsc(s, key)) == multiset(s)
  {
    SortDescPermutes(s, x => -key(x));
  }

  lemma SortAscSorted<T>(s: seq<T>, key: T -> real)
    ensures SortedAsc(SortAsc(s, key), key)
  {
    SortDescSorted(s, x => -key(x));
  }

  /** The head of a non-empty descending sort carries the largest key. */
  lemma SortDescHeadIsMax<T>(s: seq<T>, key: T -> real)
    requires |s| > 0
    ensures forall e :: e in s ==> key(SortDesc(s, key)[0]) >= key(e)
  {
    var r := SortDesc(s, key);
    SortDescSorted(s, key);
    SortDescPermutes(s, key);
    forall e | e in s ensures key(r[0]) >= key(e) {
      assert e in multiset(r);
      var k :| 0 <= k < |r| && r[k] == e;
    }
  }
}
