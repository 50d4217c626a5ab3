/** Stable sorting by a key, and when its result does not depend on the order of the input. */
module Ordering {
  import opened Prelude

  ghost predicate TotalOrder<K(!new)>(le: (K, K) -> bool) {
    && (forall a, b :: le(a, b) && le(b, a) ==> a == b)
    && (forall a, b, c :: le(a, b) && le(b, c) ==> le(a, c))
    && (forall a, b :: le(a, b) || le(b, a))
  }

  ghost predicate SortedBy<T, K>(le: (K, K) -> bool, key: T -> K, xs: seq<T>) {
    forall i, j :: 0 <= i < j < |xs| ==> le(key(xs[i]), key(xs[j]))
  }

  ghost predicate KeyDetermines<T, K>(key: T -> K, xs: seq<T>) {
    forall x, y :: x in xs && y in xs && key(x) == key(y) ==> x == y
  }

  /** Behind every element whose key is not greater. */
  function Insert<T, K>(le: (K, K) -> bool, key: T -> K, xs: seq<T>, x: T): seq<T> {
    if |xs| == 0 || le(key(xs[|xs| - 1]), key(x)) then xs + [x]
    else Insert(le, key, xs[..|xs| - 1], x) + [xs[|xs| - 1]]
  }

  function Sort<T, K>(le: (K, K) -> bool, key: T -> K, xs: seq<T>): seq<T> {
    if |xs| == 0 then [] else Insert(le, key, Sort(le, key, xs[..|xs| - 1]), xs[|xs| - 1])
  }

  lemma {:induction false} InsertAdds<T, K>(le: (K, K) -> bool, key: T -> K, xs: seq<T>, x: T)
    ensures multiset(Insert(le, key, xs, x)) == multiset(xs) + multiset{x}
  {
    if |xs| != 0 {
      InsertAdds(le, key, xs[..|xs| - 1], x);
      assert xs == xs[..|xs| - 1] + [xs[|xs| - 1]];
    }
  }

  /** Sorting rearranges, whatever the comparison. */
  lemma {:induction false} SortPermutes<T, K>(le: (K, K) -> bool, key: T -> K, xs: seq<T>)
    ensures Permuted(xs, Sort(le, key, xs))
    ensures forall x :: x in Sort(le, key, xs) ==> x in xs
  {
    if |xs| != 0 {
      var k := |xs| - 1;
      SortPermutes(le, key, xs[..k]);
      InsertAdds(le, key, Sort(le, key, xs[..k]), xs[k]);
      assert xs == xs[..k] + [xs[k]];
    }
    forall x | x in Sort(le, key, xs) ensures x in xs {
      assert x in multiset(xs);
    }
  }

  lemma SortedSnoc<T, K>(le: (K, K) -> bool, key: T -> K, xs: seq<T>, x: T)
    requires SortedBy(le, key, xs) && forall y :: y in xs ==> le(key(y), key(x))
    ensures SortedBy(le, key, xs + [x])
  {
  }

  lemma {:induction false} InsertSorts<T, K(!new)>(le: (K, K) -> bool, key: T -> K, xs: seq<T>, x: T)
    requires TotalOrder(le) && SortedBy(le, key, xs)
    ensures SortedBy(le, key, Insert(le, key, xs, x))
  {
    if |xs| == 0 {
    } else if le(key(xs[|xs| - 1]), key(x)) {
      var last := xs[|xs| - 1];
      forall y | y in xs ensures le(key(y), key(x)) {
        var i :| 0 <= i < |xs| && xs[i] == y;
        assert le(key(y), key(last));
      }
      SortedSnoc(le, key, xs, x);
    } else {
      var k := |xs| - 1;
      InsertSorts(le, key, xs[..k], x);
      InsertAdds(le, key, xs[..k], x);
      var ys := Insert(le, key, xs[..k], x);
      forall y | y in ys ensures le(key(y), key(xs[k])) {
        assert y in multiset(ys);
        if y in xs[..k] {
          var j :| 0 <= j < k && xs[j] == y;
        }
      }
      SortedSnoc(le, key, ys, xs[k]);
    }
  }

  lemma {:induction false} SortSorts<T, K(!new)>(le: (K, K) -> bool, key: T -> K, xs: seq<T>)
    requires TotalOrder(le)
    ensures SortedBy(le, key, Sort(le, key, xs))
  {
    if |xs| != 0 {
      SortSorts(le, key, xs[..|xs| - 1]);
      InsertSorts(le, key, Sort(le, key, xs[..|xs| - 1]), xs[|xs| - 1]);
    }
  }

  lemma {:induction false} InsertBehind<T, K>(le: (K, K) -> bool, key: T -> K, front: seq<T>, xs: seq<T>, x: T)
    requires forall y :: y in front ==> le(key(y), key(x))
    ensures Insert(le, key, front + xs, x) == front + Insert(le, key, xs, x)
  {
    if |xs| == 0 {
      assert front + xs == front;
    } else if !le(key(xs[|xs| - 1]), key(x)) {
      assert (front + xs)[..|front + xs| - 1] == front + xs[..|xs| - 1];
      InsertBehind(le, key, front, xs[..|xs| - 1], x);
    }
  }

  /** Sorting elements all of whose keys follow those of another list leaves them behind that list. */
  lemma {:induction false} SortConcat<T, K>(le: (K, K) -> bool, key: T -> K, early: seq<T>, late: seq<T>)
    requires forall a, b :: a in early && b in late ==> le(key(a), key(b))
    ensures Sort(le, key, early + late) == Sort(le, key, early) + Sort(le, key, late)
  {
    if |late| == 0 {
      assert early + late == early;
    } else {
      var k := |late| - 1;
      assert (early + late)[..|early + late| - 1] == early + late[..k];
      SortConcat(le, key, early, late[..k]);
      SortPermutes(le, key, early);
      InsertBehind(le, key, Sort(le, key, early), Sort(le, key, late[..k]), late[k]);
    }
  }

  lemma FirstIsLeast<T, K(!new)>(le: (K, K) -> bool, key: T -> K, a: seq<T>, x: T)
    requires TotalOrder(le) && SortedBy(le, key, a) && x in a
    ensures le(key(a[0]), key(x))
  {
    assert le(key(x), key(x));
    var i :| 0 <= i < |a| && a[i] == x;
  }

  lemma SameFirst<T, K(!new)>(le: (K, K) -> bool, key: T -> K, a: seq<T>, b: seq<T>)
    requires TotalOrder(le) && KeyDetermines(key, a) && Permuted(a, b) && SortedBy(le, key, a) && SortedBy(le, key, b) && a != []
    ensures b != [] && a[0] == b[0]
  {
    PermutedSameElements(a, b);
    assert a[0] in b && b[0] in a;
    FirstIsLeast(le, key, a, b[0]);
    FirstIsLeast(le, key, b, a[0]);
  }

  /** Sorting by a key that tells elements apart gives one list, whatever order the elements came in. */
  lemma {:induction false} SortedListingIsUnique<T, K(!new)>(le: (K, K) -> bool, key: T -> K, a: seq<T>, b: seq<T>)
    requires TotalOrder(le) && KeyDetermines(key, a) && Permuted(a, b) && SortedBy(le, key, a) && SortedBy(le, key, b)
    ensures a == b
  {
    if |a| != 0 {
      SameFirst(le, key, a, b);
      assert a == [a[0]] + a[1..] && b == [b[0]] + b[1..];
      assert multiset(a[1..]) == multiset(a) - multiset{a[0]} == multiset(b) - multiset{b[0]} == multiset(b[1..]);
      SortedListingIsUnique(le, key, a[1..], b[1..]);
    } else {
      assert |multiset(b)| == |b|;
    }
  }
}
