/** Stock shapes shared by every module: options, distinct sequences and order-free sums over sequences. */
module Prelude {

  datatype Option<+T> = None | Some(value: T)

  ghost predicate Distinct<T>(xs: seq<T>) {
    forall i, j :: 0 <= i < j < |xs| ==> xs[i] != xs[j]
  }

  ghost predicate Permuted<T>(a: seq<T>, b: seq<T>) {
    multiset(a) == multiset(b)
  }

  function Map<A, B>(f: A -> B, xs: seq<A>): (ys: seq<B>)
    ensures |ys| == |xs| && forall i :: 0 <= i < |xs| ==> ys[i] == f(xs[i])
  {
    seq(|xs|, i requires 0 <= i < |xs| => f(xs[i]))
  }

  /** The sum, over the elements of a sequence, of the bags that f gives them. */
  ghost function BagSum<A, B>(f: A -> multiset<B>, xs: seq<A>): multiset<B> {
    if |xs| == 0 then multiset{} else BagSum(f, xs[..|xs| - 1]) + f(xs[|xs| - 1])
  }

  ghost function Without<A>(xs: seq<A>, i: nat): (ys: seq<A>)
    requires i < |xs|
    ensures multiset(ys) + multiset{xs[i]} == multiset(xs)
  {
    assert xs == xs[..i] + [xs[i]] + xs[i + 1..];
    xs[..i] + xs[i + 1..]
  }

  lemma {:induction false} BagSumWithout<A, B>(f: A -> multiset<B>, xs: seq<A>, i: nat)
    requires i < |xs|
    ensures BagSum(f, xs) == BagSum(f, Without(xs, i)) + f(xs[i])
  {
    var n := |xs| - 1;
    var rest := Without(xs, i);
    if i == n {
      assert rest == xs[..n];
    } else {
      BagSumWithout(f, xs[..n], i);
      assert rest[..n - 1] == Without(xs[..n], i);
      assert rest[n - 1] == xs[n];
    }
  }

  /** A bag sum does not depend on the order of the sequence. */
  lemma {:induction false} BagSumPermuted<A, B>(f: A -> multiset<B>, a: seq<A>, b: seq<A>)
    requires Permuted(a, b)
    ensures BagSum(f, a) == BagSum(f, b)
    decreases |a|
  {
    assert |a| == |multiset(a)| == |multiset(b)| == |b|;
    if |a| != 0 {
      var n := |a| - 1;
      assert a == a[..n] + [a[n]];
      assert a[n] in multiset(b);
      var i :| 0 <= i < |b| && b[i] == a[n];
      assert multiset(a[..n]) + multiset{a[n]} == multiset(Without(b, i)) + multiset{a[n]};
      assert multiset(a[..n]) == multiset(a[..n]) + multiset{a[n]} - multiset{a[n]};
      assert multiset(a[..n]) == multiset(Without(b, i));
      BagSumWithout(f, b, i);
      BagSumPermuted(f, a[..n], Without(b, i));
    }
  }

  lemma {:induction false} MapIsBagSum<A, B>(f: A -> B, xs: seq<A>)
    ensures multiset(Map(f, xs)) == BagSum((x: A) => multiset{f(x)}, xs)
  {
    if |xs| != 0 {
      var n := |xs| - 1;
      MapIsBagSum(f, xs[..n]);
      assert Map(f, xs) == Map(f, xs[..n]) + [f(xs[n])];
    }
  }

  /** Mapping permuted sequences gives permuted sequences. */
  lemma MapPermuted<A, B>(f: A -> B, a: seq<A>, b: seq<A>)
    requires Permuted(a, b)
    ensures Permuted(Map(f, a), Map(f, b))
  {
    MapIsBagSum(f, a);
    MapIsBagSum(f, b);
    BagSumPermuted((x: A) => multiset{f(x)}, a, b);
  }

  lemma {:induction false} DistinctCounts<T>(xs: seq<T>)
    ensures Distinct(xs) <==> forall x :: x in xs ==> multiset(xs)[x] == 1
  {
    if |xs| != 0 {
      var n := |xs| - 1;
      assert xs == xs[..n] + [xs[n]];
      DistinctCounts(xs[..n]);
      if Distinct(xs) {
        assert xs[n] !in xs[..n];
        forall x | x in xs ensures multiset(xs)[x] == 1 {
          assert x in xs[..n] || x == xs[n];
        }
      } else {
        if Distinct(xs[..n]) {
          assert xs[n] in xs[..n];
          assert multiset(xs)[xs[n]] >= 2;
        } else {
          var x :| x in xs[..n] && multiset(xs[..n])[x] != 1;
          assert x in xs && multiset(xs)[x] >= 2;
        }
      }
    }
  }

  /** Distinctness of a mapped sequence survives permutation. */
  lemma DistinctPermuted<A, B>(f: A -> B, a: seq<A>, b: seq<A>)
    requires Permuted(a, b) && Distinct(Map(f, a))
    ensures Distinct(Map(f, b))
  {
    MapPermuted(f, a, b);
    DistinctCounts(Map(f, a));
    DistinctCounts(Map(f, b));
    forall x | x in Map(f, b) ensures multiset(Map(f, b))[x] == 1 {
      assert x in multiset(Map(f, a));
    }
  }

  lemma PermutedSameElements<T>(a: seq<T>, b: seq<T>)
    requires Permuted(a, b)
    ensures |a| == |b| && forall x :: x in a <==> x in b
  {
    assert |multiset(a)| == |a| && |multiset(b)| == |b|;
    forall x ensures x in a <==> x in b {
      assert x in a <==> x in multiset(a);
      assert x in b <==> x in multiset(b);
    }
  }

  /** What a partial function yields over the elements of a sequence. */
  ghost function Collect<A, B>(f: A -> Option<B>, xs: seq<A>): set<B> {
    set x | x in xs && f(x).Some? :: f(x).value
  }

  lemma CollectGrow<A, B>(f: A -> Option<B>, xs: seq<A>, x: A)
    ensures Collect(f, xs + [x]) == Collect(f, xs) + if f(x).Some? then {f(x).value} else {}
  {
    forall y ensures y in xs + [x] <==> y in xs || y == x {}
  }

  lemma CollectHas<A, B>(f: A -> Option<B>, xs: seq<A>, x: A)
    requires x in xs && f(x).Some?
    ensures f(x).value in Collect(f, xs)
  {
  }

  lemma CollectEmpty<A, B>(f: A -> Option<B>, xs: seq<A>)
    ensures Collect(f, xs) == {} <==> forall x :: x in xs ==> f(x) == None
  {
    if x :| x in xs && f(x) != None {
      CollectHas(f, xs, x);
    }
  }

  lemma CollectPermuted<A, B>(f: A -> Option<B>, a: seq<A>, b: seq<A>)
    requires Permuted(a, b)
    ensures Collect(f, a) == Collect(f, b)
  {
    PermutedSameElements(a, b);
  }

  /** m is base overridden, at the id of each element that has a value, by that value. */
  ghost predicate Overlays<A, K(!new), V>(base: map<K, V>, id: A -> K, val: A -> Option<V>, xs: seq<A>, m: map<K, V>) {
    && (forall k :: k in m <==> k in base || Binds(id, val, xs, k))
    && (forall k :: k in base && !Binds(id, val, xs, k) ==> m[k] == base[k])
    && (forall x :: x in xs && val(x).Some? ==> id(x) in m && m[id(x)] == val(x).value)
  }

  ghost predicate Binds<A, K, V>(id: A -> K, val: A -> Option<V>, xs: seq<A>, k: K) {
    exists x :: x in xs && id(x) == k && val(x).Some?
  }

  lemma BindsPermuted<A, K, V>(id: A -> K, val: A -> Option<V>, xs: seq<A>, ys: seq<A>, k: K)
    requires Permuted(xs, ys)
    ensures Binds(id, val, xs, k) <==> Binds(id, val, ys, k)
  {
    PermutedSameElements(xs, ys);
  }

  /** An overlay is determined by the elements it was made of, whatever their order. */
  lemma OverlaysUnique<A, K(!new), V>(
    base: map<K, V>, id: A -> K, val: A -> Option<V>, xs: seq<A>, ys: seq<A>, m: map<K, V>, n: map<K, V>)
    requires Permuted(xs, ys) && Overlays(base, id, val, xs, m) && Overlays(base, id, val, ys, n)
    ensures m == n
  {
    PermutedSameElements(xs, ys);
    forall k ensures k in m <==> k in n {
      BindsPermuted(id, val, xs, ys, k);
    }
    forall k | k in m ensures m[k] == n[k] {
      BindsPermuted(id, val, xs, ys, k);
      if Binds(id, val, xs, k) {
        var x :| x in xs && id(x) == k && val(x).Some?;
      }
    }
  }

  /** One more element overlays one more binding, provided no earlier element has its id. */
  lemma OverlaysGrow<A, K(!new), V>(base: map<K, V>, id: A -> K, val: A -> Option<V>, init: seq<A>, x: A, m: map<K, V>)
    requires Overlays(base, id, val, init, m)
    requires forall y :: y in init ==> id(y) != id(x)
    ensures Overlays(base, id, val, init + [x], if val(x).Some? then m[id(x) := val(x).value] else m)
  {
    var xs := init + [x];
    assert x in xs && forall y :: y in init ==> y in xs;
    forall k ensures Binds(id, val, xs, k) <==> Binds(id, val, init, k) || (id(x) == k && val(x).Some?) {
      if Binds(id, val, init, k) {
        var y :| y in init && id(y) == k && val(y).Some?;
        assert y in xs;
      }
    }
  }
}
