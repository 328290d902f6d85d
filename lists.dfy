/** Order-preserving selection from a sequence, and the facts the model needs about it. */
module Lists {
  /** The elements of xs that satisfy p, in their order in xs. */
  function Filter<T>(xs: seq<T>, p: T -> bool): seq<T> {
    if xs == [] then [] else (if p(xs[0]) then [xs[0]] else []) + Filter(xs[1..], p)
  }

  /** x is selected exactly when it is in xs and satisfies p. */
  lemma {:induction false} FilterMembers<T>(xs: seq<T>, p: T -> bool)
    ensures forall x :: x in Filter(xs, p) <==> x in xs && p(x)
  {
    if xs != [] {
      FilterMembers(xs[1..], p);
      assert forall x :: x in xs <==> x == xs[0] || x in xs[1..];
    }
  }

  /** The elements of xs have strictly increasing rank. */
  predicate Ranked<T>(xs: seq<T>, rank: T -> int) {
    forall i, j :: 0 <= i < j < |xs| ==> rank(xs[i]) < rank(xs[j])
  }

  /** Selection keeps the order: a ranked sequence stays ranked (so no element is selected twice). */
  lemma {:induction false} FilterRanked<T>(xs: seq<T>, p: T -> bool, rank: T -> int)
    requires Ranked(xs, rank)
    ensures Ranked(Filter(xs, p), rank)
  {
    if xs != [] {
      var rest := Filter(xs[1..], p);
      assert Ranked(xs[1..], rank);
      FilterRanked(xs[1..], p, rank);
      FilterMembers(xs[1..], p);
      if p(xs[0]) {
        var r := Filter(xs, p);
        assert r == [xs[0]] + rest;
        forall i, j | 0 <= i < j < |r|
          ensures rank(r[i]) < rank(r[j])
        {
          assert r[j] == rest[j - 1];
          if i > 0 {
            assert r[i] == rest[i - 1];
          } else {
            FilterSubset(xs[1..], p, rest[j - 1]);
            var k :| 0 <= k < |xs[1..]| && xs[1..][k] == r[j];
            assert xs[k + 1] == r[j];
          }
        }
      }
    }
  }

  /** What is selected is in the sequence. */
  lemma FilterSubset<T>(xs: seq<T>, p: T -> bool, x: T)
    requires x in Filter(xs, p)
    ensures x in xs && p(x)
  {
    FilterMembers(xs, p);
  }

  /** Ranked sequences hold no element twice. */
  lemma RankedDistinct<T>(xs: seq<T>, rank: T -> int)
    requires Ranked(xs, rank)
    ensures forall i, j :: 0 <= i < j < |xs| ==> xs[i] != xs[j]
  {
    forall i, j | 0 <= i < j < |xs|
      ensures xs[i] != xs[j]
    {
      assert rank(xs[i]) < rank(xs[j]);
    }
  }

  /** Filter distributes over concatenation. */
  lemma {:induction false} FilterConcat<T>(a: seq<T>, b: seq<T>, p: T -> bool)
    ensures Filter(a + b, p) == Filter(a, p) + Filter(b, p)
  {
    if a == [] {
      assert a + b == b;
    } else {
      var ab := a + b;
      var head := if p(a[0]) then [a[0]] else [];
      assert ab[0] == a[0] && ab[1..] == a[1..] + b;
      FilterConcat(a[1..], b, p);
      calc {
        Filter(ab, p);
        head + Filter(a[1..] + b, p);
        head + (Filter(a[1..], p) + Filter(b, p));
        (head + Filter(a[1..], p)) + Filter(b, p);
        Filter(a, p) + Filter(b, p);
      }
    }
  }

  /** Selecting from xs + [x] selects from xs and then x when p(x) holds. */
  lemma FilterSnoc<T>(xs: seq<T>, x: T, p: T -> bool)
    ensures Filter(xs + [x], p) == Filter(xs, p) + (if p(x) then [x] else [])
  {
    FilterConcat(xs, [x], p);
    assert [x][1..] == [];
  }

  /** Selecting from the first k + 1 elements selects from the first k and then the (k+1)-st when p holds. */
  lemma FilterStep<T>(xs: seq<T>, k: nat, p: T -> bool)
    requires k < |xs|
    ensures Filter(xs[..k + 1], p) == Filter(xs[..k], p) + (if p(xs[k]) then [xs[k]] else [])
  {
    assert xs[..k + 1] == xs[..k] + [xs[k]];
    FilterSnoc(xs[..k], xs[k], p);
  }

  /** Some element of a non-empty set. */
  ghost function Pick<K>(keys: set<K>): (k: K)
    requires keys != {}
    ensures k in keys
  {
    var k :| k in keys; k
  }

  /** 1 when key k of m has a value that f sends to c, else 0. */
  function Hit<K, V, C(==)>(m: map<K, V>, k: K, f: V -> C, c: C): nat {
    if k in m && f(m[k]) == c then 1 else 0
  }

  /** The number of entries of m with a key in keys whose value f sends to c. */
  ghost function CountBy<K, V, C>(m: map<K, V>, keys: set<K>, f: V -> C, c: C): nat
    decreases keys
  {
    if keys == {} then 0
    else
      var k := Pick(keys);
      CountBy(m, keys - {k}, f, c) + Hit(m, k, f, c)
  }

  /** Any key may be counted last: the count does not depend on the order the keys are taken in. */
  lemma {:induction false} CountByRemove<K, V, C>(m: map<K, V>, keys: set<K>, k: K, f: V -> C, c: C)
    requires k in keys
    ensures CountBy(m, keys, f, c) == CountBy(m, keys - {k}, f, c) + Hit(m, k, f, c)
    decreases |keys|
  {
    var j := Pick(keys);
    if j != k {
      CountByRemove(m, keys - {j}, k, f, c);
      CountByRemove(m, keys - {k}, j, f, c);
      assert keys - {j} - {k} == keys - {k} - {j};
    }
  }

  /** When every key falls in class c, the count of c is the number of keys and every other class is empty. */
  lemma {:induction false} CountByUniform<K, V, C>(m: map<K, V>, keys: set<K>, f: V -> C, c: C, d: C)
    requires forall k :: k in keys ==> k in m && f(m[k]) == c
    ensures CountBy(m, keys, f, c) == |keys|
    ensures d != c ==> CountBy(m, keys, f, d) == 0
    decreases |keys|
  {
    if keys != {} {
      var k := Pick(keys);
      CountByUniform(m, keys - {k}, f, c, d);
    }
  }

  /** The number of elements of xs that satisfy p. */
  function Count<T>(xs: seq<T>, p: T -> bool): nat
    decreases |xs|
  {
    if xs == [] then 0 else Count(xs[..|xs| - 1], p) + (if p(xs[|xs| - 1]) then 1 else 0)
  }

  /** Counting over the first k + 1 elements counts over the first k and then the (k+1)-st. */
  lemma CountStep<T>(xs: seq<T>, k: nat, p: T -> bool)
    requires k < |xs|
    ensures Count(xs[..k + 1], p) == Count(xs[..k], p) + (if p(xs[k]) then 1 else 0)
  {
    assert xs[..k + 1][..k] == xs[..k];
  }

  /** The count is zero exactly when no element satisfies p. */
  lemma {:induction false} CountZero<T>(xs: seq<T>, p: T -> bool)
    ensures Count(xs, p) == 0 <==> forall i :: 0 <= i < |xs| ==> !p(xs[i])
    decreases |xs|
  {
    if xs != [] {
      var init := xs[..|xs| - 1];
      CountZero(init, p);
      assert forall i :: 0 <= i < |init| ==> init[i] == xs[i];
    }
  }
}
