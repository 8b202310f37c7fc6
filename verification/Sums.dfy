/** Integer sums over sequences: SQL's sum() over a table and JavaScript's reduce over an array. */
module Sums {

  function Sum<T>(s: seq<T>, f: T -> int): int {
    if s == [] then 0 else Sum(s[..|s| - 1], f) + f(s[|s| - 1])
  }

  lemma SumSnoc<T>(s: seq<T>, x: T, f: T -> int)
    ensures Sum(s + [x], f) == Sum(s, f) + f(x)
  {
    assert (s + [x])[..|s|] == s;
  }

  lemma {:induction false} SumAppend<T>(s: seq<T>, t: seq<T>, f: T -> int)
    ensures Sum(s + t, f) == Sum(s, f) + Sum(t, f)
  {
    if t == [] {
      assert s + t == s;
    } else {
      var n := |t| - 1;
      assert s + t == (s + t[..n]) + [t[n]];
      SumAppend(s, t[..n], f);
      SumSnoc(s + t[..n], t[n], f);
    }
  }

  lemma {:induction false} SumSame<T, U>(s: seq<T>, f: T -> int, t: seq<U>, g: U -> int)
    requires |s| == |t|
    requires forall i | 0 <= i < |s| :: f(s[i]) == g(t[i])
    ensures Sum(s, f) == Sum(t, g)
  {
    if s != [] {
      var n := |s| - 1;
      SumSame(s[..n], f, t[..n], g);
    }
  }

  lemma {:induction false} SumAtMost<T>(s: seq<T>, f: T -> int, g: T -> int)
    requires forall i | 0 <= i < |s| :: f(s[i]) <= g(s[i])
    ensures Sum(s, f) <= Sum(s, g)
  {
    if s != [] {
      SumAtMost(s[..|s| - 1], f, g);
    }
  }

  lemma {:induction false} SumZero<T>(s: seq<T>, f: T -> int)
    requires forall i | 0 <= i < |s| :: f(s[i]) == 0
    ensures Sum(s, f) == 0
  {
    if s != [] {
      SumZero(s[..|s| - 1], f);
    }
  }

  lemma {:induction false} SumNonNegative<T>(s: seq<T>, f: T -> int)
    requires forall i | 0 <= i < |s| :: f(s[i]) >= 0
    ensures Sum(s, f) >= 0
  {
    if s != [] {
      SumNonNegative(s[..|s| - 1], f);
    }
  }

  /** Sums are additive in the summand. */
  lemma {:induction false} SumPlus<T>(s: seq<T>, f: T -> int, g: T -> int, h: T -> int)
    requires forall i | 0 <= i < |s| :: h(s[i]) == f(s[i]) + g(s[i])
    ensures Sum(s, h) == Sum(s, f) + Sum(s, g)
  {
    if s != [] {
      SumPlus(s[..|s| - 1], f, g, h);
    }
  }

  lemma {:induction false} SumScale<T>(s: seq<T>, f: T -> int, c: int, g: T -> int)
    requires forall i | 0 <= i < |s| :: g(s[i]) == c * f(s[i])
    ensures Sum(s, g) == c * Sum(s, f)
  {
    if s != [] {
      SumScale(s[..|s| - 1], f, c, g);
    }
  }

  lemma {:induction false} SumBelow<T>(s: seq<T>, f: T -> int, bound: int)
    requires forall i | 0 <= i < |s| :: f(s[i]) <= bound
    ensures Sum(s, f) <= |s| * bound
  {
    if s != [] {
      SumBelow(s[..|s| - 1], f, bound);
    }
  }

  ghost predicate Distinct<T>(s: seq<T>) {
    forall i, j | 0 <= i < j < |s| :: s[i] != s[j]
  }

  /** One summand of a sum over distinct keys. */
  lemma {:induction false} SumOne<K>(ks: seq<K>, k: K, f: K -> int)
    requires Distinct(ks)
    requires forall j | 0 <= j < |ks| && ks[j] != k :: f(ks[j]) == 0
    ensures Sum(ks, f) == if k in ks then f(k) else 0
  {
    if ks != [] {
      var n := |ks| - 1;
      SumOne(ks[..n], k, f);
      assert ks == ks[..n] + [ks[n]];
    }
  }

  function At<T, K(==)>(key: T -> K, f: T -> int, k: K): T -> int {
    x => if key(x) == k then f(x) else 0
  }

  function Within<T, K(==)>(key: T -> K, f: T -> int, ks: seq<K>): T -> int {
    x => if key(x) in ks then f(x) else 0
  }

  function Group<T, K(==)>(s: seq<T>, key: T -> K, f: T -> int): K -> int {
    k => Sum(s, At(key, f, k))
  }

  /** Grouping by distinct keys and adding up the groups is the sum over the covered rows (SQL's GROUP BY). */
  lemma {:induction false} SumGroups<T, K>(s: seq<T>, key: T -> K, f: T -> int, ks: seq<K>)
    requires Distinct(ks)
    ensures Sum(ks, Group(s, key, f)) == Sum(s, Within(key, f, ks))
  {
    if s == [] {
      SumZero(ks, Group(s, key, f));
    } else {
      var n := |s| - 1;
      var x := s[n];
      SumGroups(s[..n], key, f, ks);
      var last: K -> int := k => At(key, f, k)(x);
      SumPlus(ks, Group(s[..n], key, f), last, Group(s, key, f));
      SumOne(ks, key(x), last);
    }
  }

  /** Scaling both sides by a positive factor keeps their order. */
  lemma Scale(x: int, y: int, t: int)
    requires t > 0
    ensures x <= y <==> x * t <= y * t
  {
    if x < y {
      assert (y - x) * t > 0;
    } else if y < x {
      assert (x - y) * t > 0;
    }
  }
}
