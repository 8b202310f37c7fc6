/** JavaScript's Array.prototype.sort, which is stable, and the default order on strings. */
module Sorting {
  import opened Sums

  /** Code unit by code unit. */
  predicate Less(a: string, b: string) {
    b != "" && (a == "" || a[0] < b[0] || (a[0] == b[0] && Less(a[1..], b[1..])))
  }

  function Insert<T>(s: seq<T>, x: T, before: (T, T) -> bool): seq<T> {
    if s == [] then [x]
    else if before(x, s[0]) then [x] + s
    else [s[0]] + Insert(s[1..], x, before)
  }

  /** Elements that compare equal keep their order. */
  function Sort<T>(s: seq<T>, before: (T, T) -> bool): seq<T> {
    if s == [] then [] else Insert(Sort(s[..|s| - 1], before), s[|s| - 1], before)
  }

  ghost predicate StrictTotal<T(!new)>(before: (T, T) -> bool) {
    && (forall a :: !before(a, a))
    && (forall a, b, c :: before(a, b) && before(b, c) ==> before(a, c))
    && (forall a, b :: a == b || before(a, b) || before(b, a))
  }

  /** An order that decides between any two different elements of a list. */
  ghost predicate TotalOn<T(!new)>(s: seq<T>, before: (T, T) -> bool) {
    && (forall a :: !before(a, a))
    && (forall a, b, c :: before(a, b) && before(b, c) ==> before(a, c))
    && (forall a, b | a in s && b in s :: a == b || before(a, b) || before(b, a))
  }

  ghost predicate Ordered<T>(s: seq<T>, before: (T, T) -> bool) {
    forall i, j | 0 <= i < j < |s| :: before(s[i], s[j])
  }

  // ---------- the default order is a strict total order ----------

  lemma {:induction false} LessIrreflexive(a: string)
    ensures !Less(a, a)
  {
    if a != "" {
      LessIrreflexive(a[1..]);
    }
  }

  lemma {:induction false} LessTransitive(a: string, b: string, c: string)
    requires Less(a, b) && Less(b, c)
    ensures Less(a, c)
  {
    if a != "" && a[0] == b[0] == c[0] {
      LessTransitive(a[1..], b[1..], c[1..]);
    }
  }

  lemma {:induction false} LessTotal(a: string, b: string)
    ensures a == b || Less(a, b) || Less(b, a)
  {
    if a != "" && b != "" && a[0] == b[0] {
      LessTotal(a[1..], b[1..]);
      assert a == [a[0]] + a[1..] && b == [b[0]] + b[1..];
    }
  }

  /** A proper prefix comes first; otherwise the first difference decides. */
  ghost predicate TextBefore(a: string, b: string) {
    exists k :: DiffersAt(a, b, k)
  }

  ghost predicate DiffersAt(a: string, b: string, k: nat) {
    k <= |a| && k < |b| && a[..k] == b[..k] && (k == |a| || a[k] < b[k])
  }

  /** The default order is the order of code units. */
  lemma {:induction false} LessIff(a: string, b: string)
    ensures Less(a, b) <==> TextBefore(a, b)
  {
    if b == "" {
    } else if a == "" || a[0] < b[0] {
      assert DiffersAt(a, b, 0);
    } else if a[0] == b[0] {
      LessIff(a[1..], b[1..]);
      if Less(a, b) {
        var k: nat :| DiffersAt(a[1..], b[1..], k);
        assert a[..k + 1] == [a[0]] + a[1..][..k] && b[..k + 1] == [b[0]] + b[1..][..k];
        assert DiffersAt(a, b, k + 1);
      }
      if TextBefore(a, b) {
        var k: nat :| DiffersAt(a, b, k);
        assert k > 0 && a[1..][..k - 1] == a[..k][1..] && b[1..][..k - 1] == b[..k][1..];
        assert DiffersAt(a[1..], b[1..], k - 1);
      }
    } else {
      forall k: nat ensures !DiffersAt(a, b, k) {
        if 0 < k <= |a| && k <= |b| {
          assert a[..k][0] == a[0] && b[..k][0] == b[0];
        }
      }
    }
  }

  lemma LessIsTotal()
    ensures StrictTotal(Less)
  {
    forall a ensures !Less(a, a) {
      LessIrreflexive(a);
    }
    forall a, b, c | Less(a, b) && Less(b, c) ensures Less(a, c) {
      LessTransitive(a, b, c);
    }
    forall a, b ensures a == b || Less(a, b) || Less(b, a) {
      LessTotal(a, b);
    }
  }

  // ---------- sorting ----------

  lemma {:induction false} InsertSum<T>(s: seq<T>, x: T, before: (T, T) -> bool, f: T -> int)
    ensures Sum(Insert(s, x, before), f) == Sum(s, f) + f(x)
    ensures |Insert(s, x, before)| == |s| + 1
  {
    if s == [] {
      SumSnoc([], x, f);
    } else {
      SumAppend([s[0]], s[1..], f);
      assert s == [s[0]] + s[1..];
      if before(x, s[0]) {
        SumAppend([x], s, f);
        SumSnoc([], x, f);
      } else {
        InsertSum(s[1..], x, before, f);
        SumAppend([s[0]], Insert(s[1..], x, before), f);
      }
    }
  }

  /** A sorted list is a rearrangement: every sum over it, every count included, is unchanged. */
  lemma {:induction false} SortSum<T>(s: seq<T>, before: (T, T) -> bool, f: T -> int)
    ensures Sum(Sort(s, before), f) == Sum(s, f)
    ensures |Sort(s, before)| == |s|
  {
    if s != [] {
      SortSum(s[..|s| - 1], before, f);
      InsertSum(Sort(s[..|s| - 1], before), s[|s| - 1], before, f);
    }
  }

  lemma {:induction false} InsertMembers<T>(s: seq<T>, x: T, before: (T, T) -> bool)
    ensures forall y :: y in Insert(s, x, before) <==> y in s || y == x
  {
    if s != [] && !before(x, s[0]) {
      InsertMembers(s[1..], x, before);
      assert s == [s[0]] + s[1..];
    }
  }

  lemma {:induction false} SortMembers<T>(s: seq<T>, before: (T, T) -> bool)
    ensures forall y :: y in Sort(s, before) <==> y in s
  {
    if s != [] {
      SortMembers(s[..|s| - 1], before);
      InsertMembers(Sort(s[..|s| - 1], before), s[|s| - 1], before);
      assert s == s[..|s| - 1] + [s[|s| - 1]];
    }
  }

  lemma {:induction false} InsertOrdered<T(!new)>(s: seq<T>, x: T, before: (T, T) -> bool)
    requires TotalOn(s + [x], before) && Ordered(s, before) && x !in s
    ensures Ordered(Insert(s, x, before), before)
  {
    if s != [] {
      assert x in s + [x] && s[0] in s + [x];
      if before(x, s[0]) {
        assert Ordered([x] + s, before);
      } else {
        assert forall y | y in s[1..] + [x] :: y in s + [x];
        InsertOrdered(s[1..], x, before);
        InsertMembers(s[1..], x, before);
        var rest := Insert(s[1..], x, before);
        forall j | 0 <= j < |rest| ensures before(s[0], rest[j]) {
          assert rest[j] in rest;
        }
      }
    }
  }

  /** Distinct elements come out strictly ascending, which leaves no choice of algorithm. */
  lemma {:induction false} SortOrdered<T(!new)>(s: seq<T>, before: (T, T) -> bool)
    requires TotalOn(s, before) && Distinct(s)
    ensures Ordered(Sort(s, before), before) && Distinct(Sort(s, before))
  {
    if s != [] {
      var n := |s| - 1;
      assert s == s[..n] + [s[n]];
      SortOrdered(s[..n], before);
      SortMembers(s[..n], before);
      assert forall y | y in Sort(s[..n], before) + [s[n]] :: y in s;
      InsertOrdered(Sort(s[..n], before), s[n], before);
    }
  }

  lemma HasFirst<T>(s: seq<T>)
    ensures s == [] || s[0] in s
  {
  }

  lemma FirstBefore<T>(s: seq<T>, before: (T, T) -> bool, i: nat)
    requires Ordered(s, before) && i < |s|
    ensures i == 0 || before(s[0], s[i])
  {
  }

  /** Two ascending lists of the same elements are the same list. */
  lemma {:induction false} OrderedIsUnique<T(!new)>(s: seq<T>, t: seq<T>, before: (T, T) -> bool)
    requires TotalOn(s, before) && Ordered(s, before) && Ordered(t, before)
    requires forall x :: x in s <==> x in t
    ensures s == t
  {
    if s == [] {
      HasFirst(t);
    } else {
      assert s[0] in s && t != [];
      SameFirst(s, t, before);
      assert s == [s[0]] + s[1..] && t == [t[0]] + t[1..];
      NotFirstAgain(s, before);
      NotFirstAgain(t, before);
      forall x ensures x in s[1..] <==> x in t[1..] {
        assert x in s <==> x == s[0] || x in s[1..];
        assert x in t <==> x == t[0] || x in t[1..];
      }
      OrderedIsUnique(s[1..], t[1..], before);
    }
  }

  lemma SameFirst<T(!new)>(s: seq<T>, t: seq<T>, before: (T, T) -> bool)
    requires TotalOn(s, before) && Ordered(s, before) && Ordered(t, before) && s != [] && t != []
    requires forall x :: x in s <==> x in t
    ensures s[0] == t[0]
  {
    assert s[0] in s && t[0] in t;
    var i :| 0 <= i < |t| && t[i] == s[0];
    var j :| 0 <= j < |s| && s[j] == t[0];
    FirstBefore(t, before, i);
    FirstBefore(s, before, j);
  }

  lemma NotFirstAgain<T(!new)>(s: seq<T>, before: (T, T) -> bool)
    requires Ordered(s, before) && s != [] && forall a :: !before(a, a)
    ensures s[0] !in s[1..]
  {
    forall i | 0 <= i < |s[1..]| ensures s[1..][i] != s[0] {
      assert before(s[0], s[i + 1]);
    }
  }

  /** However the elements are listed, sorting gives the same list. */
  lemma SortForgetsOrder<T(!new)>(s: seq<T>, t: seq<T>, before: (T, T) -> bool)
    requires TotalOn(s, before) && Distinct(s) && Distinct(t) && forall x :: x in s <==> x in t
    ensures Sort(s, before) == Sort(t, before)
  {
    SortOrdered(s, before);
    SortOrdered(t, before);
    SortMembers(s, before);
    SortMembers(t, before);
    OrderedIsUnique(Sort(s, before), Sort(t, before), before);
  }

  function Precedes<T>(before: (T, T) -> bool, x: T): T -> int {
    y => if before(y, x) then 1 else 0
  }

  /** How many elements come before x, in whatever order the list is given. */
  function Rank<T>(s: seq<T>, before: (T, T) -> bool, x: T): int {
    Sum(s, Precedes(before, x))
  }

  lemma {:induction false} RankInPrefix<T(!new)>(s: seq<T>, before: (T, T) -> bool, k: nat, n: nat)
    requires TotalOn(s, before) && Ordered(s, before) && k < |s| && n <= |s|
    ensures Rank(s[..n], before, s[k]) == if n <= k then n else k
  {
    if n > 0 {
      RankInPrefix(s, before, k, n - 1);
      assert s[..n][..n - 1] == s[..n - 1];
      if n - 1 > k {
        assert before(s[k], s[n - 1]);
      }
    }
  }

  /** The place an element gets is the number of elements that come before it. */
  lemma RankIsPlace<T(!new)>(s: seq<T>, before: (T, T) -> bool, k: nat)
    requires TotalOn(s, before) && Distinct(s) && k < |Sort(s, before)|
    ensures Rank(s, before, Sort(s, before)[k]) == k
  {
    var sorted := Sort(s, before);
    SortOrdered(s, before);
    SortSum(s, before, Precedes(before, sorted[k]));
    SortMembers(s, before);
    RankInPrefix(sorted, before, k, |sorted|);
    assert sorted[..|sorted|] == sorted;
  }
}
