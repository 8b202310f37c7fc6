/** What src/pplns/pplns.js promises of every allocation. */
module PplnsProperties {
  import opened Wrappers
  import opened Sums
  import opened Sorting
  import opened Pplns

  // ---------- the window ----------

  ghost predicate Reaches(shares: seq<Share>, target: int, k: nat)
    requires k <= |shares|
  {
    Sum(shares[k..], Work()) >= target
  }

  /** The shortest non-empty suffix that reaches the target, or everything when none does. */
  ghost predicate Shortest(shares: seq<Share>, target: int, k: nat) {
    && k < |shares|
    && (k == 0 || Reaches(shares, target, k))
    && forall j | k < j < |shares| :: !Reaches(shares, target, j)
  }

  lemma {:induction false} WalkIsShortest(shares: seq<Share>, target: int, from: nat)
    requires from < |shares| && forall j | from < j < |shares| :: !Reaches(shares, target, j)
    ensures Shortest(shares, target, WindowStart(shares, target, from))
  {
    if from > 0 && !Reaches(shares, target, from) {
      WalkIsShortest(shares, target, from - 1);
    }
  }

  lemma ShortestIsUnique(shares: seq<Share>, target: int, j: nat, k: nat)
    requires Shortest(shares, target, j) && Shortest(shares, target, k)
    ensures j >= k
  {
  }

  /** The window starts at k exactly when the shares from k on are the shortest suffix reaching the target. */
  lemma WindowIsShortest(shares: seq<Share>, target: int, k: nat)
    requires shares != []
    ensures WindowStart(shares, target, |shares| - 1) == k <==> Shortest(shares, target, k)
  {
    var start := WindowStart(shares, target, |shares| - 1);
    WalkIsShortest(shares, target, |shares| - 1);
    if Shortest(shares, target, k) {
      ShortestIsUnique(shares, target, start, k);
      ShortestIsUnique(shares, target, k, start);
    }
  }

  // ---------- quotients ----------

  lemma Euclid(c: nat, b: int)
    requires b > 0
    ensures c / b >= 0 && (c / b) * b <= c < (c / b) * b + b
  {
  }

  lemma QuotFloor(a: int, b: int)
    requires b > 0
    ensures a >= 0 ==> Quot(a, b) * b <= a < (Quot(a, b) + 1) * b && Quot(a, b) >= 0 && 0 <= Rem(a, b) < b
    ensures a < 0 ==> -b < Rem(a, b) <= 0
  {
    if a >= 0 {
      Euclid(a, b);
      Distribute(a / b, -1, b);
    } else {
      Euclid(-a, b);
      Negate(-a / b, b);
    }
  }

  lemma Negate(q: int, b: int)
    ensures -q * b == -(q * b)
  {
  }

  lemma WorkIsNonNegative(window: seq<Share>, m: string)
    ensures WorkOf(window)(m) >= 0 && Total(window) >= 0
  {
    SumNonNegative(window, At(MinerOf(), Work(), m));
    SumNonNegative(window, Work());
  }

  lemma ProductSign(pot: int, w: int)
    requires w >= 0
    ensures pot >= 0 ==> pot * w >= 0
    ensures pot <= 0 ==> pot * w <= 0
  {
  }

  lemma RemainderRange(pot: int, window: seq<Share>, m: string)
    requires Total(window) != 0
    ensures pot >= 0 ==> 0 <= RemainderOf(pot, window)(m) <= Total(window) - 1
    ensures pot <= 0 ==> RemainderOf(pot, window)(m) <= 0
  {
    WorkIsNonNegative(window, m);
    ProductSign(pot, WorkOf(window)(m));
    QuotFloor(pot * WorkOf(window)(m), Total(window));
  }

  /** What is left after the floors, times the total work, is the sum of the remainders. */
  lemma LeftoverIsRemainders(pot: int, window: seq<Share>)
    requires Total(window) != 0
    ensures Leftover(pot, window) * Total(window) == Sum(Miners(window), RemainderOf(pot, window))
  {
    hide Quot, Miners, Group, Total, Sum;
    var ms, t := Miners(window), Total(window);
    var exact: string -> int := m => pot * WorkOf(window)(m);
    var floors: string -> int := m => t * FloorOf(pot, window)(m);
    GroupsAddUp(window);
    SumScale(ms, WorkOf(window), pot, exact);
    SumScale(ms, FloorOf(pot, window), t, floors);
    SumPlus(ms, floors, RemainderOf(pot, window), exact);
    Distribute(pot, Sum(ms, FloorOf(pot, window)), t);
  }

  lemma Distribute(a: int, b: int, t: int)
    ensures (a - b) * t == a * t - t * b == a * t - b * t
  {
  }

  lemma BelowMultiple(left: int, n: int, t: int)
    requires left * t <= n * (t - 1) && n >= 1 && t >= 1
    ensures left < n
  {
    Scale(n, left, t);
  }

  lemma NonNegativeQuotient(left: int, t: int)
    requires t >= 1
    ensures left * t >= 0 <==> left >= 0
    ensures left * t == 0 <==> left == 0
  {
  }

  lemma SomeMiner(window: seq<Share>)
    requires Total(window) != 0
    ensures |Miners(window)| >= 1
  {
    if window != [] {
      MinersDistinct(window);
      assert window[0].miner in Miners(window);
    }
  }

  /** With a non-negative pot, fewer units are left after the floors than there are miners. */
  lemma FewLeft(pot: int, window: seq<Share>)
    requires Total(window) != 0 && pot >= 0
    ensures 0 <= Leftover(pot, window) < |Miners(window)|
    ensures Extras(pot, window) == Leftover(pot, window)
  {
    var ms, t := Miners(window), Total(window);
    WorkIsNonNegative(window, "");
    SomeMiner(window);
    LeftoverIsRemainders(pot, window);
    forall i | 0 <= i < |ms| ensures 0 <= RemainderOf(pot, window)(ms[i]) <= t - 1 {
      RemainderRange(pot, window, ms[i]);
    }
    SumBelow(ms, RemainderOf(pot, window), t - 1);
    SumNonNegative(ms, RemainderOf(pot, window));
    BelowMultiple(Leftover(pot, window), |ms|, t);
    NonNegativeQuotient(Leftover(pot, window), t);
  }

  ghost predicate Divides(pot: int, window: seq<Share>)
    requires Total(window) != 0
  {
    forall m | m in Miners(window) :: RemainderOf(pot, window)(m) == 0
  }

  lemma {:induction false} NegativeSum(ms: seq<string>, f: string -> int)
    requires forall i | 0 <= i < |ms| :: f(ms[i]) <= 0
    ensures Sum(ms, f) <= 0
    ensures Sum(ms, f) == 0 <==> forall i | 0 <= i < |ms| :: f(ms[i]) == 0
  {
    if ms != [] {
      NegativeSum(ms[..|ms| - 1], f);
    }
  }

  /** Nothing is left over after rounding exactly when the pot is not negative, or every share of it is whole. */
  lemma RoundingIsZeroIff(pot: int, window: seq<Share>)
    requires Total(window) != 0
    ensures Leftover(pot, window) - Extras(pot, window) == 0 <==> pot >= 0 || Divides(pot, window)
    ensures Leftover(pot, window) - Extras(pot, window) <= 0
  {
    if pot >= 0 {
      FewLeft(pot, window);
    } else {
      var ms, t := Miners(window), Total(window);
      WorkIsNonNegative(window, "");
      LeftoverIsRemainders(pot, window);
      forall i | 0 <= i < |ms| ensures RemainderOf(pot, window)(ms[i]) <= 0 {
        RemainderRange(pot, window, ms[i]);
      }
      NegativeSum(ms, RemainderOf(pot, window));
      NonNegativeQuotient(Leftover(pot, window), t);
      NonNegativeQuotient(-Leftover(pot, window), t);
    }
  }

  // ---------- credits ----------

  /** A miner gets one unit beyond the floor exactly when fewer miners than there are units stand ahead of it. */
  lemma CreditByRank(pot: int, window: seq<Share>, m: string)
    requires Total(window) != 0 && m in Miners(window)
    ensures CreditOf(pot, window)(m) == FloorOf(pot, window)(m) +
      (if Rank(Miners(window), Ahead(pot, window), m) < Extras(pot, window) then 1 else 0)
  {
    var ranked := Ranked(pot, window);
    RankedMembers(pot, window);
    MinersDistinct(window);
    AheadIsTotal(pot, window);
    var k :| 0 <= k < |ranked| && ranked[k] == m;
    RankIsPlace(Miners(window), Ahead(pot, window), k);
    hide Rank, Ahead, Miners, FloorOf;
    AmongPrefix(ranked, k, Extras(pot, window));
  }

  lemma AmongPrefix(s: seq<string>, k: nat, n: nat)
    requires Distinct(s) && k < |s| && n <= |s|
    ensures Among(s[..n])(s[k]) == if k < n then 1 else 0
  {
    if k < n {
      assert s[..n][k] == s[k];
    }
  }

  /** The exact share, rounded down or up. */
  lemma CreditIsQuota(pot: int, window: seq<Share>, m: string)
    requires Total(window) != 0 && m in Miners(window) && pot >= 0
    ensures var f := FloorOf(pot, window)(m);
      && f >= 0 && f * Total(window) <= pot * WorkOf(window)(m) < (f + 1) * Total(window)
      && f <= CreditOf(pot, window)(m) <= f + 1
  {
    WorkIsNonNegative(window, m);
    ProductSign(pot, WorkOf(window)(m));
    QuotFloor(pot * WorkOf(window)(m), Total(window));
    CreditByRank(pot, window, m);
  }

  lemma {:induction false} RankMonotone(ms: seq<string>, before: (string, string) -> bool, a: string, b: string)
    requires StrictTotal(before) && before(a, b)
    ensures Rank(ms, before, a) <= Rank(ms, before, b)
  {
    SumAtMost(ms, Precedes(before, a), Precedes(before, b));
  }

  lemma MoreShare(pot: int, v: int, w: int, t: int)
    requires t > 0 && pot > 0 && v > w >= 0
    ensures Quot(pot * v, t) > Quot(pot * w, t) || (Quot(pot * v, t) == Quot(pot * w, t) && Rem(pot * v, t) > Rem(pot * w, t))
  {
    ProductSign(pot, v);
    ProductSign(pot, w);
    QuotFloor(pot * v, t);
    QuotFloor(pot * w, t);
    LessProduct(pot, w, v);
    QuotOrder(pot * w, pot * v, t);
  }

  lemma LessProduct(pot: int, w: int, v: int)
    requires pot > 0 && v > w
    ensures pot * v > pot * w
  {
  }

  lemma QuotOrder(a: int, b: int, t: int)
    requires t > 0 && 0 <= a < b
    ensures Quot(a, t) < Quot(b, t) || (Quot(a, t) == Quot(b, t) && Rem(a, t) < Rem(b, t))
  {
    QuotFloor(a, t);
    QuotFloor(b, t);
    Scale(Quot(b, t) + 1, Quot(a, t), t);
  }

  lemma AheadEarlier(pot: int, window: seq<Share>, a: string, b: string)
    requires Total(window) != 0 && RemainderOf(pot, window)(a) > RemainderOf(pot, window)(b)
    ensures Rank(Miners(window), Ahead(pot, window), a) <= Rank(Miners(window), Ahead(pot, window), b)
  {
    AheadIsTotal(pot, window);
    assert Ahead(pot, window)(a, b);
    hide *;
    RankMonotone(Miners(window), Ahead(pot, window), a, b);
  }

  lemma MoreWorkMoreShare(pot: int, window: seq<Share>, a: string, b: string)
    requires Total(window) != 0 && pot > 0 && WorkOf(window)(a) > WorkOf(window)(b)
    ensures FloorOf(pot, window)(a) >= FloorOf(pot, window)(b)
    ensures FloorOf(pot, window)(a) == FloorOf(pot, window)(b) ==> RemainderOf(pot, window)(a) > RemainderOf(pot, window)(b)
  {
    WorkIsNonNegative(window, b);
    hide Quot, Group, Total;
    MoreShare(pot, WorkOf(window)(a), WorkOf(window)(b), Total(window));
  }

  /** A miner with more work never gets less. */
  lemma MoreWorkNeverLess(pot: int, window: seq<Share>, a: string, b: string)
    requires Total(window) != 0 && pot >= 0 && a in Miners(window) && b in Miners(window)
    requires WorkOf(window)(a) > WorkOf(window)(b)
    ensures CreditOf(pot, window)(a) >= CreditOf(pot, window)(b)
  {
    CreditByRank(pot, window, a);
    CreditByRank(pot, window, b);
    if pot > 0 {
      MoreWorkMoreShare(pot, window, a, b);
      hide *;
      if RemainderOf(pot, window)(a) > RemainderOf(pot, window)(b) {
        AheadEarlier(pot, window, a, b);
      }
    } else {
      FewLeft(pot, window);
      NothingToShare(window);
      hide *;
    }
  }

  lemma NothingToShare(window: seq<Share>)
    requires Total(window) != 0
    ensures Leftover(0, window) == 0 && forall m :: FloorOf(0, window)(m) == 0
  {
    forall m ensures FloorOf(0, window)(m) == 0 {
      assert 0 * WorkOf(window)(m) == 0;
    }
    SumZero(Miners(window), FloorOf(0, window));
  }

  // ---------- the whole call ----------

  /** The books of one allocation balance, for every input for which it is computed. */
  lemma Conserves(input: Input)
    requires Allocate(input).Ok?
    ensures var a := Allocate(input).value;
      Sum(a.lines, Credit()) + a.fee + a.rounding == input.reward
  {
    hide Sum, Quot, Window, Miners, Lines, Leftover, Extras;
    CreditsAddUp(input.reward - Fee(input), Window(input));
  }

  /** It is computed unless there is no share, the window's denominator is zero, or the window holds no work. */
  lemma ComputedIff(input: Input)
    ensures Allocate(input).Ok? <==> input.shares != [] && input.windowDen != 0 && Total(Window(input)) > 0
  {
    if input.shares != [] && input.windowDen != 0 {
      WorkIsNonNegative(Window(input), "");
    }
  }

  lemma FeeRange(input: Input)
    requires input.reward >= 0 && 0 <= input.feeBps <= BASIS_POINTS
    ensures 0 <= Fee(input) <= input.reward
  {
    ProductSign(input.reward, input.feeBps);
    QuotFloor(input.reward * input.feeBps, BASIS_POINTS);
    FeeBound(input.reward, input.feeBps, Fee(input));
  }

  lemma FeeBound(reward: int, feeBps: int, fee: int)
    requires reward >= 0 && feeBps <= BASIS_POINTS && fee * BASIS_POINTS <= reward * feeBps
    ensures fee <= reward
  {
    Scale2(reward, feeBps, BASIS_POINTS);
  }

  lemma Scale2(reward: int, x: int, y: int)
    requires reward >= 0 && x <= y
    ensures reward * x <= reward * y
  {
  }

  ghost predicate NonNegativeLines(lines: seq<Line>) {
    forall l | l in lines :: l.credit >= 0
  }

  ghost predicate OneLineEach(lines: seq<Line>) {
    forall i, j | 0 <= i < j < |lines| :: lines[i].miner != lines[j].miner
  }

  lemma CreditsProper(pot: int, window: seq<Share>)
    requires Total(window) != 0 && pot >= 0
    ensures var lines := Lines(Miners(window), WorkOf(window), CreditOf(pot, window));
      NonNegativeLines(lines) && OneLineEach(lines)
  {
    MinersDistinct(window);
    var ms := Miners(window);
    hide *;
    forall m | m in ms ensures CreditOf(pot, window)(m) >= 0 {
      CreditIsQuota(pot, window, m);
    }
    LinesProper(ms, WorkOf(window), CreditOf(pot, window));
  }

  lemma LinesProper(ms: seq<string>, work: string -> int, credit: string -> int)
    requires Distinct(ms) && forall m | m in ms :: credit(m) >= 0
    ensures NonNegativeLines(Lines(ms, work, credit)) && OneLineEach(Lines(ms, work, credit))
  {
  }

  /** Under a fee of at most everything nothing is rounded away and nobody is charged. */
  lemma ProperAllocation(input: Input)
    requires Allocate(input).Ok? && input.reward >= 0 && 0 <= input.feeBps <= BASIS_POINTS
    ensures var a := Allocate(input).value;
      && a.rounding == 0 && 0 <= a.fee <= input.reward && NonNegativeLines(a.lines) && OneLineEach(a.lines)
      && Sum(a.lines, Credit()) + a.fee == input.reward
  {
    hide Fee, Window, Lines, Sum, Total, Leftover, Extras, CreditOf, Miners, NonNegativeLines, OneLineEach;
    FeeRange(input);
    Conserves(input);
    var pot, window := input.reward - Fee(input), Window(input);
    RoundingIsZeroIff(pot, window);
    CreditsProper(pot, window);
  }

  lemma TwoShares(s: Share, t: Share, f: Share -> int)
    ensures Sum([s, t], f) == f(s) + f(t)
  {
    SumSnoc([], s, f);
    SumSnoc([s], t, f);
    assert [s] + [t] == [s, t] && [] + [s] == [s];
  }

  lemma TwoMiners(f: string -> int)
    ensures Sum(["a", "b"], f) == f("a") + f("b")
  {
    SumSnoc([], "a", f);
    SumSnoc(["a"], "b", f);
    assert ["a"] + ["b"] == ["a", "b"] && [] + ["a"] == ["a"];
  }

  function TwoEqual(): seq<Share> {
    [Share("s", "a", 1), Share("t", "b", 1)]
  }

  lemma TwoEqualMiners()
    ensures Miners(TwoEqual()) == ["a", "b"] && Total(TwoEqual()) == 2
    ensures WorkOf(TwoEqual())("a") == 1 && WorkOf(TwoEqual())("b") == 1
  {
    var w := TwoEqual();
    assert w[..1] == [w[0]] && w[..1][..0] == [];
    assert Keys(w[..1]) == ["a"] && Keys(w) == ["a", "b"];
    assert ["a", "b"][..1] == ["a"] && ["a"][..0] == [];
    assert Sort(["a"], Less) == ["a"];
    TwoShares(w[0], w[1], Work());
    TwoShares(w[0], w[1], At(MinerOf(), Work(), "a"));
    TwoShares(w[0], w[1], At(MinerOf(), Work(), "b"));
  }

  /** With a fee above 100 % the fee row can exceed the reward; the correction is a negative rounding, which allocator.js never posts. */
  lemma OverchargedFee()
    ensures var input := Input(1, 20000, 2, 1, 1, TwoEqual());
      && Allocate(input).Ok? && Allocate(input).value.fee == 2 && Allocate(input).value.rounding == -1
      && Sum(Allocate(input).value.lines, Credit()) == 0
  {
    var input := Input(1, 20000, 2, 1, 1, TwoEqual());
    TwoEqualMiners();
    WholeWindow();
    assert Fee(input) == 2;
    NothingToDivide();
    hide Window, TwoEqual, Leftover, Extras, Sum, Total, Lines, Miners, WorkOf, CreditOf;
    Conserves(input);
  }

  lemma NothingToDivide()
    ensures Total(TwoEqual()) != 0 && Leftover(-1, TwoEqual()) == -1 && Extras(-1, TwoEqual()) == 0
  {
    TwoEqualMiners();
    TwoMiners(FloorOf(-1, TwoEqual()));
    hide TwoEqual, Miners, Total, WorkOf, Sum;
    assert FloorOf(-1, TwoEqual())("a") == 0 && FloorOf(-1, TwoEqual())("b") == 0;
  }

  lemma WholeWindow()
    ensures Window(Input(1, 20000, 2, 1, 1, TwoEqual())) == TwoEqual()
  {
    var w := TwoEqual();
    assert w[1..] == [w[1]] && w[0..] == w && [] + [w[1]] == [w[1]];
    SumSnoc([], w[1], Work());
    assert Sum(w[1..], Work()) == 1;
  }
}
