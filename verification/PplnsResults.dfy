/** What an allocation says, read from the result alone: which shares it counts, and what each miner gets for them. */
module PplnsResults {
  import opened Wrappers
  import opened Sums
  import opened Sorting
  import opened Pplns
  import opened PplnsProperties

  function WorkBy(m: string): Share -> int {
    (s: Share) => if s.miner == m then s.work else 0
  }

  function AllWork(): Share -> int {
    (s: Share) => s.work
  }

  function Credits(): Line -> int {
    (l: Line) => l.credit
  }

  /** The fee is the reward's share in basis points, rounded down. */
  ghost predicate FeeTaken(fee: int, reward: int, feeBps: int) {
    fee * 10000 <= reward * feeBps < (fee + 1) * 10000
  }

  /** The whole window target: the network's work, scaled by the window's fraction and rounded down. */
  ghost predicate WindowTarget(target: int, input: Input) {
    target * input.windowDen <= input.windowNum * input.networkWork < (target + 1) * input.windowDen
  }

  /** From k on, the work reaches the target, or everything is counted; from no later share on does it. */
  ghost predicate CountedFrom(shares: seq<Share>, target: int, k: nat) {
    && k < |shares| && (k == 0 || Sum(shares[k..], AllWork()) >= target)
    && forall j | k < j < |shares| :: Sum(shares[j..], AllWork()) < target
  }

  /** One line for each miner of the window, in the order of their keys, over all of that miner's work in it. */
  ghost predicate LinesFor(lines: seq<Line>, window: seq<Share>) {
    && (forall i, j | 0 <= i < j < |lines| :: TextBefore(lines[i].miner, lines[j].miner))
    && (forall s | s in window :: exists l | l in lines :: l.miner == s.miner)
    && (forall l | l in lines :: (exists s | s in window :: s.miner == l.miner) && l.work == Sum(window, WorkBy(l.miner)))
  }

  /** More than the proportional share: one unit was added to its floor. */
  ghost predicate Extra(l: Line, pot: int, total: int) {
    l.credit * total > pot * l.work
  }

  /** What is left of the line's proportional share after its floor. */
  ghost function Left(l: Line, pot: int, total: int): int {
    pot * l.work - (if Extra(l, pot, total) then l.credit - 1 else l.credit) * total
  }

  /**
   Each line gets the floor of its share of the pot or one more, and a line with the extra unit comes before one
   without: by a larger remainder, or by its key if the remainders are the same.
   */
  ghost predicate LargestRemainders(lines: seq<Line>, pot: int, total: int) {
    && (forall l | l in lines :: 0 <= Left(l, pot, total) < total && l.credit >= 0)
    && (forall l, k | l in lines && k in lines && Extra(l, pot, total) && !Extra(k, pot, total) ::
          Left(l, pot, total) > Left(k, pot, total) || (Left(l, pot, total) == Left(k, pot, total) && TextBefore(l.miner, k.miner)))
  }

  ghost predicate Divides(a: Allocation, window: seq<Share>, reward: int, feeBps: int)
    requires window != []
  {
    && a.windowStart == window[0].id && a.windowEnd == window[|window| - 1].id
    && a.totalWork == Sum(window, AllWork()) && a.totalWork > 0 && a.rounding == 0
    && FeeTaken(a.fee, reward, feeBps) && Sum(a.lines, Credits()) + a.fee == reward
    && LinesFor(a.lines, window) && LargestRemainders(a.lines, reward - a.fee, a.totalWork)
  }

  // ---------- fee and window ----------

  lemma FeeIsFloor(input: Input)
    requires Allocate(input).Ok? && input.reward >= 0 && input.feeBps >= 0
    ensures FeeTaken(Allocate(input).value.fee, input.reward, input.feeBps)
  {
    ProductSign(input.reward, input.feeBps);
    QuotFloor(input.reward * input.feeBps, 10000);
    hide Window, Total, Lines, Leftover, Extras, Quot;
  }

  lemma WindowCounts(input: Input) returns (target: int, k: nat)
    requires Allocate(input).Ok? && input.windowNum >= 0 && input.networkWork >= 0 && input.windowDen > 0
    ensures WindowTarget(target, input) && CountedFrom(input.shares, target, k) && Window(input) == input.shares[k..]
  {
    target := Quot(input.windowNum * input.networkWork, input.windowDen);
    k := WindowStart(input.shares, target, |input.shares| - 1);
    ProductSign(input.windowNum, input.networkWork);
    QuotFloor(input.windowNum * input.networkWork, input.windowDen);
    WindowIsShortest(input.shares, target, k);
    hide Quot;
    ShortestCounts(input.shares, target, k);
  }

  lemma ShortestCounts(shares: seq<Share>, target: int, k: nat)
    requires Shortest(shares, target, k)
    ensures CountedFrom(shares, target, k)
  {
    forall j | k <= j < |shares| ensures Sum(shares[j..], AllWork()) == Sum(shares[j..], Work()) {
      SumSame(shares[j..], AllWork(), shares[j..], Work());
    }
    assert k == 0 || Reaches(shares, target, k);
    forall j | k < j < |shares| ensures Sum(shares[j..], AllWork()) < target {
      assert !Reaches(shares, target, j);
    }
    hide Sum;
  }

  // ---------- lines ----------

  lemma {:induction false} KeysAreMiners(window: seq<Share>, m: string)
    ensures m in Keys(window) <==> exists s | s in window :: s.miner == m
  {
    if window != [] {
      var n := |window| - 1;
      KeysAreMiners(window[..n], m);
      assert window == window[..n] + [window[n]];
    }
  }

  lemma WorkOfIs(window: seq<Share>, m: string)
    ensures WorkOf(window)(m) == Sum(window, WorkBy(m))
  {
    SumSame(window, At(MinerOf(), Work(), m), window, WorkBy(m));
  }

  lemma LinesAreFor(window: seq<Share>, credit: string -> int)
    ensures LinesFor(Lines(Miners(window), WorkOf(window), credit), window)
  {
    var ms, lines := Miners(window), Lines(Miners(window), WorkOf(window), credit);
    MinersDistinct(window);
    SortMembers(Keys(window), Less);
    hide Miners, Keys, WorkOf, Less, TextBefore, Sum;
    forall i, j | 0 <= i < j < |lines| ensures TextBefore(lines[i].miner, lines[j].miner) {
      LessIff(ms[i], ms[j]);
    }
    forall s | s in window ensures exists l | l in lines :: l.miner == s.miner {
      var k :| 0 <= k < |ms| && ms[k] == s.miner;
      assert lines[k] in lines;
    }
    forall l | l in lines ensures (exists s | s in window :: s.miner == l.miner) && l.work == Sum(window, WorkBy(l.miner)) {
      var k :| 0 <= k < |lines| && lines[k] == l;
      assert ms[k] in ms;
      MinersAreKeys(window, ms[k]);
      KeysAreMiners(window, ms[k]);
      WorkOfIs(window, ms[k]);
    }
  }

  lemma MinersAreKeys(window: seq<Share>, m: string)
    ensures m in Miners(window) <==> m in Keys(window)
  {
    SortMembers(Keys(window), Less);
  }

  // ---------- credits ----------

  /** A miner's line against floor, remainder and rank. */
  lemma CreditSplit(pot: int, window: seq<Share>, m: string)
    requires Total(window) != 0 && pot >= 0 && m in Miners(window)
    ensures var l := Line(m, WorkOf(window)(m), CreditOf(pot, window)(m));
      && (Extra(l, pot, Total(window)) <==> Rank(Miners(window), Ahead(pot, window), m) < Extras(pot, window))
      && Left(l, pot, Total(window)) == RemainderOf(pot, window)(m) && 0 <= RemainderOf(pot, window)(m) < Total(window) && l.credit >= 0
  {
    WorkIsNonNegative(window, m);
    CreditByRank(pot, window, m);
    CreditIsQuota(pot, window, m);
    RemainderRange(pot, window, m);
    RemainderIs(pot, window, m);
    hide WorkOf, Total, CreditOf, FloorOf, RemainderOf, Rank, Miners, Ahead, Extras;
    SplitBy(pot, WorkOf(window)(m), Total(window), FloorOf(pot, window)(m), CreditOf(pot, window)(m));
  }

  lemma RemainderIs(pot: int, window: seq<Share>, m: string)
    requires Total(window) != 0
    ensures RemainderOf(pot, window)(m) == pot * WorkOf(window)(m) - FloorOf(pot, window)(m) * Total(window)
  {
    hide WorkOf, Total, Quot;
  }

  lemma SplitBy(pot: int, work: int, total: int, floor: int, credit: int)
    requires total > 0 && floor * total <= pot * work < (floor + 1) * total && credit in {floor, floor + 1}
    ensures credit * total > pot * work <==> credit == floor + 1
  {
  }

  lemma ExtraComesFirst(pot: int, window: seq<Share>, a: string, b: string)
    requires Total(window) != 0 && pot >= 0 && a in Miners(window) && b in Miners(window)
    requires Rank(Miners(window), Ahead(pot, window), a) < Rank(Miners(window), Ahead(pot, window), b)
    ensures RemainderOf(pot, window)(a) > RemainderOf(pot, window)(b) ||
      (RemainderOf(pot, window)(a) == RemainderOf(pot, window)(b) && TextBefore(a, b))
  {
    AheadIsTotal(pot, window);
    LessIff(a, b);
    hide Rank, Miners, TextBefore, Less, RemainderOf;
    if Ahead(pot, window)(b, a) {
      RankMonotone(Miners(window), Ahead(pot, window), b, a);
    }
    assert Ahead(pot, window)(a, b);
  }

  lemma CreditsByRemainder(pot: int, window: seq<Share>)
    requires Total(window) != 0 && pot >= 0
    ensures LargestRemainders(Lines(Miners(window), WorkOf(window), CreditOf(pot, window)), pot, Total(window))
  {
    var ms, total, extras := Miners(window), Total(window), Extras(pot, window);
    var lines := Lines(ms, WorkOf(window), CreditOf(pot, window));
    hide Miners, WorkOf, CreditOf, Total, Extras, Extra, Left, TextBefore, Rank, Ahead, RemainderOf;
    forall l | l in lines ensures 0 <= Left(l, pot, total) < total && l.credit >= 0 {
      var i :| 0 <= i < |lines| && lines[i] == l;
      assert ms[i] in ms;
      CreditSplit(pot, window, ms[i]);
    }
    forall l, k | l in lines && k in lines && Extra(l, pot, total) && !Extra(k, pot, total)
      ensures Left(l, pot, total) > Left(k, pot, total) || (Left(l, pot, total) == Left(k, pot, total) && TextBefore(l.miner, k.miner))
    {
      var i :| 0 <= i < |lines| && lines[i] == l;
      var j :| 0 <= j < |lines| && lines[j] == k;
      assert ms[i] in ms && ms[j] in ms;
      CreditSplit(pot, window, ms[i]);
      CreditSplit(pot, window, ms[j]);
      ExtraComesFirst(pot, window, ms[i], ms[j]);
    }
  }

  ghost predicate Proper(input: Input) {
    input.reward >= 0 && 0 <= input.feeBps <= 10000 && input.windowNum >= 0 && input.networkWork >= 0 && input.windowDen > 0
  }

  ghost predicate DividesFrom(input: Input, a: Allocation, target: int, k: nat) {
    WindowTarget(target, input) && CountedFrom(input.shares, target, k) && Divides(a, input.shares[k..], input.reward, input.feeBps)
  }

  /**
   Every allocation with a fee of at most 100 % and a proper window: the shares counted are the shortest suffix that
   reaches the target, the fee and each miner's part are rounded down, and the units left over go to the largest
   remainders.
   */
  lemma AllocationDivides(input: Input)
    requires Allocate(input).Ok? && Proper(input)
    ensures exists target, k :: DividesFrom(input, Allocate(input).value, target, k)
  {
    var target, k := WindowCounts(input);
    WindowDivided(input);
    hide Allocate, Window, Divides, WindowTarget, CountedFrom;
    assert DividesFrom(input, Allocate(input).value, target, k);
  }

  lemma WindowDivided(input: Input)
    requires Allocate(input).Ok? && Proper(input)
    ensures Divides(Allocate(input).value, Window(input), input.reward, input.feeBps)
  {
    hide *;
    WindowExists(input);
    ProperMeans(input);
    var window, pot, a := Window(input), input.reward - Fee(input), Allocate(input).value;
    FeeIsFloor(input);
    ProperAllocation(input);
    AllocateIs(input);
    FeeRange(input);
    WorkIsNonNegative(window, "");
    TotalIs(window);
    CreditSum(a.lines);
    LinesAreFor(window, CreditOf(pot, window));
    CreditsByRemainder(pot, window);
    NowDivides(a, window, input.reward, input.feeBps);
  }

  lemma ProperMeans(input: Input)
    requires Proper(input)
    ensures input.reward >= 0 && 0 <= input.feeBps <= BASIS_POINTS
  {
  }

  lemma WindowExists(input: Input)
    requires Allocate(input).Ok?
    ensures input.shares != [] && input.windowDen != 0
  {
    hide Window, Total;
  }

  lemma NowDivides(a: Allocation, window: seq<Share>, reward: int, feeBps: int)
    requires window != [] && a.windowStart == window[0].id && a.windowEnd == window[|window| - 1].id
    requires a.totalWork == Sum(window, AllWork()) && a.totalWork > 0 && a.rounding == 0
    requires FeeTaken(a.fee, reward, feeBps) && Sum(a.lines, Credits()) + a.fee == reward
    requires LinesFor(a.lines, window) && LargestRemainders(a.lines, reward - a.fee, a.totalWork)
    ensures Divides(a, window, reward, feeBps)
  {
  }

  lemma TotalIs(window: seq<Share>)
    ensures Total(window) == Sum(window, AllWork())
  {
    SumSame(window, AllWork(), window, Work());
  }

  lemma CreditSum(lines: seq<Line>)
    ensures Sum(lines, Credits()) == Sum(lines, Credit())
  {
    SumSame(lines, Credits(), lines, Credit());
  }

  lemma AllocateIs(input: Input)
    requires Allocate(input).Ok?
    ensures var a, window, pot := Allocate(input).value, Window(input), input.reward - Fee(input);
      && Total(window) != 0 && a.lines == Lines(Miners(window), WorkOf(window), CreditOf(pot, window)) && a.totalWork == Total(window)
      && a.fee == Fee(input) && a.windowStart == window[0].id && a.windowEnd == window[|window| - 1].id
  {
    hide Window, Miners, CreditOf, WorkOf, Lines, Total, Fee, Leftover, Extras;
  }
}
