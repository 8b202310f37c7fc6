/** The allocation engine of src/pplns/pplns.js, over unbounded integers as in the source. */
module Pplns {
  import opened Wrappers
  import opened Sums
  import opened Sorting

  datatype Share = Share(id: string, miner: string, work: nat)

  datatype Input = Input(reward: int, feeBps: int, windowNum: int, windowDen: int, networkWork: int, shares: seq<Share>)

  datatype Line = Line(miner: string, work: int, credit: int)

  datatype Allocation = Allocation(lines: seq<Line>, totalWork: int, fee: int, rounding: int, windowStart: string, windowEnd: string)

  /** The conservation error is missing because AllocateBlock proves that it is never thrown. */
  datatype Failure = NoShares | DivisionByZero

  const BASIS_POINTS: int := 10000

  /** BigInt division: the quotient is cut off towards zero. */
  function Quot(a: int, b: int): int
    requires b != 0
  {
    if a >= 0 then a / b else -(-a / b)
  }

  /** BigInt remainder: it has the sign of the dividend. */
  function Rem(a: int, b: int): int
    requires b != 0
  {
    a - Quot(a, b) * b
  }

  // ---------- the window ----------

  function Work(): Share -> int {
    (s: Share) => s.work
  }

  function MinerOf(): Share -> string {
    (s: Share) => s.miner
  }

  /** The backward walk from index `from`, which the shares after it did not end. */
  function WindowStart(shares: seq<Share>, target: int, from: nat): (start: nat)
    requires from < |shares|
    ensures start <= from
  {
    if from == 0 || Sum(shares[from..], Work()) >= target then from else WindowStart(shares, target, from - 1)
  }

  // ---------- shares of the pot ----------

  /** The keys of a Map in insertion order. */
  function Keys(window: seq<Share>): seq<string> {
    if window == [] then []
    else
      var before := Keys(window[..|window| - 1]);
      var m := window[|window| - 1].miner;
      if m in before then before else before + [m]
  }

  function Miners(window: seq<Share>): seq<string> {
    Sort(Keys(window), Less)
  }

  function WorkOf(window: seq<Share>): string -> int {
    Group(window, MinerOf(), Work())
  }

  function Total(window: seq<Share>): int {
    Sum(window, Work())
  }

  function FloorOf(pot: int, window: seq<Share>): string -> int
    requires Total(window) != 0
  {
    m => Quot(pot * WorkOf(window)(m), Total(window))
  }

  function RemainderOf(pot: int, window: seq<Share>): string -> int
    requires Total(window) != 0
  {
    m => Rem(pot * WorkOf(window)(m), Total(window))
  }

  /** Larger remainder first, then smaller key. */
  function Ahead(pot: int, window: seq<Share>): (string, string) -> bool
    requires Total(window) != 0
  {
    (a, b) =>
      RemainderOf(pot, window)(a) > RemainderOf(pot, window)(b) ||
      (RemainderOf(pot, window)(a) == RemainderOf(pot, window)(b) && Less(a, b))
  }

  function Leftover(pot: int, window: seq<Share>): int
    requires Total(window) != 0
  {
    pot - Sum(Miners(window), FloorOf(pot, window))
  }

  /** How many units the largest-remainder loop hands out among so many miners. */
  function Handed(leftover: int, miners: nat): (n: nat)
    ensures n <= miners
  {
    if leftover <= 0 then 0 else if leftover < miners then leftover else miners
  }

  function Extras(pot: int, window: seq<Share>): (n: nat)
    requires Total(window) != 0
    ensures n <= |Miners(window)|
  {
    Handed(Leftover(pot, window), |Miners(window)|)
  }

  function Ranked(pot: int, window: seq<Share>): seq<string>
    requires Total(window) != 0
  {
    Sort(Miners(window), Ahead(pot, window))
  }

  function Among(ms: seq<string>): string -> int {
    m => if m in ms then 1 else 0
  }

  function CreditOf(pot: int, window: seq<Share>): string -> int
    requires Total(window) != 0
  {
    SortSum(Miners(window), Ahead(pot, window), m => 0);
    m => FloorOf(pot, window)(m) + Among(Ranked(pot, window)[..Extras(pot, window)])(m)
  }

  function Credit(): Line -> int {
    (l: Line) => l.credit
  }

  function Fee(input: Input): int {
    Quot(input.reward * input.feeBps, BASIS_POINTS)
  }

  function Window(input: Input): (w: seq<Share>)
    requires input.shares != [] && input.windowDen != 0
    ensures w != []
  {
    input.shares[WindowStart(input.shares, Quot(input.windowNum * input.networkWork, input.windowDen), |input.shares| - 1)..]
  }

  function Lines(ms: seq<string>, work: string -> int, credit: string -> int): seq<Line> {
    seq(|ms|, i requires 0 <= i < |ms| => Line(ms[i], work(ms[i]), credit(ms[i])))
  }

  /** What allocateBlock returns or throws. */
  function Allocate(input: Input): Result<Allocation, Failure> {
    if input.shares == [] then Err(NoShares)
    else if input.windowDen == 0 then Err(DivisionByZero)
    else
      var window := Window(input);
      var pot := input.reward - Fee(input);
      if Total(window) == 0 then Err(DivisionByZero)
      else
        Ok(Allocation(Lines(Miners(window), WorkOf(window), CreditOf(pot, window)), Total(window), Fee(input),
                      Leftover(pot, window) - Extras(pot, window), window[0].id, window[|window| - 1].id))
  }

  // ---------- grouping and ranking ----------

  lemma {:induction false} KeysDistinct(window: seq<Share>)
    ensures Distinct(Keys(window))
    ensures forall s | s in window :: s.miner in Keys(window)
  {
    if window != [] {
      var n := |window| - 1;
      KeysDistinct(window[..n]);
      assert window == window[..n] + [window[n]];
    }
  }

  /** The miners' works add up to the window's work. */
  lemma GroupsAddUp(window: seq<Share>)
    ensures Sum(Keys(window), WorkOf(window)) == Sum(Miners(window), WorkOf(window)) == Total(window)
  {
    var ks := Keys(window);
    KeysDistinct(window);
    SumGroups(window, MinerOf(), Work(), ks);
    SumSame(window, Within(MinerOf(), Work(), ks), window, Work());
    SortSum(ks, Less, WorkOf(window));
  }

  lemma MinersDistinct(window: seq<Share>)
    ensures Distinct(Miners(window)) && Ordered(Miners(window), Less)
    ensures forall s | s in window :: s.miner in Miners(window)
  {
    KeysDistinct(window);
    LessIsTotal();
    SortOrdered(Keys(window), Less);
    SortMembers(Keys(window), Less);
  }

  lemma AheadIsTotal(pot: int, window: seq<Share>)
    requires Total(window) != 0
    ensures StrictTotal(Ahead(pot, window))
  {
    LessIsTotal();
    hide Less, RemainderOf;
  }

  lemma RankedMembers(pot: int, window: seq<Share>)
    requires Total(window) != 0
    ensures Distinct(Ranked(pot, window)) && |Ranked(pot, window)| == |Miners(window)|
    ensures forall m :: m in Ranked(pot, window) <==> m in Miners(window)
  {
    MinersDistinct(window);
    AheadIsTotal(pot, window);
    SortOrdered(Miners(window), Ahead(pot, window));
    SortMembers(Miners(window), Ahead(pot, window));
    SortSum(Miners(window), Ahead(pot, window), m => 0);
  }

  lemma {:induction false} CountAmong(ms: seq<string>, some: seq<string>)
    requires Distinct(ms) && Distinct(some) && forall m | m in some :: m in ms
    ensures Sum(ms, Among(some)) == |some|
  {
    if some == [] {
      SumZero(ms, Among(some));
    } else {
      var n := |some| - 1;
      var last: string -> int := m => if m == some[n] then 1 else 0;
      assert some == some[..n] + [some[n]];
      CountAmong(ms, some[..n]);
      SumOne(ms, some[n], last);
      SumPlus(ms, Among(some[..n]), last, Among(some));
    }
  }

  lemma MinersCredited(pot: int, window: seq<Share>)
    requires Total(window) != 0
    ensures Sum(Miners(window), CreditOf(pot, window)) == Sum(Miners(window), FloorOf(pot, window)) + Extras(pot, window)
  {
    RankedMembers(pot, window);
    MinersDistinct(window);
    var won := Ranked(pot, window)[..Extras(pot, window)];
    assert forall m | m in won :: m in Ranked(pot, window);
    CountAmong(Miners(window), won);
    SumPlus(Miners(window), FloorOf(pot, window), Among(won), CreditOf(pot, window));
  }

  /** What is credited plus what is left over is the whole pot, whatever the inputs. */
  lemma CreditsAddUp(pot: int, window: seq<Share>)
    requires Total(window) != 0
    ensures Sum(Lines(Miners(window), WorkOf(window), CreditOf(pot, window)), Credit())
      + (Leftover(pot, window) - Extras(pot, window)) == pot
  {
    MinersCredited(pot, window);
    SumSame(Lines(Miners(window), WorkOf(window), CreditOf(pot, window)), Credit(), Miners(window), CreditOf(pot, window));
  }

  // ---------- allocateBlock ----------

  lemma NoneLeft(shares: seq<Share>)
    ensures Sum(shares[|shares|..], Work()) == 0
  {
  }

  lemma SumFirst(shares: seq<Share>, i: nat)
    requires i < |shares|
    ensures Sum(shares[i..], Work()) == shares[i].work + Sum(shares[i + 1..], Work())
  {
    assert shares[i..] == [shares[i]] + shares[i + 1..] && [shares[i]] == [] + [shares[i]];
    SumAppend([shares[i]], shares[i + 1..], Work());
    SumSnoc([], shares[i], Work());
  }

  method SelectWindow(shares: seq<Share>, target: int) returns (start: nat)
    requires shares != []
    ensures start == WindowStart(shares, target, |shares| - 1) < |shares|
  {
    hide Sum, Work;
    NoneLeft(shares);
    var cumulative := 0;
    start := |shares| - 1;
    var i := |shares|;
    while i > 0
      invariant 0 <= i <= |shares|
      invariant cumulative == Sum(shares[i..], Work())
      invariant i < |shares| ==> start == i && cumulative < target
      invariant i > 0 ==> WindowStart(shares, target, i - 1) == WindowStart(shares, target, |shares| - 1)
      invariant i == 0 ==> start == WindowStart(shares, target, |shares| - 1)
    {
      i := i - 1;
      SumFirst(shares, i);
      cumulative := cumulative + shares[i].work;
      start := i;
      if cumulative >= target {
        break;
      }
    }
  }

  /** Map.set over the window: keys in insertion order, and the work of each. */
  method MinerWork(window: seq<Share>) returns (keys: seq<string>, work: map<string, int>)
    ensures keys == Keys(window)
    ensures forall m :: m in keys <==> m in work
    ensures forall m | m in work :: work[m] == WorkOf(window)(m)
  {
    keys, work := [], map[];
    for i := 0 to |window|
      invariant keys == Keys(window[..i])
      invariant forall m :: m in keys <==> m in work
      invariant forall m :: WorkOf(window[..i])(m) == if m in work then work[m] else 0
    {
      var s := window[i];
      assert window[..i + 1] == window[..i] + [s];
      forall m ensures WorkOf(window[..i + 1])(m) == WorkOf(window[..i])(m) + if m == s.miner then s.work else 0 {
        SumSnoc(window[..i], s, At(MinerOf(), Work(), m));
      }
      keys := if s.miner in work then keys else keys + [s.miner];
      work := work[s.miner := (if s.miner in work then work[s.miner] else 0) + s.work];
    }
    assert window[..|window|] == window;
  }

  method Floors(pot: int, window: seq<Share>, miners: seq<string>, work: map<string, int>, total: int)
    returns (credit: map<string, int>, leftover: int)
    requires total == Total(window) != 0 && miners == Miners(window)
    requires forall m | m in miners :: m in work && work[m] == WorkOf(window)(m)
    ensures forall m :: m in credit <==> m in miners
    ensures forall m | m in miners :: credit[m] == FloorOf(pot, window)(m)
    ensures leftover == Leftover(pot, window)
  {
    hide Miners, Group, Quot, Total;
    credit := map[];
    var floors := 0;
    for i := 0 to |miners|
      invariant floors == Sum(miners[..i], FloorOf(pot, window))
      invariant forall m :: m in credit <==> m in miners[..i]
      invariant forall m | m in credit :: credit[m] == FloorOf(pot, window)(m)
    {
      assert miners[..i + 1] == miners[..i] + [miners[i]];
      SumSnoc(miners[..i], miners[i], FloorOf(pot, window));
      assert miners[i] in miners;
      var floor := Quot(pot * work[miners[i]], total);
      credit := credit[miners[i] := floor];
      floors := floors + floor;
    }
    assert miners[..|miners|] == miners;
    leftover := pot - floors;
  }

  /** One more unit each, in order, until nothing is left over. */
  method HandOut(floors: map<string, int>, order: seq<string>, left: int) returns (credit: map<string, int>, leftover: int)
    requires Distinct(order) && forall m | m in order :: m in floors
    ensures leftover == left - Handed(left, |order|)
    ensures forall m :: m in credit <==> m in floors
    ensures forall m | m in floors :: credit[m] == floors[m] + Among(order[..Handed(left, |order|)])(m)
  {
    credit, leftover := floors, left;
    var k := 0;
    while k < |order|
      invariant 0 <= k <= Handed(left, |order|)
      invariant leftover == left - k
      invariant forall m :: m in credit <==> m in floors
      invariant forall m | m in floors :: credit[m] == floors[m] + Among(order[..k])(m)
      decreases |order| - k
    {
      if leftover <= 0 {
        break;
      }
      assert order[..k + 1] == order[..k] + [order[k]];
      assert order[k] in order && order[k] !in order[..k];
      credit := credit[order[k] := credit[order[k]] + 1];
      leftover := leftover - 1;
      k := k + 1;
    }
  }

  method Divide(pot: int, window: seq<Share>, miners: seq<string>, work: map<string, int>, total: int)
    returns (lines: seq<Line>, rounding: int)
    requires total == Total(window) != 0 && miners == Miners(window)
    requires forall m | m in miners :: m in work && work[m] == WorkOf(window)(m)
    ensures lines == Lines(Miners(window), WorkOf(window), CreditOf(pot, window))
    ensures rounding == Leftover(pot, window) - Extras(pot, window)
  {
    hide Miners, Group, FloorOf, Leftover, Handed, Sort, Ahead, Among;
    var floors, left := Floors(pot, window, miners, work, total);
    var order := Sort(miners, Ahead(pot, window));
    RankedMembers(pot, window);
    var credit;
    credit, rounding := HandOut(floors, order, left);
    lines := seq(|miners|, i requires 0 <= i < |miners| && miners[i] in work && miners[i] in credit =>
      Line(miners[i], work[miners[i]], credit[miners[i]]));
  }

  /** Map.values().reduce(+). */
  method SumValues(keys: seq<string>, work: map<string, int>, window: seq<Share>) returns (total: int)
    requires keys == Keys(window) && forall m | m in keys :: m in work && work[m] == WorkOf(window)(m)
    ensures total == Total(window)
  {
    total := 0;
    for i := 0 to |keys|
      invariant total == Sum(keys[..i], WorkOf(window))
    {
      assert keys[..i + 1] == keys[..i] + [keys[i]];
      SumSnoc(keys[..i], keys[i], WorkOf(window));
      assert keys[i] in keys;
      total := total + work[keys[i]];
    }
    assert keys[..|keys|] == keys;
    GroupsAddUp(window);
  }

  method SumCredits(lines: seq<Line>) returns (credits: int)
    ensures credits == Sum(lines, Credit())
  {
    credits := 0;
    for i := 0 to |lines|
      invariant credits == Sum(lines[..i], Credit())
    {
      assert lines[..i + 1] == lines[..i] + [lines[i]];
      SumSnoc(lines[..i], lines[i], Credit());
      credits := credits + lines[i].credit;
    }
    assert lines[..|lines|] == lines;
  }

  method AllocateBlock(input: Input) returns (r: Result<Allocation, Failure>)
    ensures r == Allocate(input)
  {
    hide Sum, Leftover, Extras, WorkOf, CreditOf, Total, Lines, Sort, Less, WindowStart, Quot, Keys;
    if input.shares == [] {
      return Err(NoShares);
    }
    var fee := Quot(input.reward * input.feeBps, BASIS_POINTS);
    var pot := input.reward - fee;
    if input.windowDen == 0 {
      return Err(DivisionByZero);
    }
    var start := SelectWindow(input.shares, Quot(input.windowNum * input.networkWork, input.windowDen));
    var window := input.shares[start..];
    assert window == Window(input);
    var keys, work := MinerWork(window);
    var total := SumValues(keys, work, window);
    if total == 0 {
      return Err(DivisionByZero);
    }
    var miners := Sort(keys, Less);
    SortMembers(keys, Less);
    var lines, rounding := Divide(pot, window, miners, work, total);
    var credits := SumCredits(lines);
    CreditsAddUp(pot, window);
    if credits + fee + rounding != input.reward {
      // the source throws here
      assert false;
    }
    return Ok(Allocation(lines, total, fee, rounding, window[0].id, window[|window| - 1].id));
  }
}
