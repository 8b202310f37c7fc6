/** Treasury cells and their maturity: src/wallet/cells.js and src/wallet/treasury.js. */
module Cells {
  import opened Wrappers
  import opened Sums
  import opened Sorting
  import opened Chain

  datatype Cell = Cell(id: string, capacity: nat, blockNumber: nat, epoch: Epoch, isCellbase: bool)

  datatype Error = ReservedBits | BadLength | BadIndex | NegativeTarget | NotCovered(available: int)

  // ---------- packed epochs ----------

  const TWO16: nat := 0x1_0000
  const TWO24: nat := 0x100_0000
  const TWO40: nat := 0x100_0000_0000
  const TWO56: nat := 0x100_0000_0000_0000

  /** parseEpochFields on the number the hexadecimal text stands for. */
  function ParseEpoch(value: nat): Result<Epoch, Error> {
    if value >= TWO56 then Err(ReservedBits)
    else
      var e := Epoch(value % TWO24, value / TWO24 % TWO16, value / TWO40 % TWO16);
      if e.length == 0 then Err(BadLength)
      else if e.index >= e.length then Err(BadIndex)
      else Ok(e)
  }

  function PackEpoch(e: Epoch): nat {
    e.number + e.index * TWO24 + e.length * TWO40
  }

  predicate Packable(e: Epoch) {
    e.number < TWO24 && e.length < TWO16 && e.index < e.length
  }

  /** The fields come back exactly when they fit and the index is inside the epoch. */
  lemma EpochRoundTrip(e: Epoch)
    ensures ParseEpoch(PackEpoch(e)) == Ok(e) <==> Packable(e)
  {
    if Packable(e) {
      assert PackEpoch(e) / TWO24 == e.index + e.length * TWO16;
      assert PackEpoch(e) / TWO40 == e.length;
    }
  }

  /** Every accepted number is the packing of what was read. */
  lemma EpochCanonical(value: nat)
    requires ParseEpoch(value).Ok?
    ensures Packable(ParseEpoch(value).value) && PackEpoch(ParseEpoch(value).value) == value
  {
    assert value / TWO24 / TWO16 == value / TWO40;
    assert value / TWO40 < TWO16;
  }

  // ---------- the order of epochs ----------

  /** epochAtLeast: cross-multiplied, without fractions. */
  predicate AtLeast(a: Epoch, b: Epoch) {
    if a.number != b.number then a.number > b.number else a.index * b.length >= b.index * a.length
  }

  lemma Proper(e: Epoch)
    requires e.index < e.length
    ensures 0.0 <= e.index as real / e.length as real < 1.0
  {
  }

  lemma CrossMultiplied(i: nat, m: nat, j: nat, n: nat)
    requires m > 0 && n > 0
    ensures i * n >= j * m <==> i as real / m as real >= j as real / n as real
  {
    var x, y := i as real / m as real, j as real / n as real;
    var p := m as real * n as real;
    assert x * p == (i * n) as real by {
      assert x * m as real == i as real;
      assert x * p == x * m as real * n as real;
    }
    assert y * p == (j * m) as real by {
      assert y * n as real == j as real;
      assert y * p == y * n as real * m as real;
    }
    Scaled(x, y, p);
  }

  lemma Scaled(x: real, y: real, p: real)
    requires p > 0.0
    ensures x >= y <==> x * p >= y * p
  {
    assert (x - y) * p == x * p - y * p;
    if x > y {
      assert (x - y) * p > 0.0;
    } else if x < y {
      assert (y - x) * p > 0.0;
    }
  }

  /** On proper fractions the comparison is the order of number + index / length, with nothing rounded. */
  lemma AtLeastIsExact(a: Epoch, b: Epoch)
    requires a.index < a.length && b.index < b.length
    ensures AtLeast(a, b) <==> Fraction(a) >= Fraction(b)
  {
    Proper(a);
    Proper(b);
    if a.number == b.number {
      CrossMultiplied(a.index, a.length, b.index, b.length);
    } else if a.number < b.number {
      assert a.number as real + 1.0 <= b.number as real;
    } else {
      assert b.number as real + 1.0 <= a.number as real;
    }
  }

  // ---------- maturity and value ----------

  predicate Matured(c: Cell, tip: Epoch) {
    c.isCellbase ==> AtLeast(tip, c.epoch.(number := c.epoch.number + CELLBASE_MATURITY_EPOCHS))
  }

  function Capacity(): Cell -> int {
    (c: Cell) => c.capacity
  }

  function SpendableNow(tip: Epoch): Cell -> int {
    (c: Cell) => if Matured(c, tip) then c.capacity else 0
  }

  method SpendableSplit(cells: seq<Cell>, tip: Epoch) returns (total: int, spendable: int)
    ensures total == Sum(cells, Capacity()) && spendable == Sum(cells, SpendableNow(tip))
  {
    total, spendable := 0, 0;
    for i := 0 to |cells|
      invariant total == Sum(cells[..i], Capacity()) && spendable == Sum(cells[..i], SpendableNow(tip))
    {
      assert cells[..i + 1][..i] == cells[..i];
      total := total + cells[i].capacity;
      var mature := true;
      if cells[i].isCellbase {
        mature := AtLeast(tip, cells[i].epoch.(number := cells[i].epoch.number + CELLBASE_MATURITY_EPOCHS));
      }
      if mature {
        spendable := spendable + cells[i].capacity;
      }
    }
    assert cells[..|cells|] == cells;
  }

  // ---------- selection ----------

  /** The sort is stable, so cells of one block keep the order they were listed in. */
  function Older(): (Cell, Cell) -> bool {
    (a: Cell, b: Cell) => a.blockNumber < b.blockNumber
  }

  function Oldest(cells: seq<Cell>): seq<Cell> {
    Sort(cells, Older())
  }

  /** How many cells are taken from a list until the target is covered. */
  function Needed(ordered: seq<Cell>, target: int, from: nat): (n: nat)
    requires from <= |ordered|
    ensures from <= n <= |ordered|
    decreases |ordered| - from
  {
    if from == |ordered| || Sum(ordered[..from], Capacity()) >= target then from else Needed(ordered, target, from + 1)
  }

  function SelectOldestFirst(cells: seq<Cell>, target: int): Result<seq<Cell>, Error> {
    if target < 0 then Err(NegativeTarget)
    else
      var ordered := Oldest(cells);
      Ok(ordered[..Needed(ordered, target, 0)])
  }

  method SelectOldest(cells: seq<Cell>, target: int) returns (r: Result<seq<Cell>, Error>)
    ensures r == SelectOldestFirst(cells, target)
  {
    if target < 0 {
      return Err(NegativeTarget);
    }
    var ordered := Sort(cells, Older());
    var selected, total := [], 0;
    var i := 0;
    while i < |ordered|
      invariant 0 <= i <= |ordered|
      invariant selected == ordered[..i] && total == Sum(ordered[..i], Capacity())
      invariant Needed(ordered, target, 0) == Needed(ordered, target, i)
      decreases |ordered| - i
    {
      if total >= target {
        break;
      }
      assert ordered[..i + 1][..i] == ordered[..i];
      selected := selected + [ordered[i]];
      total := total + ordered[i].capacity;
      i := i + 1;
    }
    return Ok(selected);
  }

  predicate Taken(c: Cell, tip: Epoch) {
    !c.isCellbase || SpendableNow(tip)(c) > 0
  }

  /** Mature cells, cellbase ones only if they are worth anything. */
  function Usable(cells: seq<Cell>, tip: Epoch): seq<Cell> {
    if cells == [] then []
    else
      var c := cells[|cells| - 1];
      Usable(cells[..|cells| - 1], tip) + if Taken(c, tip) then [c] else []
  }

  function SelectMature(cells: seq<Cell>, tip: Epoch, target: int): Result<seq<Cell>, Error> {
    var selected := SelectOldestFirst(Usable(cells, tip), target);
    if selected.Err? then selected
    else if Sum(selected.value, Capacity()) < target then Err(NotCovered(Sum(selected.value, Capacity())))
    else selected
  }

  // ---------- what is selected ----------

  ghost predicate ByAge(cells: seq<Cell>) {
    forall i, j | 0 <= i < j < |cells| :: cells[i].blockNumber <= cells[j].blockNumber
  }

  lemma {:induction false} InsertByAge(s: seq<Cell>, x: Cell)
    requires ByAge(s)
    ensures ByAge(Insert(s, x, Older()))
  {
    if s != [] && !Older()(x, s[0]) {
      InsertByAge(s[1..], x);
      InsertMembers(s[1..], x, Older());
      var rest := Insert(s[1..], x, Older());
      forall j | 0 <= j < |rest| ensures s[0].blockNumber <= rest[j].blockNumber {
        assert rest[j] in rest;
      }
    }
  }

  lemma {:induction false} OldestIsSorted(cells: seq<Cell>)
    ensures ByAge(Oldest(cells)) && |Oldest(cells)| == |cells|
    ensures forall c :: c in Oldest(cells) <==> c in cells
    ensures Sum(Oldest(cells), Capacity()) == Sum(cells, Capacity())
  {
    SortMembers(cells, Older());
    SortSum(cells, Older(), Capacity());
    if cells != [] {
      OldestIsSorted(cells[..|cells| - 1]);
      InsertByAge(Oldest(cells[..|cells| - 1]), cells[|cells| - 1]);
    }
  }

  lemma {:induction false} NeededIsFirst(ordered: seq<Cell>, target: int, from: nat)
    requires from <= |ordered|
    ensures var n := Needed(ordered, target, from);
      && (n == |ordered| || Sum(ordered[..n], Capacity()) >= target)
      && forall k | from <= k < n :: Sum(ordered[..k], Capacity()) < target
    decreases |ordered| - from
  {
    if from < |ordered| && Sum(ordered[..from], Capacity()) < target {
      NeededIsFirst(ordered, target, from + 1);
    }
  }

  lemma TakenWorth(c: Cell, tip: Epoch)
    ensures Taken(c, tip) <==> Matured(c, tip) && (c.isCellbase ==> c.capacity > 0)
    ensures SpendableNow(tip)(c) == if Taken(c, tip) then c.capacity else 0
  {
    hide AtLeast;
  }

  lemma {:induction false} UsableMembers(cells: seq<Cell>, tip: Epoch)
    ensures forall c :: c in Usable(cells, tip) <==> c in cells && Taken(c, tip)
  {
    hide Taken;
    if cells != [] {
      UsableMembers(cells[..|cells| - 1], tip);
      assert cells == cells[..|cells| - 1] + [cells[|cells| - 1]];
    }
  }

  lemma {:induction false} UsableWorth(cells: seq<Cell>, tip: Epoch)
    ensures Sum(Usable(cells, tip), Capacity()) == Sum(cells, SpendableNow(tip))
  {
    hide Taken, SpendableNow;
    if cells != [] {
      var n := |cells| - 1;
      UsableWorth(cells[..n], tip);
      TakenWorth(cells[n], tip);
      if Taken(cells[n], tip) {
        SumSnoc(Usable(cells[..n], tip), cells[n], Capacity());
      } else {
        assert Usable(cells, tip) == Usable(cells[..n], tip);
      }
    }
  }

  /** In payment order no cell left out is older than one taken, and every cell taken is the pool's and mature. */
  ghost predicate OldestPrefix(taken: seq<Cell>, cells: seq<Cell>, tip: Epoch) {
    && taken <= Oldest(Usable(cells, tip)) && ByAge(Oldest(Usable(cells, tip)))
    && forall c | c in taken :: c in cells && Matured(c, tip)
  }

  ghost predicate ShortestCover(taken: seq<Cell>, target: int) {
    Sum(taken, Capacity()) >= target && forall k | 0 <= k < |taken| :: Sum(taken[..k], Capacity()) < target
  }

  lemma PrefixCovers(ordered: seq<Cell>, target: int)
    ensures var taken := ordered[..Needed(ordered, target, 0)];
      && (Sum(taken, Capacity()) >= target <==> Sum(ordered, Capacity()) >= target)
      && (Sum(taken, Capacity()) >= target ==> ShortestCover(taken, target))
  {
    var n := Needed(ordered, target, 0);
    NeededIsFirst(ordered, target, 0);
    ShorterSums(ordered, n);
    assert ordered[..|ordered|] == ordered;
    forall k | 0 <= k < n ensures ordered[..n][..k] == ordered[..k] {
    }
  }

  lemma PrefixMature(cells: seq<Cell>, tip: Epoch, n: nat)
    requires n <= |Oldest(Usable(cells, tip))|
    ensures OldestPrefix(Oldest(Usable(cells, tip))[..n], cells, tip)
  {
    var usable := Usable(cells, tip);
    var ordered := Oldest(usable);
    UsableMembers(cells, tip);
    OldestIsSorted(usable);
    hide Usable, Oldest, Matured, Taken;
    forall c | c in ordered[..n] ensures c in cells && Matured(c, tip) {
      assert c in ordered;
      TakenWorth(c, tip);
    }
  }

  /** The inputs are the shortest oldest-first prefix of the mature cells covering the target; an error means all mature cells do not. */
  lemma SelectionIsShortest(cells: seq<Cell>, tip: Epoch, target: nat)
    ensures SelectMature(cells, tip, target).Ok? <==> Sum(cells, SpendableNow(tip)) >= target
    ensures SelectMature(cells, tip, target).Ok? ==>
      OldestPrefix(SelectMature(cells, tip, target).value, cells, tip) && ShortestCover(SelectMature(cells, tip, target).value, target)
  {
    var usable := Usable(cells, tip);
    var ordered := Oldest(usable);
    UsableWorth(cells, tip);
    OldestIsSorted(usable);
    PrefixCovers(ordered, target);
    PrefixMature(cells, tip, Needed(ordered, target, 0));
    hide Usable, Oldest, Sum, OldestPrefix, ShortestCover, Needed;
  }

  lemma ShorterSums(ordered: seq<Cell>, n: nat)
    requires n <= |ordered|
    ensures Sum(ordered[..n], Capacity()) <= Sum(ordered, Capacity())
  {
    assert ordered == ordered[..n] + ordered[n..];
    SumAppend(ordered[..n], ordered[n..], Capacity());
    SumNonNegative(ordered[n..], Capacity());
  }

  // ---------- what is mature, and in which order it is taken ----------

  /** A cellbase output has waited four epochs, counted with their fractions; any other cell need not wait. */
  ghost predicate Waited(c: Cell, tip: Epoch) {
    c.isCellbase ==> c.epoch.length > 0 && tip.length > 0 && Fraction(tip) >= Fraction(c.epoch) + 4.0
  }

  ghost predicate ProperCells(cells: seq<Cell>, tip: Epoch) {
    tip.index < tip.length && forall c | c in cells :: c.epoch.index < c.epoch.length
  }

  ghost function WaitedWorth(tip: Epoch): Cell -> int {
    (c: Cell) => if Waited(c, tip) then c.capacity else 0
  }

  lemma MaturedIff(c: Cell, tip: Epoch)
    requires c.epoch.index < c.epoch.length && tip.index < tip.length
    ensures Matured(c, tip) <==> Waited(c, tip)
  {
    var later := c.epoch.(number := c.epoch.number + CELLBASE_MATURITY_EPOCHS);
    AtLeastIsExact(tip, later);
    assert Fraction(later) == Fraction(c.epoch) + 4.0;
    hide AtLeast, Fraction;
  }

  /** spendableSplit counts as spendable exactly the cells that have waited. */
  lemma SpendableIsWaited(cells: seq<Cell>, tip: Epoch)
    requires ProperCells(cells, tip)
    ensures Sum(cells, SpendableNow(tip)) == Sum(cells, WaitedWorth(tip))
  {
    forall k | 0 <= k < |cells| ensures SpendableNow(tip)(cells[k]) == WaitedWorth(tip)(cells[k]) {
      assert cells[k] in cells;
      MaturedIff(cells[k], tip);
    }
    SumSame(cells, SpendableNow(tip), cells, WaitedWorth(tip));
  }

  /** Cells that have waited, in order of age, each needed for the target, and none left out that is older. */
  ghost predicate OldestWaited(taken: seq<Cell>, cells: seq<Cell>, tip: Epoch, target: nat) {
    && (forall c | c in taken :: c in cells && Waited(c, tip))
    && (forall i, j | 0 <= i < j < |taken| :: taken[i].blockNumber <= taken[j].blockNumber)
    && (forall c | c in cells && Waited(c, tip) && c.capacity > 0 && c !in taken :: forall x | x in taken :: x.blockNumber <= c.blockNumber)
    && Sum(taken, Capacity()) >= target && forall k | 0 <= k < |taken| :: Sum(taken[..k], Capacity()) < target
  }

  /**
   Selection succeeds exactly when the cells that have waited cover the target, and then takes the oldest of them, no
   more than needed.
   */
  lemma SelectsWaited(cells: seq<Cell>, tip: Epoch, target: nat)
    requires ProperCells(cells, tip)
    ensures SelectMature(cells, tip, target).Ok? <==> Sum(cells, WaitedWorth(tip)) >= target
    ensures SelectMature(cells, tip, target).Ok? ==> OldestWaited(SelectMature(cells, tip, target).value, cells, tip, target)
  {
    SpendableIsWaited(cells, tip);
    SelectionIsShortest(cells, tip, target);
    hide SelectMature, Sum, Waited;
    if SelectMature(cells, tip, target).Ok? {
      TakenAreOldest(SelectMature(cells, tip, target).value, cells, tip);
    }
  }

  lemma TakenAreOldest(taken: seq<Cell>, cells: seq<Cell>, tip: Epoch)
    requires ProperCells(cells, tip) && OldestPrefix(taken, cells, tip)
    ensures forall c | c in taken :: c in cells && Waited(c, tip)
    ensures forall i, j | 0 <= i < j < |taken| :: taken[i].blockNumber <= taken[j].blockNumber
    ensures forall c | c in cells && Waited(c, tip) && c.capacity > 0 && c !in taken :: forall x | x in taken :: x.blockNumber <= c.blockNumber
  {
    hide *;
    var ordered := Oldest(Usable(cells, tip));
    UsableMembers(cells, tip);
    OldestIsSorted(Usable(cells, tip));
    PrefixParts(taken, cells, tip);
    forall c | c in cells ensures Matured(c, tip) <==> Waited(c, tip) {
      ProperCell(cells, tip, c);
      MaturedIff(c, tip);
    }
    forall c, x | c in cells && Waited(c, tip) && c.capacity > 0 && c !in taken && x in taken ensures x.blockNumber <= c.blockNumber {
      TakenWorth(c, tip);
      NoneOlderLeft(taken, ordered, x, c);
    }
  }

  lemma ProperCell(cells: seq<Cell>, tip: Epoch, c: Cell)
    requires ProperCells(cells, tip) && c in cells
    ensures c.epoch.index < c.epoch.length && tip.index < tip.length
  {
  }

  lemma PrefixParts(taken: seq<Cell>, cells: seq<Cell>, tip: Epoch)
    requires OldestPrefix(taken, cells, tip)
    ensures taken <= Oldest(Usable(cells, tip)) && ByAge(Oldest(Usable(cells, tip)))
    ensures forall c | c in taken :: c in cells && Matured(c, tip)
    ensures forall i, j | 0 <= i < j < |taken| :: taken[i].blockNumber <= taken[j].blockNumber
  {
    hide Oldest, Usable, Matured;
  }

  lemma NoneOlderLeft(taken: seq<Cell>, ordered: seq<Cell>, x: Cell, c: Cell)
    requires taken <= ordered && ByAge(ordered) && x in taken && c in ordered && c !in taken
    ensures x.blockNumber <= c.blockNumber
  {
    assert forall k | 0 <= k < |taken| :: ordered[k] == taken[k] && taken[k] in taken;
    var i :| 0 <= i < |taken| && taken[i] == x;
    var j :| 0 <= j < |ordered| && ordered[j] == c;
    assert i < j;
  }

  /** The cells of one block, as listed. */
  function OfBlock(cells: seq<Cell>, n: nat): seq<Cell> {
    if cells == [] then [] else OfBlock(cells[..|cells| - 1], n) + if cells[|cells| - 1].blockNumber == n then [cells[|cells| - 1]] else []
  }

  lemma {:induction false} OfBlockConcat(a: seq<Cell>, b: seq<Cell>, n: nat)
    ensures OfBlock(a + b, n) == OfBlock(a, n) + OfBlock(b, n)
  {
    if b == [] {
      assert a + b == a;
    } else {
      assert (a + b)[..|a + b| - 1] == a + b[..|b| - 1];
      OfBlockConcat(a, b[..|b| - 1], n);
    }
  }

  lemma {:induction false} InsertKeepsOrder(s: seq<Cell>, x: Cell, n: nat)
    requires ByAge(s)
    ensures OfBlock(Insert(s, x, Older()), n) == OfBlock(s, n) + if x.blockNumber == n then [x] else []
  {
    hide *;
    OneOfBlock(x, n);
    if s == [] {
      InsertFirst(x);
    } else {
      InsertIs(s, x);
      if x.blockNumber < s[0].blockNumber {
        OfBlockConcat([x], s, n);
        if x.blockNumber == n {
          NoneYounger(s, n);
        }
      } else {
        RestByAge(s);
        InsertKeepsOrder(s[1..], x, n);
        OfBlockConcat([s[0]], s[1..], n);
        OfBlockConcat([s[0]], Insert(s[1..], x, Older()), n);
      }
    }
  }

  lemma InsertFirst(x: Cell)
    ensures Insert([], x, Older()) == [x]
  {
  }

  lemma NoneYounger(s: seq<Cell>, n: nat)
    requires s != [] && ByAge(s) && n < s[0].blockNumber
    ensures OfBlock(s, n) == []
  {
    NoneOfBlock(s, n);
  }

  lemma RestByAge(s: seq<Cell>)
    requires s != [] && ByAge(s)
    ensures ByAge(s[1..])
  {
  }

  lemma InsertIs(s: seq<Cell>, x: Cell)
    requires s != []
    ensures s == [s[0]] + s[1..]
    ensures Insert(s, x, Older()) == if x.blockNumber < s[0].blockNumber then [x] + s else [s[0]] + Insert(s[1..], x, Older())
  {
  }

  lemma OneOfBlock(x: Cell, n: nat)
    ensures OfBlock([], n) == [] && OfBlock([x], n) == if x.blockNumber == n then [x] else []
  {
    assert [x][..0] == [];
  }

  lemma {:induction false} NoneOfBlock(s: seq<Cell>, n: nat)
    requires forall i | 0 <= i < |s| :: s[i].blockNumber > n
    ensures OfBlock(s, n) == []
  {
    if s != [] {
      NoneOfBlock(s[..|s| - 1], n);
    }
  }

  /** Ordering by age keeps the cells of each block, in the order in which they were listed. */
  lemma {:induction false} OldestKeepsOrder(cells: seq<Cell>, n: nat)
    ensures OfBlock(Oldest(cells), n) == OfBlock(cells, n)
  {
    if cells != [] {
      var m := |cells| - 1;
      OldestIsSorted(cells[..m]);
      OldestKeepsOrder(cells[..m], n);
      InsertKeepsOrder(Oldest(cells[..m]), cells[m], n);
      hide Insert, OfBlock;
      OfBlockStep(cells, n);
    }
  }

  lemma OfBlockStep(cells: seq<Cell>, n: nat)
    requires cells != []
    ensures OfBlock(cells, n) == OfBlock(cells[..|cells| - 1], n) + if cells[|cells| - 1].blockNumber == n then [cells[|cells| - 1]] else []
  {
  }

  /** The packing, bit by bit: 24 bits of number, 16 of index and 16 of length, all within 56. */
  lemma EpochLayout(value: nat)
    ensures ParseEpoch(value).Ok? <==> exists number, index, length :: EpochBits(value, number, index, length)
    ensures ParseEpoch(value).Ok? ==> var e := ParseEpoch(value).value; EpochBits(value, e.number, e.index, e.length)
  {
    if ParseEpoch(value).Ok? {
      EpochCanonical(value);
      var e := ParseEpoch(value).value;
      assert EpochBits(value, e.number, e.index, e.length);
    }
    if number, index, length :| EpochBits(value, number, index, length) {
      EpochRoundTrip(Epoch(number, index, length));
    }
  }

  ghost predicate EpochBits(value: nat, number: nat, index: nat, length: nat) {
    && value == number + 0x100_0000 * index + 0x100_0000_0000 * length
    && number < 0x100_0000 && index < length < 0x1_0000
  }
}
