/** The amounts of a payout transaction: estimateSize, planPayoutAmounts and the sums of buildPayoutTransaction in src/wallet/tx-builder.js. */
module TxPlan {
  import opened Wrappers
  import opened Sums
  import opened Chain
  import opened Cells
  import Sorting

  const MIN_SIGHASH_CELL_SHANNONS: nat := 6_100_000_000

  /** Inputs the estimate used for selection allows for. */
  const ASSUMED_INPUTS: nat := 200

  function EstimateSize(inputs: nat, outputs: nat): nat {
    4 + 28 + inputs * 44 + outputs * 85 + 8 + outputs * 4 + 4 + 65 + 4 + 4
  }

  datatype Amounts = Amounts(fixedSum: nat, sweepAmount: Option<nat>, changeAmount: nat, actualFee: nat)

  datatype PlanError = Insufficient | SweepTooSmall

  function PlanPayoutAmounts(totalIn: nat, fixedSum: nat, fee: nat, sweep: bool, minimum: nat): Result<Amounts, PlanError> {
    var remainder := totalIn - fixedSum - fee;
    if remainder < 0 then Err(Insufficient)
    else if sweep then
      if remainder < minimum then Err(SweepTooSmall) else Ok(Amounts(fixedSum, Some(remainder), 0, fee))
    else if remainder >= minimum then Ok(Amounts(fixedSum, None, remainder, fee))
    else Ok(Amounts(fixedSum, None, 0, fee + remainder))
  }

  // ---------- the transaction as a whole ----------

  datatype Request = Request(fixedAmounts: seq<nat>, sweep: bool, feeRate: nat)

  function Recipients(r: Request): nat {
    |r.fixedAmounts| + if r.sweep then 1 else 0
  }

  function Id(): nat -> int {
    (n: nat) => n
  }

  function FixedSum(r: Request): nat {
    SumNonNegative(r.fixedAmounts, Id());
    Sum(r.fixedAmounts, Id())
  }

  /** What the selected cells must cover: fixed outputs, a fee for 200 inputs, and one more standard cell. */
  function MinCapacity(r: Request): nat {
    FixedSum(r) + EstimateSize(ASSUMED_INPUTS, Recipients(r) + 1) * r.feeRate + MIN_SIGHASH_CELL_SHANNONS
  }

  /** The fee for the inputs actually selected. */
  function ActualEstimate(r: Request, inputs: nat): nat {
    EstimateSize(inputs, |r.fixedAmounts| + 1) * r.feeRate
  }

  datatype Payout = Payout(inputs: seq<Cell>, outputs: seq<nat>, fee: nat)

  datatype BuildError = Selection(cells: Cells.Error) | NoCells | Planning(plan: PlanError)

  function Outputs(r: Request, a: Amounts): seq<nat> {
    r.fixedAmounts +
    if a.sweepAmount.Some? then [a.sweepAmount.value]
    else if a.changeAmount > 0 then [a.changeAmount]
    else []
  }

  function Plan(r: Request, cells: seq<Cell>): Result<Amounts, PlanError> {
    SumNonNegative(cells, Capacity());
    PlanPayoutAmounts(Sum(cells, Capacity()), FixedSum(r), ActualEstimate(r, |cells|), r.sweep, MIN_SIGHASH_CELL_SHANNONS)
  }

  function Build(r: Request, cells: seq<Cell>, tip: Epoch): Result<Payout, BuildError> {
    var selected := SelectMature(cells, tip, MinCapacity(r));
    if selected.Err? then Err(Selection(selected.error))
    else if selected.value == [] then Err(NoCells)
    else
      var amounts := Plan(r, selected.value);
      if amounts.Err? then Err(Planning(amounts.error))
      else Ok(Payout(selected.value, Outputs(r, amounts.value), amounts.value.actualFee))
  }

  method BuildPayout(r: Request, cells: seq<Cell>, tip: Epoch) returns (p: Result<Payout, BuildError>)
    ensures p == Build(r, cells, tip)
  {
    hide SelectMature, PlanPayoutAmounts, EstimateSize;
    var fixedSum := 0;
    for i := 0 to |r.fixedAmounts|
      invariant fixedSum == Sum(r.fixedAmounts[..i], Id())
    {
      assert r.fixedAmounts[..i + 1][..i] == r.fixedAmounts[..i];
      fixedSum := fixedSum + r.fixedAmounts[i];
    }
    assert r.fixedAmounts[..|r.fixedAmounts|] == r.fixedAmounts;
    var estFee := EstimateSize(ASSUMED_INPUTS, Recipients(r) + 1) * r.feeRate;
    var selected := SelectMature(cells, tip, fixedSum + estFee + MIN_SIGHASH_CELL_SHANNONS);
    if selected.Err? {
      return Err(Selection(selected.error));
    }
    var inputs := selected.value;
    if inputs == [] {
      return Err(NoCells);
    }
    var totalIn, _ := SpendableSplit(inputs, tip);
    var fee := EstimateSize(|inputs|, |r.fixedAmounts| + 1) * r.feeRate;
    SumNonNegative(inputs, Capacity());
    var amounts := PlanPayoutAmounts(totalIn, FixedSum(r), fee, r.sweep, MIN_SIGHASH_CELL_SHANNONS);
    if amounts.Err? {
      return Err(Planning(amounts.error));
    }
    var outputs := r.fixedAmounts;
    if r.sweep {
      SweepHasAmount(totalIn, FixedSum(r), fee);
      outputs := outputs + [amounts.value.sweepAmount.value];
    } else {
      FixedHasNone(totalIn, FixedSum(r), fee);
      if amounts.value.changeAmount > 0 {
        outputs := outputs + [amounts.value.changeAmount];
      }
    }
    assert outputs == Outputs(r, amounts.value);
    return Ok(Payout(inputs, outputs, amounts.value.actualFee));
  }

  lemma SweepHasAmount(totalIn: nat, fixedSum: nat, fee: nat)
    ensures var a := PlanPayoutAmounts(totalIn, fixedSum, fee, true, MIN_SIGHASH_CELL_SHANNONS);
      a.Ok? ==> a.value.sweepAmount.Some?
  {
  }

  lemma FixedHasNone(totalIn: nat, fixedSum: nat, fee: nat)
    ensures var a := PlanPayoutAmounts(totalIn, fixedSum, fee, false, MIN_SIGHASH_CELL_SHANNONS);
      a.Ok? ==> a.value.sweepAmount.None?
  {
  }

  // ---------- what a built transaction satisfies ----------

  lemma OutputSum(r: Request, a: Amounts)
    ensures Sum(Outputs(r, a), Id()) == FixedSum(r) + if a.sweepAmount.Some? then a.sweepAmount.value else a.changeAmount
  {
    var extra := if a.sweepAmount.Some? then [a.sweepAmount.value] else if a.changeAmount > 0 then [a.changeAmount] else [];
    SumAppend(r.fixedAmounts, extra, Id());
    if extra != [] {
      SumSnoc([], extra[0], Id());
      assert [] + [extra[0]] == extra;
    }
  }

  /** No shannon appears or disappears: inputs are the outputs and the fee, whatever was selected. */
  lemma InputsAreSpent(r: Request, cells: seq<Cell>, tip: Epoch)
    requires Build(r, cells, tip).Ok?
    ensures var p := Build(r, cells, tip).value;
      Sum(p.inputs, Capacity()) == Sum(p.outputs, Id()) + p.fee && r.fixedAmounts <= p.outputs
  {
    hide SelectMature, EstimateSize, Sum;
    var inputs := SelectMature(cells, tip, MinCapacity(r)).value;
    OutputSum(r, Plan(r, inputs).value);
  }

  /** The last output of a plan that pays the pool, or the sweep destination, its full remainder. */
  ghost predicate FullRemainder(r: Request, a: Result<Amounts, PlanError>) {
    && a.Ok?
    && (if r.sweep then a.value.sweepAmount.Some? && a.value.sweepAmount.value >= MIN_SIGHASH_CELL_SHANNONS
        else a.value.changeAmount >= MIN_SIGHASH_CELL_SHANNONS)
  }

  /** More inputs than this cost more than the estimate set aside: 200, and 202 when a sweep's own output was counted twice. */
  function InputLimit(r: Request): nat {
    if r.sweep then 202 else 200
  }

  lemma SizeDifference(r: Request, inputs: nat)
    ensures inputs <= InputLimit(r) <==> EstimateSize(inputs, |r.fixedAmounts| + 1) <= EstimateSize(ASSUMED_INPUTS, Recipients(r) + 1)
  {
  }

  lemma FeeDifference(r: Request, inputs: nat)
    requires r.feeRate > 0
    ensures inputs <= InputLimit(r) <==> ActualEstimate(r, inputs) <= EstimateSize(ASSUMED_INPUTS, Recipients(r) + 1) * r.feeRate
  {
    SizeDifference(r, inputs);
    hide EstimateSize;
    Scale(EstimateSize(inputs, |r.fixedAmounts| + 1), EstimateSize(ASSUMED_INPUTS, Recipients(r) + 1), r.feeRate);
  }

  /** Some total that covers the computed minimum. */
  function PlanFor(r: Request, totalIn: nat, inputs: nat): Result<Amounts, PlanError> {
    PlanPayoutAmounts(totalIn, FixedSum(r), ActualEstimate(r, inputs), r.sweep, MIN_SIGHASH_CELL_SHANNONS)
  }

  lemma FullWithinLimit(r: Request, totalIn: nat, inputs: nat)
    requires totalIn >= MinCapacity(r) && inputs <= InputLimit(r)
    ensures FullRemainder(r, PlanFor(r, totalIn, inputs))
  {
    if r.feeRate > 0 {
      FeeDifference(r, inputs);
    }
    hide EstimateSize, FixedSum;
  }

  /** The cells cover the computed minimum and n of them are selected. */
  ghost predicate Selects(r: Request, cells: seq<Cell>, tip: Epoch, n: nat) {
    SelectMature(cells, tip, MinCapacity(r)).Ok? && |SelectMature(cells, tip, MinCapacity(r)).value| == n
  }

  /**
   Whatever cells there are, selecting n of them leaves a full change or sweep output, and no error, exactly when n
   does not exceed the limit: for every larger number there are cells of which so many are selected, and the
   remainder goes to the fee or the plan fails.
   */
  lemma FullRemainderIff(r: Request, tip: Epoch, n: nat)
    requires r.feeRate > 0 && n > 0
    ensures (forall cells | Selects(r, cells, tip, n) :: FullRemainder(r, Plan(r, SelectMature(cells, tip, MinCapacity(r)).value))) <==>
      n <= InputLimit(r)
  {
    if n <= InputLimit(r) {
      forall cells | Selects(r, cells, tip, n) ensures FullRemainder(r, Plan(r, SelectMature(cells, tip, MinCapacity(r)).value)) {
        WithinLimit(r, cells, tip, n);
      }
    } else {
      BeyondLimit(r, tip, n);
      var cells := ManyCells(n, MinCapacity(r));
      assert Selects(r, cells, tip, n) && !FullRemainder(r, Plan(r, SelectMature(cells, tip, MinCapacity(r)).value));
    }
    hide *;
  }

  lemma WithinLimit(r: Request, cells: seq<Cell>, tip: Epoch, n: nat)
    requires Selects(r, cells, tip, n) && n <= InputLimit(r)
    ensures FullRemainder(r, Plan(r, SelectMature(cells, tip, MinCapacity(r)).value))
  {
    hide EstimateSize, FixedSum, Sum, Usable, SelectOldestFirst, InputLimit;
    var selected := SelectMature(cells, tip, MinCapacity(r)).value;
    FullWithinLimit(r, Sum(selected, Capacity()), n);
    hide FullRemainder, PlanPayoutAmounts;
  }

  // ---------- cells beyond the limit ----------

  function Small(n: nat, target: nat): nat {
    if n <= target then 1 else 0
  }

  /** n cells of one block that cover the target exactly, and only all together. */
  function ManyCells(n: nat, target: nat): (cells: seq<Cell>)
    requires n > 0
    ensures |cells| == n
  {
    seq(n, i requires 0 <= i < n =>
      Cell(seq(i, _ => 'c'), if i < n - 1 then Small(n, target) else if n <= target then target - (n - 1) else target, 0, Epoch(0, 0, 1), false))
  }

  lemma {:induction false} SmallSum(cells: seq<Cell>, small: nat)
    requires forall c | c in cells :: c.capacity == small
    ensures Sum(cells, Capacity()) == |cells| * small
  {
    if cells != [] {
      SmallSum(cells[..|cells| - 1], small);
    }
  }

  lemma ManySum(n: nat, target: nat, k: nat)
    requires n > 0 && k <= n && target > 0
    ensures Sum(ManyCells(n, target)[..k], Capacity()) == if k == n then target else k * Small(n, target)
    ensures k < n ==> k * Small(n, target) < target
  {
    var cells := ManyCells(n, target);
    if k < n {
      SmallSum(cells[..k], Small(n, target));
    } else {
      SmallSum(cells[..n - 1], Small(n, target));
      assert cells[..n] == cells[..n - 1] + [cells[n - 1]];
      SumSnoc(cells[..n - 1], cells[n - 1], Capacity());
    }
  }

  lemma {:induction false} AlreadySorted(cells: seq<Cell>)
    requires forall c | c in cells :: c.blockNumber == 0
    ensures Oldest(cells) == cells
  {
    if cells != [] {
      var n := |cells| - 1;
      assert forall c | c in cells[..n] :: c in cells;
      AlreadySorted(cells[..n]);
      assert cells[n] in cells;
      InsertLast(cells[..n], cells[n]);
      assert cells == cells[..n] + [cells[n]];
    }
  }

  lemma {:induction false} InsertLast(cells: seq<Cell>, x: Cell)
    requires x.blockNumber == 0 && forall c | c in cells :: c.blockNumber == 0
    ensures Sorting.Insert(cells, x, Older()) == cells + [x]
  {
    if cells != [] {
      InsertLast(cells[1..], x);
      assert [cells[0]] + (cells[1..] + [x]) == cells + [x];
    }
  }

  lemma {:induction false} AllUsable(cells: seq<Cell>, tip: Epoch)
    requires forall c | c in cells :: !c.isCellbase
    ensures Usable(cells, tip) == cells
  {
    hide Taken;
    if cells != [] {
      var n := |cells| - 1;
      assert forall c | c in cells[..n] :: c in cells;
      AllUsable(cells[..n], tip);
      assert cells[n] in cells;
      PlainTaken(cells[n], tip);
      assert cells == cells[..n] + [cells[n]];
    }
  }

  lemma PlainTaken(c: Cell, tip: Epoch)
    requires !c.isCellbase
    ensures Taken(c, tip)
  {
  }

  lemma AllSelected(n: nat, target: nat, tip: Epoch)
    requires n > 0 && target > 0
    ensures SelectMature(ManyCells(n, target), tip, target) == Ok(ManyCells(n, target))
    ensures Sum(ManyCells(n, target), Capacity()) == target
  {
    var cells := ManyCells(n, target);
    AllUsable(cells, tip);
    AlreadySorted(cells);
    hide ManyCells, Usable, Oldest, Sum, Capacity, Needed, Small;
    ManySum(n, target, n);
    AllNeeded(n, target);
    assert cells[..n] == cells;
  }

  lemma AllNeeded(n: nat, target: nat)
    requires n > 0 && target > 0
    ensures Needed(ManyCells(n, target), target, 0) == n
  {
    var cells := ManyCells(n, target);
    hide ManyCells, Sum, Capacity, Needed, Small;
    NeededIsFirst(cells, target, 0);
    ManySum(n, target, Needed(cells, target, 0));
  }

  lemma BeyondLimit(r: Request, tip: Epoch, n: nat)
    requires r.feeRate > 0 && n > InputLimit(r)
    ensures Selects(r, ManyCells(n, MinCapacity(r)), tip, n)
    ensures !FullRemainder(r, Plan(r, SelectMature(ManyCells(n, MinCapacity(r)), tip, MinCapacity(r)).value))
  {
    FeeDifference(r, n);
    hide EstimateSize, FixedSum, ActualEstimate, SelectMature, Sum, ManyCells;
    AllSelected(n, MinCapacity(r), tip);
  }

  /** If mature cells cover the minimum using at most 200 of them, building succeeds, with a full change or sweep output. */
  lemma BuildSucceeds(r: Request, cells: seq<Cell>, tip: Epoch)
    requires Sum(cells, SpendableNow(tip)) >= MinCapacity(r)
    requires var selected := SelectMature(cells, tip, MinCapacity(r)); selected.Ok? ==> |selected.value| <= ASSUMED_INPUTS
    ensures Build(r, cells, tip).Ok?
    ensures var p := Build(r, cells, tip).value;
      |p.outputs| == |r.fixedAmounts| + 1 && p.outputs[|r.fixedAmounts|] >= MIN_SIGHASH_CELL_SHANNONS
      && OldestPrefix(p.inputs, cells, tip) && ShortestCover(p.inputs, MinCapacity(r))
  {
    SelectionIsShortest(cells, tip, MinCapacity(r));
    var inputs := SelectMature(cells, tip, MinCapacity(r)).value;
    FullWithinLimit(r, Sum(inputs, Capacity()), |inputs|);
    NonEmpty(inputs, MinCapacity(r));
    hide SelectMature, EstimateSize, FixedSum, OldestPrefix, Sum, SpendableNow;
    assert Plan(r, inputs) == PlanFor(r, Sum(inputs, Capacity()), |inputs|);
    assert FullRemainder(r, Plan(r, inputs));
  }

  lemma NonEmpty(inputs: seq<Cell>, target: nat)
    requires target > 0 && Sum(inputs, Capacity()) >= target
    ensures inputs != []
  {
  }

  // ---------- a build, said in bytes and shannons ----------

  /** The fee for so many inputs and outputs: 117 bytes, 44 for each input and 89 for each output. */
  ghost function FeeFor(rate: nat, inputs: nat, outputs: nat): nat {
    (117 + 44 * inputs + 89 * outputs) * rate
  }

  /** What the cells taken must cover: the fixed amounts, the fee for 200 inputs, and 61 CKB for one more cell. */
  ghost function ToCover(r: Request): nat {
    FixedSum(r) + FeeFor(r.feeRate, 200, |r.fixedAmounts| + if r.sweep then 2 else 1) + 6_100_000_000
  }

  /** What becomes of the cells taken: the remainder is an output of at least 61 CKB, or the fee's, or too little. */
  ghost predicate Spent(r: Request, inputs: seq<Cell>, result: Result<Payout, BuildError>) {
    var fee := FeeFor(r.feeRate, |inputs|, |r.fixedAmounts| + 1);
    var rest := Sum(inputs, Capacity()) - FixedSum(r) - fee;
    if rest < 0 then result == Err(Planning(Insufficient))
    else if rest >= 6_100_000_000 then result == Ok(Payout(inputs, r.fixedAmounts + [rest], fee))
    else if r.sweep then result == Err(Planning(SweepTooSmall))
    else result == Ok(Payout(inputs, r.fixedAmounts, fee + rest))
  }

  ghost predicate TakenAndSpent(r: Request, cells: seq<Cell>, tip: Epoch, inputs: seq<Cell>, result: Result<Payout, BuildError>) {
    OldestWaited(inputs, cells, tip, ToCover(r)) && Spent(r, inputs, result)
  }

  lemma SizeIs(inputs: nat, outputs: nat)
    ensures EstimateSize(inputs, outputs) == 117 + 44 * inputs + 89 * outputs
  {
  }

  lemma ToCoverIs(r: Request)
    ensures MinCapacity(r) == ToCover(r)
  {
    SizeIs(200, Recipients(r) + 1);
    hide EstimateSize, FixedSum;
  }

  lemma PlanSpends(r: Request, inputs: seq<Cell>)
    ensures var a := Plan(r, inputs);
      Spent(r, inputs, if a.Err? then Err(Planning(a.error)) else Ok(Payout(inputs, Outputs(r, a.value), a.value.actualFee)))
  {
    SizeIs(|inputs|, |r.fixedAmounts| + 1);
    SumNonNegative(inputs, Capacity());
    hide EstimateSize, FixedSum, Sum;
    assert r.fixedAmounts + [] == r.fixedAmounts;
  }

  /**
   Building a payout: an error exactly when the cells that have waited do not cover what is needed; otherwise the
   oldest of them, no more than needed, pay the fixed amounts, and the remainder goes back in full, or is too little
   for a cell of its own and becomes fee, which a sweep refuses.
   */
  lemma BuildMeans(r: Request, cells: seq<Cell>, tip: Epoch)
    requires ProperCells(cells, tip)
    ensures (Build(r, cells, tip).Err? && Build(r, cells, tip).error.Selection?) <==> Sum(cells, WaitedWorth(tip)) < ToCover(r)
    ensures Sum(cells, WaitedWorth(tip)) >= ToCover(r) ==> exists inputs :: TakenAndSpent(r, cells, tip, inputs, Build(r, cells, tip))
  {
    ToCoverIs(r);
    SelectsWaited(cells, tip, MinCapacity(r));
    var selected := SelectMature(cells, tip, MinCapacity(r));
    hide SelectMature, EstimateSize, FixedSum, Spent, OldestWaited, WaitedWorth, Sum, ToCover, Outputs, Plan;
    if selected.Ok? {
      PlanSpends(r, selected.value);
      CoverNeedsCells(r, selected.value, cells, tip);
      assert TakenAndSpent(r, cells, tip, selected.value, Build(r, cells, tip));
    }
  }

  lemma CoverNeedsCells(r: Request, inputs: seq<Cell>, cells: seq<Cell>, tip: Epoch)
    requires OldestWaited(inputs, cells, tip, ToCover(r))
    ensures inputs != []
  {
  }
}
