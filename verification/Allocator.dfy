/** allocateMatureBlock of src/accounting/allocator.js, statement by statement, when nothing interrupts it. */
module Allocator {
  import opened Wrappers
  import opened Ledger
  import opened Pool
  import opened PoolAllocation
  import Pplns
  import R = Reconciler

  /** What the block's own row and the share history supply; no template means the row cannot be trusted. */
  datatype Inputs = Inputs(networkWork: Option<int>, shares: seq<Pplns.Share>, windowNum: int, windowDen: int, feeBps: int)

  datatype Done = Done(ok: bool) | Failed

  function InputOf(inputs: Inputs, reward: nat): Pplns.Input
    requires inputs.networkWork.Some?
  {
    Pplns.Input(reward, inputs.feeBps, inputs.windowNum, inputs.windowDen, inputs.networkWork.value, inputs.shares)
  }

  /** The three tables a call may write. */
  datatype Books = Books(blocks: map<BlockId, BlockState>, plans: seq<Plan>, ledger: seq<Entry>)

  /** How one undisturbed call over block b leaves the tables, and what it returns. */
  ghost predicate Allocates(before: Books, after: Books, b: BlockId, receipts: seq<R.Receipt>, inputs: Inputs, r: Done) {
    // no confirmed receipt, not MATURE, or no template: nothing changes
    if RewardFor(receipts, b).None? || b !in before.blocks || before.blocks[b] != Mature || inputs.networkWork.None? then
      r == Done(false) && after == before
    else
      var reward := RewardFor(receipts, b).value;
      var result := Pplns.Allocate(Pplns.Input(reward, inputs.feeBps, inputs.windowNum, inputs.windowDen, inputs.networkWork.value, inputs.shares));
      // otherwise the guard is taken, and a thrown error or an older allocation leaves the block ALLOCATED
      if result.Err? || Planned(before.plans, b) then
        && r == (if result.Err? then Failed else Done(false))
        && after == before.(blocks := before.blocks[b := Allocated])
      else
        var plan := Plan(b, reward, result.value);
        && r == Done(true) && after.blocks == before.blocks[b := SettledToLedger] && after.plans == before.plans + [plan]
        && after.ledger == PostAll(before.ledger, Entries(plan))
  }

  class Tables {
    var blocks: map<BlockId, BlockState>
    var plans: seq<Plan>
    var ledger: seq<Entry>

    constructor ()
      ensures blocks == map[] && plans == [] && ledger == []
    {
      blocks, plans, ledger := map[], [], [];
    }

    method PostEntry(e: Entry) returns (posted: bool)
      modifies this`ledger
      ensures ledger == Post(old(ledger), e) && posted == !Posted(old(ledger), e.key)
    {
      posted := !Posted(ledger, e.key);
      if posted {
        ledger := ledger + [e];
      }
    }

    /** Credits in miner order, then the fee, then a positive rounding. */
    method PostPlan(p: Plan)
      modifies this`ledger
      ensures ledger == PostAll(old(ledger), Entries(p))
    {
      var lines := p.result.lines;
      for k := 0 to |lines|
        invariant ledger == PostAll(old(ledger), CreditEntries(p.block, lines[..k]))
      {
        assert lines[..k + 1][..k] == lines[..k];
        var e := Entry(MinerConfirmed, Some(lines[k].miner), lines[k].credit, AllocCredit(p.block, lines[k].miner));
        PostLast(old(ledger), CreditEntries(p.block, lines[..k]), e);
        var _ := PostEntry(e);
      }
      assert lines[..|lines|] == lines;
      var credits := CreditEntries(p.block, lines);
      var fee := Entry(PoolFee, None, p.result.fee, AllocFee(p.block));
      PostLast(old(ledger), credits, fee);
      var _ := PostEntry(fee);
      if p.result.rounding > 0 {
        var rounding := Entry(Rounding, None, p.result.rounding, AllocRounding(p.block));
        PostLast(old(ledger), credits + [fee], rounding);
        var _ := PostEntry(rounding);
      } else {
        assert credits + [fee] + [] == credits + [fee];
      }
    }

    method AllocateMatureBlock(b: BlockId, receipts: seq<R.Receipt>, inputs: Inputs) returns (r: Done)
      modifies this
      ensures Allocates(Books(old(blocks), old(plans), old(ledger)), Books(blocks, plans, ledger), b, receipts, inputs, r)
    {
      hide Pplns.Allocate, Planned, RewardFor, Entries, PostAll;
      var reward := RewardFor(receipts, b);
      if reward.None? {
        return Done(false);
      }
      if b !in blocks || blocks[b] != Mature {
        return Done(false);
      }
      blocks := blocks[b := Allocated];
      if inputs.networkWork.None? {
        blocks := blocks[b := Mature];
        return Done(false);
      }
      var result := Pplns.AllocateBlock(InputOf(inputs, reward.value));
      if result.Err? {
        return Failed;
      }
      if Planned(plans, b) {
        return Done(false);
      }
      var plan := Plan(b, reward.value, result.value);
      plans := plans + [plan];
      PostPlan(plan);
      blocks := blocks[b := SettledToLedger];
      r := Done(true);
    }
  }
}
