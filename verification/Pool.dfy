/**
 The pool as one step protocol: income, allocation, payouts and the chain. Each step is one committed
 transaction or one bare statement, processes may die between any two of them, and reconciler passes may overlap. The steps follow
 src/wallet/reconciler.js, src/accounting/allocator.js, src/wallet/payout-worker.js and approveBatch
 of src/accounting/poolctl.js. Node answers, the chain, block states set by other services, timing
 and every choice of rows are up to the environment.
 */
module Pool {
  import opened Wrappers
  import opened Sums
  import opened Ledger
  import opened Payouts
  import Chain
  import Pplns
  import R = Reconciler

  // ---------- tables and processes ----------

  /** blocks.state; every state the allocator never looks for is Other. */
  datatype BlockState = Other | Mature | Allocated | SettledToLedger

  /** A row of block_allocations: the result its hash commits to, and the receipt it divides. */
  datatype Plan = Plan(block: BlockId, reward: nat, result: Pplns.Allocation)

  /** A run of allocateMatureBlock, by what it has done so far. */
  datatype Allocating =
    | Holding(block: BlockId, reward: nat)
    | Guarded(block: BlockId, reward: nat)
    | Posting(plan: Plan, done: nat)

  datatype Pay = Pay(miner: Miner, amount: int)

  datatype Tx = Tx(hash: TxHash, batch: BatchId, pays: seq<Pay>)

  /** A run of processBatch, by what it has done so far. */
  datatype Paying =
    | Signed(tx: Tx)
    | Saved(tx: Tx)
    | Sent(tx: Tx)

  datatype State = State(
    blocks: map<BlockId, BlockState>,
    receipts: seq<R.Receipt>,
    reading: seq<R.Pending>,  // reconciler passes between their SELECT and their write
    plans: seq<Plan>,
    allocating: map<nat, Allocating>,
    wallet: Wallet,
    paying: map<nat, Paying>,
    sent: seq<Tx>,            // transactions handed to the node, ever
    onChain: set<TxHash>)     // transactions in the node's best chain now

  // ---------- allocation ----------

  /** rewardForBlock. */
  function RewardFor(rs: seq<R.Receipt>, b: BlockId): Option<nat> {
    if rs == [] then None
    else
      var r := rs[|rs| - 1];
      if r.block == b && r.confirmed && !r.voided then Some(r.amount) else RewardFor(rs[..|rs| - 1], b)
  }

  function CreditEntries(b: BlockId, lines: seq<Pplns.Line>): seq<Entry> {
    if lines == [] then []
    else
      var l := lines[|lines| - 1];
      CreditEntries(b, lines[..|lines| - 1]) + [Entry(MinerConfirmed, Some(l.miner), l.credit, AllocCredit(b, l.miner))]
  }

  /** The ledger rows of one allocation, in the order they are posted. */
  function Entries(p: Plan): seq<Entry> {
    CreditEntries(p.block, p.result.lines) + [Entry(PoolFee, None, p.result.fee, AllocFee(p.block))]
    + if p.result.rounding > 0 then [Entry(Rounding, None, p.result.rounding, AllocRounding(p.block))] else []
  }

  predicate Planned(plans: seq<Plan>, b: BlockId) {
    exists p | p in plans :: p.block == b
  }

  // ---------- payouts ----------

  function ConfirmedAmount(): R.Receipt -> int {
    (r: R.Receipt) => if r.confirmed && !r.voided then r.amount else 0
  }

  /** Income the solvency gate counts. */
  function Received(rs: seq<R.Receipt>): int {
    Sum(rs, ConfirmedAmount())
  }

  function Outputs(rows: seq<Item>): seq<Pay> {
    if rows == [] then [] else Outputs(rows[..|rows| - 1]) + [Pay(rows[|rows| - 1].miner, rows[|rows| - 1].amount)]
  }

  // ---------- steps ----------

  datatype Step =
    // environment
    | SetBlock(block: BlockId, state: BlockState)
    | ReadIncome(row: R.BlockRow, tip: nat, mined: Option<Chain.Block>, payout: Option<Chain.Block>, confirmations: nat)
    | WriteIncome(which: nat)
    | Approve(batch: BatchId)
    | Reorganise(onChain: set<TxHash>)
    // allocateMatureBlock
    | ReadReceipt(pid: nat, block: BlockId)
    | TakeGuard(pid: nat)
    | Revert(pid: nat)
    | SavePlan(pid: nat, input: Pplns.Input)
    | PostNext(pid: nat)
    | StopAllocating(pid: nat)
    // runOnce
    | Propose(batch: BatchId, candidates: seq<Candidate>, limits: Limits, dailySpent: nat)
    | Release(batch: BatchId)
    | Sign(pid: nat, batch: BatchId, hash: TxHash)
    | Save(pid: nat, fee: Option<nat>)
    | Broadcast(pid: nat)
    | Record(pid: nat)
    | StopPaying(pid: nat)
    | SeePending(batch: BatchId)
    | SeeCommitted(batch: BatchId, fee: Option<nat>)
    | Forfeit(miner: Miner, rowId: nat -> nat)

  predicate WasSent(sent: seq<Tx>, h: TxHash) {
    exists t | t in sent :: t.hash == h
  }

  predicate Enabled(s: State, step: Step) {
    match step
    case SetBlock(_, st) => st != SettledToLedger
    case ReadIncome(row, tip, mined, payout, _) =>
      row.height + R.REWARD_DELAY_BLOCKS <= tip && R.Finding(row, mined, payout).Some?
    case WriteIncome(i) => i < |s.reading|
    case Approve(_) => true
    case Reorganise(onChain) => forall h | h in onChain :: WasSent(s.sent, h)
    case ReadReceipt(p, b) => p !in s.allocating && RewardFor(s.receipts, b).Some?
    case TakeGuard(p) => p in s.allocating && s.allocating[p].Holding?
    case Revert(p) => p in s.allocating && s.allocating[p].Guarded?
    case SavePlan(p, input) =>
      p in s.allocating && s.allocating[p].Guarded? && input.reward == s.allocating[p].reward && 0 <= input.feeBps <= Pplns.BASIS_POINTS
    case PostNext(p) => p in s.allocating && s.allocating[p].Posting?
    case StopAllocating(p) => p in s.allocating
    case Propose(b, _, _, _) => b !in s.wallet.batches
    case Release(_) => true
    case Sign(p, b, _) => p !in s.paying && Payable(s.wallet, b) != []
    case Save(p, _) => p in s.paying && s.paying[p].Signed?
    case Broadcast(p) => p in s.paying && s.paying[p].Saved?
    case Record(p) => p in s.paying && s.paying[p].Sent?
    case StopPaying(p) => p in s.paying
    case SeePending(_) => true
    case SeeCommitted(_, _) => true
    case Forfeit(_, _) => true
  }

  function Next(s: State, step: Step): State
    requires Enabled(s, step)
  {
    match step
    case SetBlock(b, st) => s.(blocks := s.blocks[b := st])
    case ReadIncome(row, tip, mined, payout, confirmations) =>
      s.(reading := s.reading + [R.Read(s.receipts, R.Finding(row, mined, payout).value, R.Deep(row, tip, confirmations))])
    case WriteIncome(i) =>
      s.(receipts := R.Write(s.receipts, s.reading[i]), reading := s.reading[..i] + s.reading[i + 1..])
    case Approve(b) => s.(wallet := Payouts.Approve(s.wallet, b))
    case Reorganise(onChain) => s.(onChain := onChain)
    case ReadReceipt(p, b) =>
      s.(allocating := s.allocating[p := Holding(b, RewardFor(s.receipts, b).value)])
    case TakeGuard(p) => GuardTaken(s, p)
    case Revert(p) =>
      s.(blocks := s.blocks[s.allocating[p].block := Mature], allocating := s.allocating - {p})
    case SavePlan(p, input) => PlanSaved(s, p, input)
    case PostNext(p) => NextPosted(s, p)
    case StopAllocating(p) => s.(allocating := s.allocating - {p})
    case Propose(b, candidates, limits, spent) =>
      s.(wallet := CreateBatch(s.wallet, Received(s.receipts), b, candidates, limits, spent))
    case Release(b) => s.(wallet := ReserveReleased(s.wallet, Received(s.receipts), b))
    case Sign(p, b, h) => s.(paying := s.paying[p := Signed(Tx(h, b, Outputs(Payable(s.wallet, b))))])
    case Save(p, fee) => HashSaved(s, p, fee)
    case Broadcast(p) => s.(sent := s.sent + [s.paying[p].tx], paying := s.paying[p := Sent(s.paying[p].tx)])
    case Record(p) => s.(wallet := MarkBroadcast(s.wallet, s.paying[p].tx.batch), paying := s.paying - {p})
    case StopPaying(p) => s.(paying := s.paying - {p})
    case SeePending(b) => s.(wallet := MarkSeen(s.wallet, b))
    case SeeCommitted(b, fee) => s.(wallet := CommitConfirmed(s.wallet, b, fee))
    case Forfeit(m, rowId) => s.(wallet := ForfeitOne(s.wallet, m, rowId))
  }

  /** UPDATE blocks SET state = 'ALLOCATED' WHERE id = b AND state = 'MATURE'. */
  function GuardTaken(s: State, p: nat): State
    requires p in s.allocating && s.allocating[p].Holding?
  {
    var Holding(b, reward) := s.allocating[p];
    if b in s.blocks && s.blocks[b] == Mature
    then s.(blocks := s.blocks[b := Allocated], allocating := s.allocating[p := Guarded(b, reward)])
    else s.(allocating := s.allocating - {p})
  }

  /** INSERT INTO block_allocations .. ON CONFLICT (block_id) DO NOTHING; a thrown error ends the run. */
  function PlanSaved(s: State, p: nat, input: Pplns.Input): State
    requires p in s.allocating && s.allocating[p].Guarded? && input.reward == s.allocating[p].reward
  {
    var Guarded(b, reward) := s.allocating[p];
    var result := Pplns.Allocate(input);
    if result.Err? || Planned(s.plans, b) then s.(allocating := s.allocating - {p})
    else
      var plan := Plan(b, reward, result.value);
      s.(plans := s.plans + [plan], allocating := s.allocating[p := Posting(plan, 0)])
  }

  /** The next ledger row, or the final state once all are posted. */
  function NextPosted(s: State, p: nat): State
    requires p in s.allocating && s.allocating[p].Posting?
  {
    var Posting(plan, done) := s.allocating[p];
    if done < |Entries(plan)|
    then s.(wallet := s.wallet.(ledger := Post(s.wallet.ledger, Entries(plan)[done])),
            allocating := s.allocating[p := Posting(plan, done + 1)])
    else s.(blocks := s.blocks[plan.block := SettledToLedger], allocating := s.allocating - {p})
  }

  /** The hash goes to the database before the transaction goes to the node; a refused update throws. */
  function HashSaved(s: State, p: nat, fee: Option<nat>): State
    requires p in s.paying && s.paying[p].Signed?
  {
    var tx := s.paying[p].tx;
    if CanSave(s.wallet, tx.batch, tx.hash)
    then s.(wallet := SaveBuilt(s.wallet, tx.batch, tx.hash, fee), paying := s.paying[p := Saved(tx)])
    else s.(paying := s.paying - {p})
  }

  function Start(): State {
    State(map[], [], [], [], map[], Wallet([], map[], []), map[], [], {})
  }

  ghost predicate Run(states: seq<State>, steps: seq<Step>) {
    && |states| == |steps| + 1 && states[0] == Start()
    && forall i | 0 <= i < |steps| :: Enabled(states[i], steps[i]) && states[i + 1] == Next(states[i], steps[i])
  }
}
