/**
 Runs of the pool from its start that show what the theorems over every run have to leave open: a reconciler pass
 overtaken by an allocation ends in insolvency, and a reorganisation ends with less delivered than is called PAID.
 */
module PoolScenarios {
  import opened Wrappers
  import opened Sums
  import opened Ledger
  import opened Payouts
  import opened Pool
  import opened PoolAllocation
  import opened PoolPayments
  import opened PoolSolvency
  import CellbaseWitness
  import Pplns
  import Sorting
  import R = Reconciler
  import O = OverlappingPasses

  /** A run of these steps from the start ends in state s. */
  ghost predicate Reaches(steps: seq<Step>, s: State) {
    exists states :: Run(states, steps) && states[|steps|] == s
  }

  lemma ReachesStart()
    ensures Reaches([], Start())
  {
    assert Run([Start()], []);
  }

  lemma ReachesNext(steps: seq<Step>, s: State, step: Step, s': State)
    requires Reaches(steps, s) && Enabled(s, step) && Next(s, step) == s'
    ensures Reaches(steps + [step], s')
  {
    hide Enabled, Next, Start;
    var states :| Run(states, steps) && states[|steps|] == s;
    var more := states + [s'];
    forall i | 0 <= i < |steps| + 1 ensures Enabled(more[i], (steps + [step])[i]) && more[i + 1] == Next(more[i], (steps + [step])[i]) {
      if i < |steps| {
        assert more[i] == states[i] && more[i + 1] == states[i + 1] && (steps + [step])[i] == steps[i];
      }
    }
    assert Run(more, steps + [step]) && more[|steps + [step]|] == s';
  }

  // ---------- a block and its income ----------

  function Lock(): CellbaseWitness.Script {
    CellbaseWitness.Script(seq(32, _ => 0), CellbaseWitness.Data, [])
  }

  function WitnessHex(): (s: string)
    ensures CellbaseWitness.ParseCellbaseWitness(s) == Ok(CellbaseWitness.Witness(Lock(), []))
  {
    var w := CellbaseWitness.Witness(Lock(), []);
    CellbaseWitness.WitnessRoundTrip(w);
    "0x" + CellbaseWitness.ToHex(CellbaseWitness.EncodeWitness(w).value)
  }

  /** A pass at the given tip, with v the branch that holds the payout block. */
  function Reading(tip: nat, v: char): Step {
    ReadIncome(O.Row(), tip, Some(O.BlockOf(0, 'x', Lock(), WitnessHex())), Some(O.BlockOf(11, v, Lock(), WitnessHex())), 1)
  }

  function X(): R.Receipt {
    O.Found('x', Lock())
  }

  function Confirmed(): R.Receipt {
    X().(confirmed := true)
  }

  function Voided(): R.Receipt {
    X().(confirmed := true, voided := true)
  }

  /** Nothing but income so far. */
  function Earned(rs: seq<R.Receipt>, reading: seq<R.Pending>): State {
    Start().(receipts := rs, reading := reading)
  }

  lemma Finds(tip: nat, v: char)
    requires tip >= 11
    ensures R.Finding(O.Row(), Some(O.BlockOf(0, 'x', Lock(), WitnessHex())), Some(O.BlockOf(11, v, Lock(), WitnessHex()))) == Some(O.Found(v, Lock()))
  {
    O.Matches(Lock(), WitnessHex(), v);
    hide R.MatchReceipt, WitnessHex, Lock;
  }

  lemma Reads(rs: seq<R.Receipt>, reading: seq<R.Pending>, tip: nat, v: char)
    requires tip >= 11
    ensures Enabled(Earned(rs, reading), Reading(tip, v))
    ensures Next(Earned(rs, reading), Reading(tip, v)) == Earned(rs, reading + [R.Read(rs, O.Found(v, Lock()), tip >= 12)])
  {
    hide R.Finding, R.Read, O.Found, O.BlockOf, WitnessHex, Lock, CellbaseWitness.ParseCellbaseWitness;
    Finds(tip, v);
  }

  lemma Writes(rs: seq<R.Receipt>, reading: seq<R.Pending>, i: nat)
    requires i < |reading|
    ensures Enabled(Earned(rs, reading), WriteIncome(i))
    ensures Next(Earned(rs, reading), WriteIncome(i)) == Earned(R.Write(rs, reading[i]), reading[..i] + reading[i + 1..])
  {
    hide R.Write;
  }

  /** The pass that finds the payout block replaced for a moment. */
  function Stale(): R.Pending {
    R.Pending(O.Found('y', Lock()), false, Some(R.Seen(0, X())))
  }

  function OverlapSteps(): seq<Step> {
    [Reading(11, 'x'), WriteIncome(0), Reading(11, 'y'), Reading(12, 'x'), WriteIncome(1)]
  }

  function DeepX(): R.Pending {
    R.Pending(X(), true, Some(R.Seen(0, X())))
  }

  lemma FirstIncome()
    ensures Reaches([Reading(11, 'x'), WriteIncome(0)], Earned([X()], []))
  {
    hide Reaches, R.Write, R.Read, R.Finding, O.Found, O.BlockOf, Lock, WitnessHex, Reading, Enabled, Next, Earned;
    var first := R.Pending(X(), false, None);
    ReachesStart();
    Reads([], [], 11, 'x');
    O.ReadsNothing(X());
    assert [] + [first] == [first];
    Writes([], [first], 0);
    O.FirstWrite(Lock());
    StartIsEarned();
    ReachesNext([], Earned([], []), Reading(11, 'x'), Earned([], [first]));
    assert [first][..0] + [first][1..] == [] && [] + [Reading(11, 'x')] == [Reading(11, 'x')];
    ReachesNext([Reading(11, 'x')], Earned([], [first]), WriteIncome(0), Earned([X()], []));
    assert [Reading(11, 'x')] + [WriteIncome(0)] == [Reading(11, 'x'), WriteIncome(0)];
  }

  /** The receipt is confirmed, and a pass that saw it before is about to void it. */
  lemma OverlappingIncome()
    ensures Reaches(OverlapSteps(), Earned([Confirmed()], [Stale()]))
  {
    hide Reaches, R.Write, R.Read, R.Finding, O.Found, O.BlockOf, Lock, WitnessHex, Reading, Enabled, Next, Earned;
    FirstIncome();
    FoundBlocks();
    Reads([X()], [], 11, 'y');
    O.ReadsX(Lock(), O.Found('y', Lock()), false);
    Reads([X()], [Stale()], 12, 'x');
    O.ReadsX(Lock(), X(), true);
    Writes([X()], [Stale(), DeepX()], 1);
    O.DeepWrites(Lock());
    assert [] + [Stale()] == [Stale()] && [Stale()] + [DeepX()] == [Stale(), DeepX()];
    var two := [Reading(11, 'x'), WriteIncome(0)];
    ReachesNext(two, Earned([X()], []), Reading(11, 'y'), Earned([X()], [Stale()]));
    ReachesNext(two + [Reading(11, 'y')], Earned([X()], [Stale()]), Reading(12, 'x'), Earned([X()], [Stale(), DeepX()]));
    var four := two + [Reading(11, 'y')] + [Reading(12, 'x')];
    assert [Stale(), DeepX()][..1] + [Stale(), DeepX()][2..] == [Stale()];
    ReachesNext(four, Earned([X()], [Stale(), DeepX()]), WriteIncome(1), Earned([Confirmed()], [Stale()]));
    assert four + [WriteIncome(1)] == OverlapSteps();
  }

  lemma StartIsEarned()
    ensures Start() == Earned([], [])
  {
  }

  lemma FoundBlocks()
    ensures O.Found('y', Lock()).block == "block" && X().block == "block"
  {
  }

  lemma PromptPass()
    ensures R.Read([], X(), true) == R.Pending(X(), true, None)
    ensures R.Write([], R.Pending(X(), true, None)) == [Confirmed()]
  {
  }

  function PromptSteps(): seq<Step> {
    [Reading(12, 'x'), WriteIncome(0)]
  }

  /** One pass, deep enough to confirm at once. */
  lemma PromptIncome()
    ensures Reaches(PromptSteps(), Earned([Confirmed()], []))
  {
    hide Reaches, R.Write, R.Read, R.Finding, O.Found, O.BlockOf, Lock, WitnessHex, Reading, Enabled, Next, Earned;
    var first := R.Pending(X(), true, None);
    ReachesStart();
    Reads([], [], 12, 'x');
    PromptPass();
    assert [] + [first] == [first];
    Writes([], [first], 0);
    StartIsEarned();
    ReachesNext([], Earned([], []), Reading(12, 'x'), Earned([], [first]));
    assert [first][..0] + [first][1..] == [] && [] + [Reading(12, 'x')] == [Reading(12, 'x')];
    ReachesNext([Reading(12, 'x')], Earned([], [first]), WriteIncome(0), Earned([Confirmed()], []));
    assert [Reading(12, 'x')] + [WriteIncome(0)] == PromptSteps();
  }

  // ---------- its allocation ----------

  function OneShare(): Pplns.Share {
    Pplns.Share("share", "miner", 1)
  }

  function PplnsInput(): Pplns.Input {
    Pplns.Input(1, 0, 2, 1, 1, [OneShare()])
  }

  function OnePlan(): Plan {
    Plan("block", 1, Pplns.Allocation([Pplns.Line("miner", 1, 1)], 1, 0, 0, "share", "share"))
  }

  lemma OneTerm<T>(x: T, f: T -> int)
    ensures Sum([x], f) == f(x)
  {
    SumSnoc([], x, f);
    assert [] + [x] == [x];
  }

  lemma OneKey()
    ensures Pplns.Keys([OneShare()]) == ["miner"]
  {
    assert [OneShare()][..0] == [];
    assert Pplns.Keys([]) == [];
  }

  lemma OneSorted(m: string, before: (string, string) -> bool)
    ensures Sorting.Sort([m], before) == [m]
  {
    assert [m][..0] == [];
  }

  lemma OneMiner()
    ensures Pplns.Miners([OneShare()]) == ["miner"] && Pplns.Total([OneShare()]) == 1 && Pplns.WorkOf([OneShare()])("miner") == 1
  {
    OneKey();
    OneSorted("miner", Sorting.Less);
    OneTerm(OneShare(), Pplns.Work());
    OneTerm(OneShare(), At(Pplns.MinerOf(), Pplns.Work(), "miner"));
    hide Pplns.Keys, Sorting.Sort, Sorting.Less, Sum;
  }

  lemma WholeWindow()
    ensures Pplns.Window(PplnsInput()) == [OneShare()]
  {
  }

  lemma OneCredit()
    ensures Pplns.Total([OneShare()]) == 1 && Pplns.Leftover(1, [OneShare()]) == 0 && Pplns.Extras(1, [OneShare()]) == 0
    ensures Pplns.CreditOf(1, [OneShare()])("miner") == 1
  {
    var w := [OneShare()];
    OneMiner();
    hide Pplns.Miners, Pplns.WorkOf, Pplns.Total, Pplns.Ranked;
    OneTerm("miner", Pplns.FloorOf(1, w));
    assert Pplns.FloorOf(1, w)("miner") == 1;
    assert Pplns.Ranked(1, w)[..0] == [];
  }

  lemma AllToOne()
    ensures Pplns.Allocate(PplnsInput()) == Ok(OnePlan().result)
  {
    var w := [OneShare()];
    OneMiner();
    WholeWindow();
    OneCredit();
    assert Pplns.Fee(PplnsInput()) == 0;
    hide Pplns.Window, Pplns.Leftover, Pplns.Extras, Pplns.CreditOf, Pplns.WorkOf, Pplns.Miners, Pplns.Total, Pplns.Fee;
    assert Pplns.Lines(["miner"], Pplns.WorkOf(w), Pplns.CreditOf(1, w)) == [Pplns.Line("miner", 1, 1)];
  }

  function CreditRow(): Entry {
    Entry(MinerConfirmed, Some("miner"), 1, AllocCredit("block", "miner"))
  }

  function FeeRow(): Entry {
    Entry(PoolFee, None, 0, AllocFee("block"))
  }

  lemma PlanEntries()
    ensures Entries(OnePlan()) == [CreditRow(), FeeRow()]
  {
    assert OnePlan().result.lines[..0] == [];
    assert CreditEntries("block", []) == [];
  }

  function Books(l: seq<Entry>): Wallet {
    Wallet(l, map[], [])
  }

  /** On the way to a settled block. */
  function Allocated(rs: seq<R.Receipt>, reading: seq<R.Pending>, st: BlockState, plans: seq<Plan>, allocating: map<nat, Allocating>, l: seq<Entry>): State {
    Earned(rs, reading).(blocks := map["block" := st], plans := plans, allocating := allocating, wallet := Books(l))
  }

  function AllocationSteps(): seq<Step> {
    [SetBlock("block", Mature), ReadReceipt(0, "block"), TakeGuard(0), SavePlan(0, PplnsInput()), PostNext(0), PostNext(0), PostNext(0)]
  }

  function Settled(rs: seq<R.Receipt>, reading: seq<R.Pending>): State {
    Allocated(rs, reading, SettledToLedger, [OnePlan()], map[], [CreditRow(), FeeRow()])
  }

  lemma Guards(steps: seq<Step>, reading: seq<R.Pending>)
    requires Reaches(steps, Earned([Confirmed()], reading))
    ensures Reaches(steps + AllocationSteps()[..3], Allocated([Confirmed()], reading, BlockState.Allocated, [], map[0 := Guarded("block", 1)], []))
  {
    hide Reaches, O.Found, Lock, PplnsInput, RewardFor;
    var rs, st := [Confirmed()], AllocationSteps();
    ConfirmedReward();
    var s0, s1 := Earned(rs, reading), Allocated(rs, reading, Mature, [], map[], []);
    var s2 := Allocated(rs, reading, Mature, [], map[0 := Holding("block", 1)], []);
    var s3 := Allocated(rs, reading, BlockState.Allocated, [], map[0 := Guarded("block", 1)], []);
    assert Enabled(s0, st[0]) && Next(s0, st[0]) == s1;
    assert Enabled(s1, st[1]) && Next(s1, st[1]) == s2;
    assert Enabled(s2, st[2]) && Next(s2, st[2]) == s3;
    hide *;
    ReachesNext(steps, s0, st[0], s1);
    ReachesNext(steps + [st[0]], s1, st[1], s2);
    ReachesNext(steps + [st[0]] + [st[1]], s2, st[2], s3);
    assert steps + [st[0]] + [st[1]] + [st[2]] == steps + st[..3];
  }

  lemma ConfirmedReward()
    ensures RewardFor([Confirmed()], "block") == Some(1)
  {
  }

  lemma Saves(steps: seq<Step>, reading: seq<R.Pending>)
    requires Reaches(steps, Allocated([Confirmed()], reading, BlockState.Allocated, [], map[0 := Guarded("block", 1)], []))
    ensures Reaches(steps + [AllocationSteps()[3]], PostingState(reading, 0, []))
  {
    hide Pplns.Allocate, Reaches, O.Found, Lock;
    var rs := [Confirmed()];
    var s3 := Allocated(rs, reading, BlockState.Allocated, [], map[0 := Guarded("block", 1)], []);
    var s4 := Allocated(rs, reading, BlockState.Allocated, [OnePlan()], map[0 := Posting(OnePlan(), 0)], []);
    AllToOne();
    assert Enabled(s3, SavePlan(0, PplnsInput())) && Next(s3, SavePlan(0, PplnsInput())) == s4;
    hide *;
    ReachesNext(steps, s3, SavePlan(0, PplnsInput()), s4);
    FourthStep();
  }

  lemma FourthStep()
    ensures var st := AllocationSteps();
      |st| == 7 && st[3] == SavePlan(0, PplnsInput()) && st[4] == PostNext(0) && st[5] == PostNext(0) && st[6] == PostNext(0)
  {
  }

  function PostingState(reading: seq<R.Pending>, done: nat, l: seq<Entry>): State {
    Allocated([Confirmed()], reading, BlockState.Allocated, [OnePlan()], map[0 := Posting(OnePlan(), done)], l)
  }

  lemma PostsRow(reading: seq<R.Pending>, done: nat, l: seq<Entry>)
    requires done < |Entries(OnePlan())| && !Posted(l, Entries(OnePlan())[done].key)
    ensures Enabled(PostingState(reading, done, l), PostNext(0))
    ensures Next(PostingState(reading, done, l), PostNext(0)) == PostingState(reading, done + 1, l + [Entries(OnePlan())[done]])
  {
    hide Entries, OnePlan, Confirmed, Posted;
  }

  lemma PostsLast(reading: seq<R.Pending>, l: seq<Entry>)
    requires l == [CreditRow(), FeeRow()]
    ensures Enabled(PostingState(reading, |Entries(OnePlan())|, l), PostNext(0))
    ensures Next(PostingState(reading, |Entries(OnePlan())|, l), PostNext(0)) == Settled([Confirmed()], reading)
  {
    PlanBlock();
    hide Entries, OnePlan, Confirmed, Posted, CreditRow, FeeRow;
  }

  lemma Posts(steps: seq<Step>, reading: seq<R.Pending>)
    requires Reaches(steps, PostingState(reading, 0, []))
    ensures Reaches(steps + AllocationSteps()[4..], Settled([Confirmed()], reading))
  {
    FourthStep();
    PlanEntries();
    hide Entries, Reaches, Enabled, Next, PostingState, OnePlan, AllocationSteps, Settled;
    var p := PostNext(0);
    PostsRow(reading, 0, []);
    assert [] + [CreditRow()] == [CreditRow()] && [CreditRow()] + [FeeRow()] == [CreditRow(), FeeRow()];
    PostsRow(reading, 1, [CreditRow()]);
    PostsLast(reading, [CreditRow(), FeeRow()]);
    ReachesNext(steps, PostingState(reading, 0, []), p, PostingState(reading, 1, [CreditRow()]));
    ReachesNext(steps + [p], PostingState(reading, 1, [CreditRow()]), p, PostingState(reading, 2, [CreditRow(), FeeRow()]));
    ReachesNext(steps + [p] + [p], PostingState(reading, 2, [CreditRow(), FeeRow()]), p, Settled([Confirmed()], reading));
    assert steps + [p] + [p] + [p] == steps + AllocationSteps()[4..];
  }

  lemma PlanBlock()
    ensures OnePlan().block == "block"
  {
  }

  /** The confirmed receipt is divided and booked in full. */
  lemma Allocates(steps: seq<Step>, reading: seq<R.Pending>)
    requires Reaches(steps, Earned([Confirmed()], reading))
    ensures Reaches(steps + AllocationSteps(), Settled([Confirmed()], reading))
  {
    FourthStep();
    hide *;
    Guards(steps, reading);
    Saves(steps + AllocationSteps()[..3], reading);
    Posts(steps + AllocationSteps()[..3] + [AllocationSteps()[3]], reading);
    assert steps + AllocationSteps()[..3] + [AllocationSteps()[3]] + AllocationSteps()[4..] == steps + AllocationSteps();
  }

  // ---------- insolvency ----------

  lemma OwesOne()
    ensures Owed([CreditRow(), FeeRow()]) == 1
  {
    var f := In({MinerConfirmed, MinerPending});
    SumSnoc([], CreditRow(), f);
    SumSnoc([CreditRow()], FeeRow(), f);
    assert [] + [CreditRow()] == [CreditRow()];
    assert [CreditRow()] + [FeeRow()] == [CreditRow(), FeeRow()];
  }

  /**
   A run from the start in which the pass that saw the tip replaced for a moment voids the receipt after another
   pass has confirmed it and its block is settled: the ledger then owes more than was received.
   */
  lemma OverlapCausesInsolvency()
    ensures Reaches(OverlapSteps() + AllocationSteps() + [WriteIncome(0)], Settled([Voided()], []))
    ensures Owed(Settled([Voided()], []).wallet.ledger) == 1 > Received(Settled([Voided()], []).receipts) == 0
  {
    OwesOne();
    OneTerm(Voided(), ConfirmedAmount());
    OverlappingIncome();
    hide Reaches, Owed, Sum, OverlapSteps, AllocationSteps;
    Allocates(OverlapSteps(), [Stale()]);
    O.StaleWrites(Lock());
    var s, s' := Settled([Confirmed()], [Stale()]), Settled([Voided()], []);
    hide R.Write, O.Found, Lock, OnePlan, CreditRow, FeeRow;
    assert [Stale()][..0] + [Stale()][1..] == [];
    assert Enabled(s, WriteIncome(0)) && Next(s, WriteIncome(0)) == s';
    ReachesNext(OverlapSteps() + AllocationSteps(), s, WriteIncome(0), s');
  }

  // ---------- a payment lost ----------

  function TheItem(st: ItemState): Item {
    Item("batch", "miner", 1, st)
  }

  function TheTx(): Tx {
    Tx("hash", "batch", [Pay("miner", 1)])
  }

  function PaymentSteps(): seq<Step> {
    [Propose("batch", [Candidate("miner", 1, false)], Limits(1, 1, 1, 1), 0), Sign(0, "batch", "hash"), Save(0, Some(0)), Broadcast(0),
     Record(0), Reorganise({"hash"}), SeeCommitted("batch", None), Reorganise({})]
  }

  function Reserved(): seq<Entry> {
    [CreditRow(), FeeRow(), ReserveOut(TheItem(ItemReserved)), ReserveIn(TheItem(ItemReserved))]
  }

  function PaidRows(): seq<Entry> {
    Reserved() + [PayIn(TheItem(ItemBroadcast)), PayOut(TheItem(ItemBroadcast)), Entry(TxFee, None, 0, BatchFee("batch"))]
  }

  /** The state with the batch so far. */
  function WithBatch(l: seq<Entry>, batch: Batch, st: ItemState, paying: map<nat, Paying>, sent: seq<Tx>, onChain: set<TxHash>): State {
    Settled([Confirmed()], []).(wallet := Wallet(l, map["batch" := batch], [TheItem(st)]), paying := paying, sent := sent, onChain := onChain)
  }

  function PaymentStage(k: nat): State
    requires 0 < k <= 8
  {
    var none, some := Batch(BatchReserved, false, None, None), (st: BatchState) => Batch(st, false, Some("hash"), Some(0));
    if k == 1 then WithBatch(Reserved(), none, ItemReserved, map[], [], {})
    else if k == 2 then WithBatch(Reserved(), none, ItemReserved, map[0 := Signed(TheTx())], [], {})
    else if k == 3 then WithBatch(Reserved(), some(BatchBuilt), ItemReserved, map[0 := Saved(TheTx())], [], {})
    else if k == 4 then WithBatch(Reserved(), some(BatchBuilt), ItemReserved, map[0 := Sent(TheTx())], [TheTx()], {})
    else if k == 5 then WithBatch(Reserved(), some(BatchBroadcast), ItemBroadcast, map[], [TheTx()], {})
    else if k == 6 then WithBatch(Reserved(), some(BatchBroadcast), ItemBroadcast, map[], [TheTx()], {"hash"})
    else if k == 7 then WithBatch(PaidRows(), some(BatchConfirmed), ItemConfirmed, map[], [TheTx()], {"hash"})
    else WithBatch(PaidRows(), some(BatchConfirmed), ItemConfirmed, map[], [TheTx()], {})
  }

  lemma Proposal()
    ensures CreateBatch(Books([CreditRow(), FeeRow()]), 1, "batch", [Candidate("miner", 1, false)], Limits(1, 1, 1, 1), 0)
      == Wallet(Reserved(), map["batch" := Batch(BatchReserved, false, None, None)], [TheItem(ItemReserved)])
  {
    var l, c, limits := [CreditRow(), FeeRow()], Candidate("miner", 1, false), Limits(1, 1, 1, 1);
    OwesOne();
    OneChosen(ItemHeld);
    OneChosen(ItemReserved);
    OneTerm(TheItem(ItemHeld), Amount);
    TwoRows(l);
    hide Chosen, Owed, Sum, Balance, PostAll, AllReserveEntries, Posted, Reserved, CreditRow, FeeRow;
    assert Truncated([c], limits) == [c];
  }

  lemma Proposes()
    ensures Enabled(Settled([Confirmed()], []), PaymentSteps()[0])
    ensures Next(Settled([Confirmed()], []), PaymentSteps()[0]) == PaymentStage(1)
  {
    Proposal();
    OneTerm(Confirmed(), ConfirmedAmount());
    hide CreateBatch, Sum, CreditRow, FeeRow, OnePlan, Reserved, Lock;
  }

  lemma HasOne()
    ensures Balance([CreditRow(), FeeRow()], MinerConfirmed, "miner") == 1
  {
    var f := Of(MinerConfirmed, "miner");
    SumSnoc([], CreditRow(), f);
    SumSnoc([CreditRow()], FeeRow(), f);
    assert [] + [CreditRow()] == [CreditRow()];
    assert [CreditRow()] + [FeeRow()] == [CreditRow(), FeeRow()];
  }

  lemma OneChosen(st: ItemState)
    ensures Chosen([CreditRow(), FeeRow()], [Candidate("miner", 1, false)], Limits(1, 1, 1, 1), "batch", st) == [TheItem(st)]
  {
    HasOne();
    hide Balance;
    var cs := [Candidate("miner", 1, false)];
    assert cs[..0] == [];
    assert Chosen([CreditRow(), FeeRow()], [], Limits(1, 1, 1, 1), "batch", st) == [];
  }

  lemma TwoRows(l: seq<Entry>)
    requires l == [CreditRow(), FeeRow()]
    ensures PostAll(l, AllReserveEntries([TheItem(ItemReserved)])) == Reserved()
  {
    var i := TheItem(ItemReserved);
    assert [i][..0] == [] && AllReserveEntries([]) == [];
    assert AllReserveEntries([i]) == [ReserveOut(i), ReserveIn(i)];
    assert [ReserveOut(i), ReserveIn(i)][..1] == [ReserveOut(i)] && [ReserveOut(i)][..0] == [];
    assert PostAll(l, []) == l;
    assert PostAll(l, [ReserveOut(i)]) == l + [ReserveOut(i)];
  }

  lemma ItemRows()
    ensures forall st, st' :: Select([TheItem(st)], "batch", st') == if st == st' then [TheItem(st)] else []
    ensures forall st, from, to :: Move([TheItem(st)], "batch", from, to) == [TheItem(if st == from then to else st)]
    ensures forall st :: ConfirmItems([TheItem(st)], "batch") == [TheItem(ItemConfirmed)]
    ensures forall st :: OfBatch([TheItem(st)], "batch") == [TheItem(st)]
  {
    forall st ensures [TheItem(st)][..0] == [] {
    }
  }

  lemma Pays()
    ensures Outputs([TheItem(ItemReserved)]) == [Pay("miner", 1)]
  {
    assert [TheItem(ItemReserved)][..0] == [];
    assert Outputs([]) == [];
  }

  lemma Signs()
    ensures Enabled(PaymentStage(1), PaymentSteps()[1]) && Next(PaymentStage(1), PaymentSteps()[1]) == PaymentStage(2)
  {
    ItemRows();
    Pays();
    hide Select, Move, ConfirmItems, OfBatch, Outputs, Reserved, PaidRows, Settled;
  }

  lemma SavesHash()
    ensures Enabled(PaymentStage(2), PaymentSteps()[2]) && Next(PaymentStage(2), PaymentSteps()[2]) == PaymentStage(3)
  {
    SavedWallet();
    hide CanSave, SaveBuilt, Reserved, PaidRows, Settled;
  }

  lemma SavedWallet()
    ensures CanSave(PaymentStage(2).wallet, "batch", "hash")
    ensures SaveBuilt(PaymentStage(2).wallet, "batch", "hash", Some(0)) == PaymentStage(3).wallet
  {
    hide Reserved, PaidRows, Settled;
  }

  lemma Sends()
    ensures Enabled(PaymentStage(3), PaymentSteps()[3]) && Next(PaymentStage(3), PaymentSteps()[3]) == PaymentStage(4)
  {
    hide Reserved, PaidRows, Settled;
  }

  lemma Records()
    ensures Enabled(PaymentStage(4), PaymentSteps()[4]) && Next(PaymentStage(4), PaymentSteps()[4]) == PaymentStage(5)
  {
    RecordedWallet();
    hide MarkBroadcast, Reserved, PaidRows, Settled;
  }

  lemma RecordedWallet()
    ensures MarkBroadcast(PaymentStage(4).wallet, "batch") == PaymentStage(5).wallet
  {
    ItemRows();
    hide Move, Reserved, PaidRows, Settled;
  }

  lemma Lands()
    ensures Enabled(PaymentStage(5), PaymentSteps()[5]) && Next(PaymentStage(5), PaymentSteps()[5]) == PaymentStage(6)
  {
    hide Reserved, PaidRows, Settled;
  }

  lemma OneMore(l: seq<Entry>, es: seq<Entry>, e: Entry)
    requires PostAll(l, es) == l + es && !Posted(l + es, e.key)
    ensures PostAll(l, es + [e]) == l + (es + [e])
  {
    assert (es + [e])[..|es|] == es;
  }

  lemma BooksThree(l: seq<Entry>, a: Entry, b: Entry, c: Entry)
    requires !Posted(l, a.key) && !Posted(l, b.key) && !Posted(l, c.key) && a.key != b.key && a.key != c.key && b.key != c.key
    ensures PostAll(l, [a, b] + [c]) == l + [a, b, c]
  {
    hide PostAll;
    NoneMore(l);
    OneMore(l, [], a);
    OneMore(l, [] + [a], b);
    assert [] + [a] + [b] == [a, b];
    OneMore(l, [a, b], c);
    assert [a, b] + [c] == [a, b, c];
  }

  lemma BooksPaid()
    ensures PostAll(Reserved(), AllPaidEntries([TheItem(ItemBroadcast)]) + [Entry(TxFee, None, 0, BatchFee("batch"))]) == PaidRows()
  {
    var i := TheItem(ItemBroadcast);
    assert [i][..0] == [] && AllPaidEntries([]) == [];
    assert AllPaidEntries([i]) == [PayIn(i), PayOut(i)];
    hide PostAll, AllPaidEntries;
    BooksThree(Reserved(), PayIn(i), PayOut(i), Entry(TxFee, None, 0, BatchFee("batch")));
  }

  lemma NoneMore(l: seq<Entry>)
    ensures PostAll(l, []) == l + []
  {
  }

  lemma Commits()
    ensures Enabled(PaymentStage(6), PaymentSteps()[6]) && Next(PaymentStage(6), PaymentSteps()[6]) == PaymentStage(7)
  {
    CommittedWallet();
    hide CommitConfirmed, Reserved, PaidRows, Settled;
  }

  lemma CommittedWallet()
    ensures CommitConfirmed(PaymentStage(6).wallet, "batch", None) == PaymentStage(7).wallet
  {
    ItemRows();
    BooksPaid();
    hide ConfirmItems, OfBatch, Reserved, PaidRows, Settled, PostAll, AllPaidEntries;
  }

  lemma TakesBack()
    ensures Enabled(PaymentStage(7), PaymentSteps()[7]) && Next(PaymentStage(7), PaymentSteps()[7]) == PaymentStage(8)
  {
    hide Reserved, PaidRows, Settled;
  }

  lemma PaymentList()
    ensures |PaymentSteps()| == 8
  {
  }

  /** A run from the start that pays one miner and then loses the payment. */
  lemma PaymentRun()
    ensures Reaches(PromptSteps() + AllocationSteps() + PaymentSteps(), PaymentStage(8))
  {
    PaymentList();
    var before, st := PromptSteps() + AllocationSteps(), PaymentSteps();
    hide *;
    PromptIncome();
    Allocates(PromptSteps(), []);
    Proposes();
    Signs();
    SavesHash();
    Sends();
    Records();
    Lands();
    Commits();
    TakesBack();
    assert before + st[..0] == before;
    ReachesStep(before, 0, Settled([Confirmed()], []), PaymentStage(1));
    ReachesStep(before, 1, PaymentStage(1), PaymentStage(2));
    ReachesStep(before, 2, PaymentStage(2), PaymentStage(3));
    ReachesStep(before, 3, PaymentStage(3), PaymentStage(4));
    ReachesStep(before, 4, PaymentStage(4), PaymentStage(5));
    ReachesStep(before, 5, PaymentStage(5), PaymentStage(6));
    ReachesStep(before, 6, PaymentStage(6), PaymentStage(7));
    ReachesStep(before, 7, PaymentStage(7), PaymentStage(8));
    assert st[..8] == st;
  }

  lemma ReachesStep(before: seq<Step>, k: nat, s: State, s': State)
    requires k < |PaymentSteps()| && Reaches(before + PaymentSteps()[..k], s)
    requires Enabled(s, PaymentSteps()[k]) && Next(s, PaymentSteps()[k]) == s'
    ensures Reaches(before + PaymentSteps()[..k + 1], s')
  {
    hide *;
    var st := PaymentSteps();
    ReachesNext(before + st[..k], s, st[k], s');
    assert before + st[..k] + [st[k]] == before + st[..k + 1];
  }

  /**
   The same run, judged: the node's 'committed' answer was truthful and everything PAID was delivered, until the last
   step drops the transaction: then the miner's PAID balance is 1 and the chain pays nothing.
   */
  lemma ReorganisationTakesBack()
    ensures Reaches(PromptSteps() + AllocationSteps() + PaymentSteps(), PaymentStage(8))
    ensures Balance(PaymentStage(8).wallet.ledger, MinerPaid, "miner") == 1 > Delivered(PaymentStage(8), "miner") == 0
    ensures Delivered(PaymentStage(7), "miner") == 1
    ensures Truthful(PaymentStage(6), PaymentSteps()[6]) && !Truthful(PaymentStage(7), PaymentSteps()[7])
  {
    PaymentRun();
    PaidOne();
    OnlyLastUntruthful();
    OneTerm(TheTx(), Landed({}, "miner"));
    OneTerm(TheTx(), Landed({"hash"}, "miner"));
    OneTerm(Pay("miner", 1), PayTo("miner"));
    hide Reaches, Sum, Balance, Reserved, PaidRows, Settled, PromptSteps, AllocationSteps, Truthful;
  }

  lemma OnlyLastUntruthful()
    ensures Truthful(PaymentStage(6), PaymentSteps()[6]) && !Truthful(PaymentStage(7), PaymentSteps()[7])
  {
    hide Reserved, PaidRows, Settled;
    assert PaymentStage(7).wallet.batches["batch"].state == BatchConfirmed;
    assert OnChain(PaymentStage(7).wallet, PaymentStage(7).onChain, "batch");
  }

  lemma PaidOne()
    ensures Balance(PaidRows(), MinerPaid, "miner") == 1
  {
    var f, rows := Of(MinerPaid, "miner"), PaidRows();
    assert rows[..7] == rows && |rows| == 7;
    PaidSums(rows, 7);
  }

  /** Only the fifth row counts. */
  lemma {:induction false} PaidSums(rows: seq<Entry>, n: nat)
    requires rows == PaidRows() && n <= 7
    ensures Sum(rows[..n], Of(MinerPaid, "miner")) == if n >= 5 then 1 else 0
  {
    if n > 0 {
      PaidSums(rows, n - 1);
      SumSnoc(rows[..n - 1], rows[n - 1], Of(MinerPaid, "miner"));
      assert rows[..n] == rows[..n - 1] + [rows[n - 1]];
    }
  }
}
