/** Safety over every run of the pool: no crash, reorganisation, node answer or interleaving of steps breaks it. */
module PoolRuns {
  import opened Wrappers
  import opened Sums
  import opened Ledger
  import opened Payouts
  import opened PayoutInvariant
  import opened PayoutSteps
  import opened Pool
  import opened PoolAllocation
  import opened PoolPayouts
  import Chain
  import Pplns
  import R = Reconciler

  ghost predicate PoolInv(s: State) {
    AllocInv(s) && PayInv(s)
  }

  // ---------- allocation rows in the wallet ----------

  lemma OneRow(e: Entry, f: Entry -> int)
    ensures Sum([e], f) == f(e)
  {
    SumSnoc([], e, f);
    assert [] + [e] == [e];
  }

  lemma AllocRowWeights(e: Entry, b: BlockId, m: Miner)
    requires AllocRow(e, b)
    ensures Of(MinerConfirmed, m)(e) == CreditOf(m)(e) >= 0
    ensures Of(MinerPending, m)(e) == 0 && Of(MinerPaid, m)(e) == 0 && ForfeitedOf(m)(e) == 0
    ensures In(LIABILITIES)(e) == FromBlocks()(e)
  {
  }

  lemma AllocRowMiner(w: Wallet, e: Entry, b: BlockId, m: Miner)
    requires MinerOk(w, m) && AllocRow(e, b)
    ensures MinerOk(w.(ledger := w.ledger + [e]), m)
  {
    Grow(w.ledger, [e], m);
    OneRow(e, Of(MinerConfirmed, m));
    OneRow(e, Of(MinerPending, m));
    OneRow(e, Of(MinerPaid, m));
    OneRow(e, CreditOf(m));
    OneRow(e, ForfeitedOf(m));
    AllocRowWeights(e, b, m);
    hide Sum, AllocRow, Of, CreditOf, ForfeitedOf;
  }

  lemma AllocRowAmounts(l: seq<Entry>, e: Entry, b: BlockId)
    requires AmountsOk(l) && AllocRow(e, b)
    ensures AmountsOk(l + [e])
  {
    Grow(l, [e], "");
    OneRow(e, In(LIABILITIES));
    OneRow(e, FromBlocks());
    AllocRowWeights(e, b, "");
    hide Sum, In, FromBlocks;
  }

  lemma AllocRowKeys(w: Wallet, e: Entry, b: BlockId)
    requires KeysOk(w) && AllocRow(e, b)
    ensures KeysOk(w.(ledger := w.ledger + [e]))
  {
    var w' := w.(ledger := w.ledger + [e]);
    forall i | i in w'.items && i.state == ItemHeld ensures Unreserved(w'.ledger, i) {
      assert Unreserved(w.ledger, i);
    }
    forall f | f in w'.ledger && f.key.ForfeitFee? ensures Posted(w'.ledger, Ledger.Forfeit(f.key.miner, f.key.seen)) {
      assert f in w.ledger;
      var g :| g in w.ledger && g.key == Ledger.Forfeit(f.key.miner, f.key.seen);
      assert g in w'.ledger;
    }
  }

  lemma AllocRowKeepsInv(w: Wallet, e: Entry, b: BlockId)
    requires Inv(w) && AllocRow(e, b)
    ensures Inv(w.(ledger := w.ledger + [e]))
  {
    var w' := w.(ledger := w.ledger + [e]);
    Given(w);
    AllocRowKeys(w, e, b);
    AllocRowAmounts(w.ledger, e, b);
    forall m ensures MinerOk(w', m) {
      AllocRowMiner(w, e, b, m);
    }
    hide KeysOk, AmountsOk, MinerOk;
    Conclude(w');
  }

  lemma PostNextKeepsPay(s: State, pid: nat)
    requires PoolInv(s) && pid in s.allocating && s.allocating[pid].Posting?
    ensures PayInv(NextPosted(s, pid))
  {
    var Posting(p, done) := s.allocating[pid];
    Ready(s, pid);
    hide Inv, Entries, Proper, AllocInv, Recorded;
    if done < |Entries(p)| {
      NextIsNew(s.wallet.ledger, p, done);
      AllocRowKeepsInv(s.wallet, Entries(p)[done], p.block);
      var w' := s.wallet.(ledger := s.wallet.ledger + [Entries(p)[done]]);
      hide AllocRow, JobsOk, SentOk, ChainOk;
      LedgerLater(s.wallet, w');
      LaterKeepsPay(s, s.(wallet := w'));
    }
  }

  lemma LedgerLater(w: Wallet, w': Wallet)
    requires w'.items == w.items && w'.batches == w.batches
    ensures Later(w, w')
  {
  }

  // ---------- each step keeps the invariant ----------

  lemma WalletStepKeeps(s: State, w: Wallet)
    requires PoolInv(s) && Inv(w) && Later(s.wallet, w) && AppendsOther(s.wallet.ledger, w.ledger)
    ensures PoolInv(s.(wallet := w))
  {
    hide Inv, Later, AllocInv, AppendsOther, PayInv;
    OtherKeepsAlloc(s, s.(wallet := w));
    LaterKeepsPay(s, s.(wallet := w));
  }

  /** Allocation's invariant carries over to the state, whose payout side is the same. */
  lemma AllocStepKeeps(s: State, s': State)
    requires PoolInv(s) && AllocInv(s') && s'.wallet == s.wallet && s'.paying == s.paying && s'.sent == s.sent && s'.onChain == s.onChain
    ensures PoolInv(s')
  {
    hide AllocInv, Inv, JobsOk, SentOk, ChainOk;
  }

  /** The payout side's invariant carries over to the state, whose allocations are the same. */
  lemma PayStepKeeps(s: State, s': State)
    requires PoolInv(s) && PayInv(s') && AppendsOther(s.wallet.ledger, s'.wallet.ledger)
    requires s'.blocks == s.blocks && s'.receipts == s.receipts && s'.plans == s.plans && s'.allocating == s.allocating
    ensures PoolInv(s')
  {
    hide AllocInv, PayInv, AppendsOther;
    OtherKeepsAlloc(s, s');
  }

  lemma SameLedger(l: seq<Entry>)
    ensures AppendsOther(l, l)
  {
  }

  lemma Parts(s: State)
    requires PoolInv(s)
    ensures AllocInv(s) && PayInv(s) && Inv(s.wallet) && R.KeysOk(s.receipts)
  {
    hide PlansOk, ProcsOk, RowsOk, SettledOk, R.KeysOk, Inv, JobsOk, SentOk, ChainOk;
  }

  lemma ReorganiseKeeps(s: State, onChain: set<TxHash>)
    requires PoolInv(s) && forall h | h in onChain :: WasSent(s.sent, h)
    ensures PoolInv(s.(onChain := onChain))
  {
    FewerKeepAlloc(s, s.(onChain := onChain));
    hide AllocInv, Inv, JobsOk, SentOk;
  }

  lemma ApproveKeeps(s: State, b: BatchId)
    requires PoolInv(s)
    ensures PoolInv(s.(wallet := Payouts.Approve(s.wallet, b)))
  {
    hide *;
    Parts(s);
    ApproveKeepsInv(s.wallet, b);
    ApproveLater(s.wallet, b);
    WalletStepKeeps(s, Payouts.Approve(s.wallet, b));
  }

  /** Steps of the environment and of the reconciler. */
  lemma OutsideKeeps(s: State, step: Step)
    requires PoolInv(s) && Enabled(s, step)
    requires step.SetBlock? || step.ReadIncome? || step.WriteIncome? || step.Approve? || step.Reorganise?
    ensures PoolInv(Next(s, step))
  {
    hide AllocInv, PayInv, PoolInv, R.Finding, R.Read, R.Write, Payouts.Approve, WasSent;
    Parts(s);
    match step
    case SetBlock(b, st) =>
      FewerKeepAlloc(s, Next(s, step));
      AllocStepKeeps(s, Next(s, step));
    case ReadIncome(_, _, _, _, _) =>
      FewerKeepAlloc(s, Next(s, step));
      AllocStepKeeps(s, Next(s, step));
    case WriteIncome(i) =>
      IncomeKeepsAlloc(s, i);
      AllocStepKeeps(s, Next(s, step));
    case Approve(b) => ApproveKeeps(s, b);
    case Reorganise(onChain) => ReorganiseKeeps(s, onChain);
  }

  lemma ReadKeeps(s: State, p: nat, b: BlockId)
    requires AllocInv(s) && p !in s.allocating && RewardFor(s.receipts, b).Some?
    ensures AllocInv(s.(allocating := s.allocating[p := Holding(b, RewardFor(s.receipts, b).value)]))
  {
    RewardIsBacked(s.receipts, b);
    hide AllocInv, RewardFor, Recorded, Backed;
    MoveKeepsAlloc(s, s.(allocating := s.allocating[p := Holding(b, RewardFor(s.receipts, b).value)]), p, Holding(b, RewardFor(s.receipts, b).value));
  }

  /** Steps of allocateMatureBlock. */
  lemma AllocatingKeeps(s: State, step: Step)
    requires PoolInv(s) && Enabled(s, step)
    requires step.ReadReceipt? || step.TakeGuard? || step.Revert? || step.SavePlan? || step.PostNext? || step.StopAllocating?
    ensures PoolInv(Next(s, step))
  {
    hide AllocInv, PayInv, PoolInv, RewardFor, Pplns.Allocate, Planned, Entries, Post;
    Parts(s);
    match step
    case ReadReceipt(p, b) =>
      ReadKeeps(s, p, b);
      AllocStepKeeps(s, Next(s, step));
    case TakeGuard(p) =>
      GuardKeeps(s, p);
      AllocStepKeeps(s, Next(s, step));
    case Revert(p) =>
      FewerKeepAlloc(s, Next(s, step));
      AllocStepKeeps(s, Next(s, step));
    case SavePlan(p, input) =>
      SavePlanKeepsAlloc(s, p, input);
      AllocStepKeeps(s, Next(s, step));
    case PostNext(p) =>
      PostNextKeepsAlloc(s, p);
      PostNextKeepsPay(s, p);
      Together(NextPosted(s, p));
    case StopAllocating(p) =>
      FewerKeepAlloc(s, Next(s, step));
      AllocStepKeeps(s, Next(s, step));
  }

  lemma Together(s: State)
    requires AllocInv(s) && PayInv(s)
    ensures PoolInv(s)
  {
    hide AllocInv, PayInv;
  }

  lemma GuardKeeps(s: State, p: nat)
    requires AllocInv(s) && p in s.allocating && s.allocating[p].Holding?
    ensures AllocInv(GuardTaken(s, p))
  {
    var Holding(b, reward) := s.allocating[p];
    assert ProcOk(s.allocating[p], s.plans, s.wallet.ledger, s.receipts);
    hide AllocInv;
    if b in s.blocks && s.blocks[b] == Mature {
      MoveKeepsAlloc(s, s.(blocks := s.blocks[b := Allocated], allocating := s.allocating[p := Guarded(b, reward)]), p, Guarded(b, reward));
    } else {
      FewerKeepAlloc(s, s.(allocating := s.allocating - {p}));
    }
  }

  /** Steps of one processBatch. */
  lemma PayingKeeps(s: State, step: Step)
    requires PoolInv(s) && Enabled(s, step)
    requires step.Sign? || step.Save? || step.Broadcast? || step.Record? || step.StopPaying?
    ensures PoolInv(Next(s, step))
  {
    hide AllocInv, PayInv, PoolInv, Payable, Outputs, HashSaved, MarkBroadcast, AppendsOther;
    Parts(s);
    SameLedger(s.wallet.ledger);
    match step
    case Sign(p, b, h) =>
      SignKeepsPay(s, p, b, h);
      PayStepKeeps(s, Next(s, step));
    case Save(p, fee) =>
      SaveKeepsPay(s, p, fee);
      SaveKeepsOther(s, p, fee);
      PayStepKeeps(s, Next(s, step));
    case Broadcast(p) =>
      BroadcastKeepsPay(s, p);
      PayStepKeeps(s, Next(s, step));
    case Record(p) =>
      RecordKeepsPay(s, p);
      BroadcastLater(s.wallet, s.paying[p].tx.batch);
      PayStepKeeps(s, Next(s, step));
    case StopPaying(p) =>
      StopKeepsPay(s, p);
      PayStepKeeps(s, Next(s, step));
  }

  lemma SaveKeepsOther(s: State, p: nat, fee: Option<nat>)
    requires p in s.paying && s.paying[p].Signed?
    ensures var s' := HashSaved(s, p, fee);
      && AppendsOther(s.wallet.ledger, s'.wallet.ledger)
      && s'.blocks == s.blocks && s'.receipts == s.receipts && s'.plans == s.plans && s'.allocating == s.allocating
  {
    hide CanSave;
  }

  lemma ProposeKeeps(s: State, b: BatchId, cs: seq<Candidate>, limits: Limits, spent: nat)
    requires PoolInv(s) && b !in s.wallet.batches
    ensures PoolInv(s.(wallet := CreateBatch(s.wallet, Received(s.receipts), b, cs, limits, spent)))
  {
    hide *;
    Parts(s);
    CreateBatchKeepsInv(s.wallet, Received(s.receipts), b, cs, limits, spent);
    CreateLater(s.wallet, Received(s.receipts), b, cs, limits, spent);
    WalletStepKeeps(s, CreateBatch(s.wallet, Received(s.receipts), b, cs, limits, spent));
  }

  lemma ReleaseKeeps(s: State, b: BatchId)
    requires PoolInv(s)
    ensures PoolInv(s.(wallet := ReserveReleased(s.wallet, Received(s.receipts), b)))
  {
    hide *;
    Parts(s);
    ReserveReleasedKeepsInv(s.wallet, Received(s.receipts), b);
    ReleaseLater(s.wallet, Received(s.receipts), b);
    WalletStepKeeps(s, ReserveReleased(s.wallet, Received(s.receipts), b));
  }

  lemma SeenKeeps(s: State, b: BatchId)
    requires PoolInv(s)
    ensures PoolInv(s.(wallet := MarkSeen(s.wallet, b)))
  {
    hide *;
    Parts(s);
    MarkSeenKeepsInv(s.wallet, b);
    SeenLater(s.wallet, b);
    WalletStepKeeps(s, MarkSeen(s.wallet, b));
  }

  lemma CommittedKeeps(s: State, b: BatchId, fee: Option<nat>)
    requires PoolInv(s)
    ensures PoolInv(s.(wallet := CommitConfirmed(s.wallet, b, fee)))
  {
    hide *;
    Parts(s);
    CommitConfirmedKeepsInv(s.wallet, b, fee);
    CommitLater(s.wallet, b, fee);
    WalletStepKeeps(s, CommitConfirmed(s.wallet, b, fee));
  }

  lemma ForfeitKeeps(s: State, m: Miner, rowId: nat -> nat)
    requires PoolInv(s)
    ensures PoolInv(s.(wallet := ForfeitOne(s.wallet, m, rowId)))
  {
    hide *;
    Parts(s);
    ForfeitOneKeepsInv(s.wallet, m, rowId);
    ForfeitLater(s.wallet, m, rowId);
    WalletStepKeeps(s, ForfeitOne(s.wallet, m, rowId));
  }

  /** Steps of runOnce that are one transaction each. */
  lemma WalletKeeps(s: State, step: Step)
    requires PoolInv(s) && Enabled(s, step)
    requires step.Propose? || step.Release? || step.SeePending? || step.SeeCommitted? || step.Forfeit?
    ensures PoolInv(Next(s, step))
  {
    hide PoolInv, CreateBatch, ReserveReleased, MarkSeen, CommitConfirmed, ForfeitOne, Received;
    match step
    case Propose(b, cs, limits, spent) => ProposeKeeps(s, b, cs, limits, spent);
    case Release(b) => ReleaseKeeps(s, b);
    case SeePending(b) => SeenKeeps(s, b);
    case SeeCommitted(b, fee) => CommittedKeeps(s, b, fee);
    case Forfeit(m, rowId) => ForfeitKeeps(s, m, rowId);
  }

  lemma StepKeeps(s: State, step: Step)
    requires PoolInv(s) && Enabled(s, step)
    ensures PoolInv(Next(s, step))
  {
    hide *;
    if step.SetBlock? || step.ReadIncome? || step.WriteIncome? || step.Approve? || step.Reorganise? {
      OutsideKeeps(s, step);
    } else if step.Sign? || step.Save? || step.Broadcast? || step.Record? || step.StopPaying? {
      PayingKeeps(s, step);
    } else if step.Propose? || step.Release? || step.SeePending? || step.SeeCommitted? || step.Forfeit? {
      WalletKeeps(s, step);
    } else {
      AllocatingKeeps(s, step);
    }
  }

  lemma StartKeeps()
    ensures PoolInv(Start())
  {
  }

  /** The invariant holds in every state of every run. */
  lemma {:induction false} RunKeeps(states: seq<State>, steps: seq<Step>, i: nat)
    requires Run(states, steps) && i < |states|
    ensures PoolInv(states[i])
  {
    hide PoolInv, Enabled, Next, Start;
    if i == 0 {
      StartKeeps();
    } else {
      RunKeeps(states, steps, i - 1);
      StepKeeps(states[i - 1], steps[i - 1]);
    }
  }
}
