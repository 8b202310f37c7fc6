/**
 Conservation over every run: what the ledger owes against what the pool verifiably earned, block by block and
 as a whole, and when exactly a reconciler pass takes earnings away that are booked already.
 */
module PoolSolvency {
  import opened Wrappers
  import opened Sums
  import opened Ledger
  import opened Payouts
  import opened PayoutInvariant
  import opened Pool
  import opened PoolAllocation
  import opened PoolPayouts
  import opened PoolRuns
  import Pplns
  import R = Reconciler

  // ---------- block by block ----------

  function KeyBlock(): Entry -> Option<BlockId> {
    (e: Entry) => BlockOfKey(e.key)
  }

  lemma {:induction false} GroupIsRows(l: seq<Entry>, b: BlockId)
    ensures Group(l, KeyBlock(), FromBlocks())(Some(b)) == Sum(RowsOf(l, b), EntryAmount())
  {
    if l != [] {
      var n := |l| - 1;
      GroupIsRows(l[..n], b);
      var f := At(KeyBlock(), FromBlocks(), Some(b));
      assert Sum(l, f) == Sum(l[..n], f) + f(l[n]);
      if BlockOfKey(l[n].key) == Some(b) {
        SumSnoc(RowsOf(l[..n], b), l[n], EntryAmount());
        assert RowsOf(l, b) == RowsOf(l[..n], b) + [l[n]];
      } else {
        assert RowsOf(l, b) == RowsOf(l[..n], b);
      }
    }
  }

  function Blocks(plans: seq<Plan>): seq<Option<BlockId>> {
    if plans == [] then [] else Blocks(plans[..|plans| - 1]) + [Some(plans[|plans| - 1].block)]
  }

  lemma {:induction false} BlocksDistinct(plans: seq<Plan>)
    requires PlanBlocksUnique(plans)
    ensures Distinct(Blocks(plans)) && |Blocks(plans)| == |plans|
    ensures forall b :: Planned(plans, b) <==> Some(b) in Blocks(plans)
    ensures forall k | 0 <= k < |plans| :: Blocks(plans)[k] == Some(plans[k].block)
  {
    if plans != [] {
      var n := |plans| - 1;
      BlocksDistinct(plans[..n]);
      assert plans == plans[..n] + [plans[n]];
      forall b ensures Planned(plans, b) <==> Some(b) in Blocks(plans) {
        PlannedMore(plans[..n], plans[n], b);
      }
      assert None !in Blocks(plans);
    }
  }

  function PostedFor(l: seq<Entry>): Plan -> int {
    (p: Plan) => Sum(RowsOf(l, p.block), EntryAmount())
  }

  lemma RowIsPlanned(l: seq<Entry>, plans: seq<Plan>, e: Entry)
    requires RowsOk(l, plans) && e in l
    ensures BlockOfKey(e.key).Some? ==> Planned(plans, BlockOfKey(e.key).value)
  {
    var b := BlockOfKey(e.key);
    if b.Some? {
      RowsPosted(l, b.value);
      assert e in RowsOf(l, b.value);
      assert !NoRows(l, b.value);
    }
  }

  /** Everything booked from blocks is booked for a planned block. */
  lemma BookedByPlan(l: seq<Entry>, plans: seq<Plan>)
    requires RowsOk(l, plans) && PlanBlocksUnique(plans)
    ensures Sum(l, FromBlocks()) == Sum(plans, PostedFor(l))
  {
    var ks := Blocks(plans);
    BlocksDistinct(plans);
    SumGroups(l, KeyBlock(), FromBlocks(), ks);
    forall i | 0 <= i < |l| ensures Within(KeyBlock(), FromBlocks(), ks)(l[i]) == FromBlocks()(l[i]) {
      RowIsPlanned(l, plans, l[i]);
    }
    SumSame(l, Within(KeyBlock(), FromBlocks(), ks), l, FromBlocks());
    forall i | 0 <= i < |plans| ensures Group(l, KeyBlock(), FromBlocks())(ks[i]) == PostedFor(l)(plans[i]) {
      GroupIsRows(l, plans[i].block);
    }
    SumSame(ks, Group(l, KeyBlock(), FromBlocks()), plans, PostedFor(l));
  }

  /** The rows posted for a plan add up to no more than its receipt, and to all of it once they are complete. */
  lemma PostedAtMost(l: seq<Entry>, p: Plan)
    requires Proper(p) && PrefixOf(l, p)
    ensures 0 <= PostedFor(l)(p) <= p.reward
    ensures RowsOf(l, p.block) == Entries(p) ==> PostedFor(l)(p) == p.reward
  {
    PlanRows(p);
    var rows, es := RowsOf(l, p.block), Entries(p);
    hide RowsOf, Entries, Proper;
    assert rows == es[..|rows|];
    PrefixAmount(es, |rows|, p.block);
  }

  // ---------- receipts ----------

  function ReceiptBlock(): R.Receipt -> Option<BlockId> {
    (r: R.Receipt) => Some(r.block)
  }

  lemma {:induction false} BackedCounts(rs: seq<R.Receipt>, b: BlockId, reward: nat)
    requires Backed(rs, b, reward)
    ensures Group(rs, ReceiptBlock(), ConfirmedAmount())(Some(b)) >= reward
  {
    var n := |rs| - 1;
    var f := At(ReceiptBlock(), ConfirmedAmount(), Some(b));
    SumNonNegative(rs[..n], f);
    if Backed(rs[..n], b, reward) {
      BackedCounts(rs[..n], b, reward);
    } else {
      assert rs == rs[..n] + [rs[n]];
    }
  }

  function PlanReward(): Plan -> int {
    (p: Plan) => p.reward
  }

  function BackedReward(rs: seq<R.Receipt>): Plan -> int {
    (p: Plan) => if Backed(rs, p.block, p.reward) then p.reward else 0
  }

  /** What was booked from receipts that have been voided since. */
  function WithdrawnReward(rs: seq<R.Receipt>): Plan -> int {
    (p: Plan) => if Backed(rs, p.block, p.reward) then 0 else p.reward
  }

  /** Different plans divide different receipts. */
  lemma RewardsReceived(plans: seq<Plan>, rs: seq<R.Receipt>)
    requires PlansOk(plans, rs)
    ensures Sum(plans, PlanReward()) <= Received(rs) + Sum(plans, WithdrawnReward(rs))
  {
    var ks := Blocks(plans);
    BlocksDistinct(plans);
    SumGroups(rs, ReceiptBlock(), ConfirmedAmount(), ks);
    SumAtMost(rs, Within(ReceiptBlock(), ConfirmedAmount(), ks), ConfirmedAmount());
    var blockIncome := (p: Plan) => Group(rs, ReceiptBlock(), ConfirmedAmount())(Some(p.block));
    SumSame(ks, Group(rs, ReceiptBlock(), ConfirmedAmount()), plans, blockIncome);
    forall i | 0 <= i < |plans| ensures BackedReward(rs)(plans[i]) <= blockIncome(plans[i]) {
      if Backed(rs, plans[i].block, plans[i].reward) {
        BackedCounts(rs, plans[i].block, plans[i].reward);
      } else {
        SumNonNegative(rs, At(ReceiptBlock(), ConfirmedAmount(), Some(plans[i].block)));
      }
    }
    SumAtMost(plans, BackedReward(rs), blockIncome);
    SumPlus(plans, BackedReward(rs), WithdrawnReward(rs), PlanReward());
  }

  // ---------- the system as a whole ----------

  lemma BookedAtMost(s: State)
    requires AllocInv(s)
    ensures Sum(s.wallet.ledger, FromBlocks()) <= Sum(s.plans, PlanReward()) <= Received(s.receipts) + Sum(s.plans, WithdrawnReward(s.receipts))
  {
    BookedByPlan(s.wallet.ledger, s.plans);
    RewardsReceived(s.plans, s.receipts);
    forall i | 0 <= i < |s.plans| ensures PostedFor(s.wallet.ledger)(s.plans[i]) <= PlanReward()(s.plans[i]) {
      assert PlanOk(s.plans[i], s.receipts) && PrefixOf(s.wallet.ledger, s.plans[i]);
      PostedAtMost(s.wallet.ledger, s.plans[i]);
    }
    SumAtMost(s.plans, PostedFor(s.wallet.ledger), PlanReward());
  }

  /** Liabilities split into what the gate counts and accounts that only ever grow. */
  lemma OwedIsLiability(l: seq<Entry>)
    requires AmountsOk(l)
    ensures Owed(l) <= Sum(l, In(LIABILITIES))
  {
    forall i | 0 <= i < |l| ensures In({MinerConfirmed, MinerPending})(l[i]) <= In(LIABILITIES)(l[i]) {
      assert l[i] in l;
    }
    SumAtMost(l, In({MinerConfirmed, MinerPending}), In(LIABILITIES));
  }

  /**
   In every reachable state CONFIRMED + PENDING_PAYOUT + PAID + POOL_FEE + ROUNDING is at most the confirmed live
   income plus the rewards of allocations whose receipt has been voided since.
   */
  lemma OwedAtMostInEveryRun(states: seq<State>, steps: seq<Step>, i: nat)
    requires Run(states, steps) && i < |states|
    ensures var s := states[i];
      && Owed(s.wallet.ledger) <= Sum(s.wallet.ledger, In(LIABILITIES)) <= Received(s.receipts) + Sum(s.plans, WithdrawnReward(s.receipts))
      && forall p | p in s.plans && !Backed(s.receipts, p.block, p.reward) ::
           exists r | r in s.receipts :: r.block == p.block && r.confirmed && r.voided && r.amount == p.reward
  {
    RunKeeps(states, steps, i);
    var s := states[i];
    BookedAtMost(s);
    OwedIsLiability(s.wallet.ledger);
    forall p | p in s.plans && !Backed(s.receipts, p.block, p.reward)
      ensures exists r | r in s.receipts :: r.block == p.block && r.confirmed && r.voided && r.amount == p.reward
    {
      assert PlanOk(p, s.receipts);
    }
  }

  // ---------- what takes income away ----------

  /** The write voids the confirmed live receipt of a block. */
  predicate WithdrawsFrom(rs: seq<R.Receipt>, p: R.Pending, b: BlockId) {
    exists k | 0 <= k < |rs| :: rs[k].block == b && rs[k].confirmed && !rs[k].voided && R.Withdraws(p, k)
  }

  /** A write ends the backing of a reward exactly when it withdraws the block's receipt. */
  lemma BackingLostIff(rs: seq<R.Receipt>, p: R.Pending, b: BlockId, reward: nat)
    requires R.KeysOk(rs) && Backed(rs, b, reward)
    ensures !Backed(R.Write(rs, p), b, reward) <==> WithdrawsFrom(rs, p, b)
  {
    var r :| r in rs && r.block == b && r.confirmed && !r.voided && r.amount == reward;
    var k :| 0 <= k < |rs| && rs[k] == r;
    var rs' := R.Write(rs, p);
    R.VoidsConfirmedIff(rs, p, k);
    R.WriteKeepsRows(rs, p);
    if R.Withdraws(p, k) {
      assert |rs'| == |rs|;
      hide R.Write;
      forall j | 0 <= j < |rs'| && rs'[j].block == b ensures rs'[j].voided {
        assert rs[j].block == b;
      }
    } else {
      hide R.Write;
      assert rs'[k] == r && rs'[k] in rs';
    }
  }

  /** A receipt of the block is divided, or about to be. */
  predicate Claimed(s: State, b: BlockId) {
    Planned(s.plans, b) || exists p | p in s.allocating :: !s.allocating[p].Posting? && s.allocating[p].block == b
  }

  /** A reconciler pass writes what it concluded from a receipt that was confirmed and claimed after it had read it. */
  predicate Overtaken(s: State, step: Step)
    requires Enabled(s, step)
  {
    step.WriteIncome? && exists k | 0 <= k < |s.receipts| ::
      s.receipts[k].confirmed && !s.receipts[k].voided && R.Withdraws(s.reading[step.which], k) && Claimed(s, s.receipts[k].block)
  }

  predicate AllBacked(s: State) {
    && (forall p | p in s.plans :: Backed(s.receipts, p.block, p.reward))
    && (forall p | p in s.allocating && !s.allocating[p].Posting? :: Backed(s.receipts, s.allocating[p].block, s.allocating[p].reward))
  }

  lemma WriteBackingIff(s: State, i: nat)
    requires R.KeysOk(s.receipts) && AllBacked(s) && Enabled(s, WriteIncome(i))
    ensures AllBacked(Next(s, WriteIncome(i))) <==> !Overtaken(s, WriteIncome(i))
  {
    var rs, w := s.receipts, s.reading[i];
    hide R.Write, R.Withdraws, R.KeysOk;
    forall p | p in s.plans ensures !Backed(R.Write(rs, w), p.block, p.reward) <==> WithdrawsFrom(rs, w, p.block) {
      BackingLostIff(rs, w, p.block, p.reward);
    }
    forall p | p in s.allocating && !s.allocating[p].Posting?
      ensures !Backed(R.Write(rs, w), s.allocating[p].block, s.allocating[p].reward) <==> WithdrawsFrom(rs, w, s.allocating[p].block)
    {
      BackingLostIff(rs, w, s.allocating[p].block, s.allocating[p].reward);
    }
    hide Backed;
  }

  lemma PlanBacking(s: State, pid: nat, input: Pplns.Input)
    requires AllBacked(s) && Enabled(s, SavePlan(pid, input))
    ensures AllBacked(Next(s, SavePlan(pid, input)))
  {
    hide Backed, Pplns.Allocate, Planned;
  }

  lemma SameBacking(s: State, s': State)
    requires AllBacked(s) && s'.receipts == s.receipts && s'.plans == s.plans
    requires forall p | p in s'.allocating && !s'.allocating[p].Posting? ::
      p in s.allocating && !s.allocating[p].Posting? && s'.allocating[p].block == s.allocating[p].block && s'.allocating[p].reward == s.allocating[p].reward
    ensures AllBacked(s')
  {
    hide Backed;
  }

  /** Every divided receipt stays confirmed and live through a step exactly when the step does not overtake one. */
  lemma BackingKeptIff(s: State, step: Step)
    requires PoolInv(s) && AllBacked(s) && Enabled(s, step)
    ensures AllBacked(Next(s, step)) <==> !Overtaken(s, step)
  {
    assert R.KeysOk(s.receipts);
    hide *;
    if step.WriteIncome? {
      WriteBackingIff(s, step.which);
    } else if step.ReadReceipt? {
      ReceiptBacking(s, step.pid, step.block);
    } else {
      OnlyWrites(s, step);
      if step.SavePlan? {
        PlanBacking(s, step.pid, step.input);
      } else {
        SameTables(s, step);
        SameBacking(s, Next(s, step));
      }
    }
  }

  lemma OnlyWrites(s: State, step: Step)
    requires Enabled(s, step) && !step.WriteIncome?
    ensures !Overtaken(s, step)
  {
  }

  lemma ReceiptBacking(s: State, p: nat, b: BlockId)
    requires AllBacked(s) && Enabled(s, ReadReceipt(p, b))
    ensures AllBacked(Next(s, ReadReceipt(p, b))) && !Overtaken(s, ReadReceipt(p, b))
  {
    RewardIsBacked(s.receipts, b);
    hide Backed, Recorded;
  }

  lemma SameTables(s: State, step: Step)
    requires Enabled(s, step) && !step.WriteIncome? && !step.ReadReceipt? && !step.SavePlan?
    ensures var s' := Next(s, step);
      && s'.receipts == s.receipts && s'.plans == s.plans
      && forall p | p in s'.allocating && !s'.allocating[p].Posting? ::
           p in s.allocating && !s.allocating[p].Posting? && s'.allocating[p].block == s.allocating[p].block && s'.allocating[p].reward == s.allocating[p].reward
  {
    hide Payouts.Approve, R.Write, R.Read, R.Finding, CreateBatch, ReserveReleased, CommitConfirmed, ForfeitOne, MarkSeen, MarkBroadcast,
      Entries, Pplns.Allocate, Planned, Payable, Outputs, CanSave, SaveBuilt, Received, RewardFor;
  }

  lemma {:induction false} BackedInRun(states: seq<State>, steps: seq<Step>, i: nat)
    requires Run(states, steps) && i < |states| && forall k | 0 <= k < i :: !Overtaken(states[k], steps[k])
    ensures AllBacked(states[i])
  {
    hide PoolInv, Next, Enabled, Overtaken;
    if i == 0 {
      StartBacked();
    } else {
      BackedInRun(states, steps, i - 1);
      RunKeeps(states, steps, i - 1);
      BackingKeptIff(states[i - 1], steps[i - 1]);
    }
  }

  lemma StartBacked()
    ensures AllBacked(Start())
  {
  }

  /** In every run in which no pass overtakes an allocation, the pool is solvent throughout and the gate refuses nothing. */
  lemma SolventUnlessOvertaken(states: seq<State>, steps: seq<Step>, i: nat)
    requires Run(states, steps) && i < |states| && forall k | 0 <= k < i :: !Overtaken(states[k], steps[k])
    ensures Owed(states[i].wallet.ledger) <= Sum(states[i].wallet.ledger, In(LIABILITIES)) <= Received(states[i].receipts)
    ensures forall p | p in states[i].plans :: Backed(states[i].receipts, p.block, p.reward)
  {
    BackedInRun(states, steps, i);
    OwedAtMostInEveryRun(states, steps, i);
    SumZero(states[i].plans, WithdrawnReward(states[i].receipts));
  }

  /** The receipt the pass had read, if any, is still as it was read. */
  predicate Undisturbed(s: State, step: Step)
    requires Enabled(s, step)
  {
    step.WriteIncome? && s.reading[step.which].existing.Some? ==>
      var read := s.reading[step.which].existing.value;
      read.id < |s.receipts| && s.receipts[read.id] == read.was
  }

  lemma UndisturbedOvertakesNothing(s: State, step: Step)
    requires Enabled(s, step) && Undisturbed(s, step)
    ensures !Overtaken(s, step)
  {
    hide Claimed;
  }

  /** So passes that do not overlap on a receipt keep the pool solvent. */
  lemma SolventWithoutOverlap(states: seq<State>, steps: seq<Step>, i: nat)
    requires Run(states, steps) && i < |states| && forall k | 0 <= k < i :: Undisturbed(states[k], steps[k])
    ensures Owed(states[i].wallet.ledger) <= Sum(states[i].wallet.ledger, In(LIABILITIES)) <= Received(states[i].receipts)
  {
    forall k | 0 <= k < i ensures !Overtaken(states[k], steps[k]) {
      UndisturbedOvertakesNothing(states[k], steps[k]);
    }
    hide Overtaken, Enabled, Next, Undisturbed;
    SolventUnlessOvertaken(states, steps, i);
  }

  // ---------- block by block, over runs ----------

  /** Every reachable state: a block's posted rows are a prefix of one allocation of a receipt confirmed for it; SETTLED_TO_LEDGER means all of them. */
  lemma BlockBooksInEveryRun(states: seq<State>, steps: seq<Step>, i: nat, b: BlockId)
    requires Run(states, steps) && i < |states|
    ensures var s := states[i];
      && (RowsOf(s.wallet.ledger, b) != [] ==> Planned(s.plans, b))
      && (forall p | p in s.plans && p.block == b ::
            && RowsOf(s.wallet.ledger, b) <= Entries(p)
            && Sum(RowsOf(s.wallet.ledger, b), EntryAmount()) <= p.reward
            && Recorded(s.receipts, b, p.reward))
      && (b in s.blocks && s.blocks[b] == SettledToLedger ==>
            exists p | p in s.plans :: p.block == b && RowsOf(s.wallet.ledger, b) == Entries(p)
                                       && Sum(RowsOf(s.wallet.ledger, b), EntryAmount()) == p.reward)
  {
    RunKeeps(states, steps, i);
    var s := states[i];
    var l := s.wallet.ledger;
    hide Run, PayInv, Proper, Recorded, Entries, RowsOf, Sum;
    forall p | p in s.plans && p.block == b
      ensures RowsOf(l, b) <= Entries(p) && Sum(RowsOf(l, b), EntryAmount()) <= p.reward && Recorded(s.receipts, b, p.reward)
      ensures RowsOf(l, b) == Entries(p) ==> Sum(RowsOf(l, b), EntryAmount()) == p.reward
    {
      assert PlanOk(p, s.receipts) && PrefixOf(l, p);
      PostedAtMost(l, p);
    }
    if !Planned(s.plans, b) {
      assert NoRows(l, b);
    }
    if b in s.blocks && s.blocks[b] == SettledToLedger {
      assert Complete(l, s.plans, b);
    }
  }

  // ---------- the audit ----------

  function BookedFor(b: BlockId): Entry -> int {
    (e: Entry) => if BlockOfKey(e.key) == Some(b) then e.amount else 0
  }

  /** verifyBlockConservation. */
  predicate VerifyBlockConservation(l: seq<Entry>, b: BlockId, reward: int) {
    Sum(l, BookedFor(b)) == reward
  }

  lemma {:induction false} BookedIsRows(l: seq<Entry>, b: BlockId)
    ensures Sum(l, BookedFor(b)) == Sum(RowsOf(l, b), EntryAmount())
  {
    if l != [] {
      var n := |l| - 1;
      BookedIsRows(l[..n], b);
      if BlockOfKey(l[n].key) == Some(b) {
        SumSnoc(RowsOf(l[..n], b), l[n], EntryAmount());
      } else {
        assert RowsOf(l, b) == RowsOf(l[..n], b);
      }
    }
  }

  lemma RewardIsUnique(rs: seq<R.Receipt>, b: BlockId, reward: nat)
    requires R.KeysOk(rs) && Backed(rs, b, reward)
    ensures RewardFor(rs, b) == Some(reward)
  {
    var n := |rs| - 1;
    if Backed(rs[..n], b, reward) {
      var r :| r in rs[..n] && r.block == b && r.confirmed && !r.voided && r.amount == reward;
      var k :| 0 <= k < n && rs[k] == r;
      assert R.KeysOk(rs[..n]);
      RewardIsUnique(rs[..n], b, reward);
    } else {
      assert rs == rs[..n] + [rs[n]];
    }
  }

  /** The rows of a plan that are not posted yet, or never will be. */
  ghost function Missing(l: seq<Entry>, p: Plan): seq<Entry>
    requires PrefixOf(l, p)
  {
    Entries(p)[|RowsOf(l, p.block)|..]
  }

  predicate AllZero(es: seq<Entry>) {
    forall k | 0 <= k < |es| :: es[k].amount == 0
  }

  lemma {:induction false} ZeroIff(es: seq<Entry>, b: BlockId)
    requires forall e | e in es :: AllocRow(e, b)
    ensures Sum(es, EntryAmount()) == 0 <==> AllZero(es)
  {
    if es != [] {
      var n := |es| - 1;
      assert forall e | e in es[..n] :: e in es;
      ZeroIff(es[..n], b);
      RowsNonNegative(es[..n], b);
      assert es[n] in es;
      assert AllZero(es) <==> AllZero(es[..n]) && es[n].amount == 0;
    }
  }

  lemma SplitSum(es: seq<Entry>, n: nat, b: BlockId)
    requires n <= |es| && forall e | e in es :: AllocRow(e, b)
    ensures Sum(es[..n], EntryAmount()) + Sum(es[n..], EntryAmount()) == Sum(es, EntryAmount())
    ensures Sum(es[n..], EntryAmount()) == 0 <==> AllZero(es[n..])
  {
    hide AllocRow, AllZero, Sum;
    assert es == es[..n] + es[n..];
    SumAppend(es[..n], es[n..], EntryAmount());
    assert forall e | e in es[n..] :: e in es;
    ZeroIff(es[n..], b);
  }

  lemma MissingAmount(l: seq<Entry>, p: Plan)
    requires Proper(p) && PrefixOf(l, p)
    ensures Sum(RowsOf(l, p.block), EntryAmount()) + Sum(Missing(l, p), EntryAmount()) == p.reward
    ensures Sum(Missing(l, p), EntryAmount()) == 0 <==> AllZero(Missing(l, p))
  {
    PlanRows(p);
    hide Proper, RowsOf, Entries, AllocRow, AllZero, Sum;
    assert RowsOf(l, p.block) == Entries(p)[..|RowsOf(l, p.block)|];
    SplitSum(Entries(p), |RowsOf(l, p.block)|, p.block);
  }

  /** The audit of block b against its confirmed live receipt. */
  ghost predicate AuditPasses(s: State, b: BlockId) {
    RewardFor(s.receipts, b).Some? && VerifyBlockConservation(s.wallet.ledger, b, RewardFor(s.receipts, b).value)
  }

  ghost predicate AuditOf(s: State, p: Plan) {
    && PrefixOf(s.wallet.ledger, p)
    && (Backed(s.receipts, p.block, p.reward) ==>
          RewardFor(s.receipts, p.block) == Some(p.reward) && (AuditPasses(s, p.block) <==> AllZero(Missing(s.wallet.ledger, p))))
    && (RewardFor(s.receipts, p.block).Some? ==>
          (AuditPasses(s, p.block) <==> Sum(Missing(s.wallet.ledger, p), EntryAmount()) == p.reward - RewardFor(s.receipts, p.block).value))
    && (p.block in s.blocks && s.blocks[p.block] == SettledToLedger ==>
          Missing(s.wallet.ledger, p) == [] && (AuditPasses(s, p.block) <==> RewardFor(s.receipts, p.block) == Some(p.reward)))
  }

  /**
   The audit of every block with a confirmed live receipt, in every reachable state, ALLOCATED or SETTLED. While the
   receipt is the one divided, it passes exactly when the rows still missing are all over nothing, and always once
   the block is settled; once another receipt has replaced the one divided, exactly when the missing rows make up the
   difference; and without an allocation row, exactly when the receipt is over nothing.
   */
  lemma AuditPassesIff(states: seq<State>, steps: seq<Step>, i: nat, b: BlockId)
    requires Run(states, steps) && i < |states| && RewardFor(states[i].receipts, b).Some?
    ensures !Planned(states[i].plans, b) ==> (AuditPasses(states[i], b) <==> RewardFor(states[i].receipts, b) == Some(0))
    ensures forall p | p in states[i].plans && p.block == b :: AuditOf(states[i], p)
  {
    RunKeeps(states, steps, i);
    hide *;
    var s := states[i];
    if !Planned(s.plans, b) {
      UnplannedAudit(s, b);
    }
    forall p | p in s.plans && p.block == b ensures AuditOf(s, p) {
      PlannedAudit(s, p);
    }
  }

  lemma UnplannedAudit(s: State, b: BlockId)
    requires PoolInv(s) && !Planned(s.plans, b) && RewardFor(s.receipts, b).Some?
    ensures AuditPasses(s, b) <==> RewardFor(s.receipts, b) == Some(0)
  {
    hide PoolInv, Sum, RowsOf, VerifyBlockConservation;
    NothingBooked(s, b);
    AuditIs(s.wallet.ledger, b, RewardFor(s.receipts, b).value);
  }

  lemma PlannedAudit(s: State, p: Plan)
    requires PoolInv(s) && p in s.plans
    ensures AuditOf(s, p)
  {
    hide PoolInv, Sum, RowsOf, VerifyBlockConservation, RewardFor, Backed, AllZero, Missing, PrefixOf;
    PlanAudited(s, p);
    if RewardFor(s.receipts, p.block).Some? {
      AuditIs(s.wallet.ledger, p.block, RewardFor(s.receipts, p.block).value);
    }
  }

  lemma AuditIs(l: seq<Entry>, b: BlockId, reward: nat)
    ensures VerifyBlockConservation(l, b, reward) <==> Sum(RowsOf(l, b), EntryAmount()) == reward
  {
    BookedIsRows(l, b);
  }

  lemma PlanAudited(s: State, p: Plan)
    requires PoolInv(s) && p in s.plans
    ensures var l, b := s.wallet.ledger, p.block;
      && PrefixOf(l, p)
      && Sum(RowsOf(l, b), EntryAmount()) + Sum(Missing(l, p), EntryAmount()) == p.reward
      && (Sum(Missing(l, p), EntryAmount()) == 0 <==> AllZero(Missing(l, p)))
      && (Backed(s.receipts, b, p.reward) ==> RewardFor(s.receipts, b) == Some(p.reward))
      && (b in s.blocks && s.blocks[b] == SettledToLedger ==> Missing(l, p) == [] && Sum(Missing(l, p), EntryAmount()) == 0)
  {
    hide PayInv, RowsOf, Sum, Backed, Entries, Proper, ProcsOk, R.KeysOk, Recorded, Missing, AllZero, PlanBlocksUnique;
    var l, b := s.wallet.ledger, p.block;
    assert PlanOk(p, s.receipts) && PrefixOf(l, p);
    MissingAmount(l, p);
    if Backed(s.receipts, b, p.reward) {
      RewardIsUnique(s.receipts, b, p.reward);
    }
    if b in s.blocks && s.blocks[b] == SettledToLedger {
      assert Complete(l, s.plans, b);
      var q :| q in s.plans && q.block == b && RowsOf(l, b) == Entries(q);
      SamePlan(s.plans, p, q);
      NothingIsMissing(l, p);
    }
  }

  lemma NothingIsMissing(l: seq<Entry>, p: Plan)
    requires RowsOf(l, p.block) == Entries(p)
    ensures PrefixOf(l, p) && Missing(l, p) == [] && Sum(Missing(l, p), EntryAmount()) == 0
  {
  }

  lemma NothingBooked(s: State, b: BlockId)
    requires PoolInv(s) && !Planned(s.plans, b)
    ensures Sum(RowsOf(s.wallet.ledger, b), EntryAmount()) == 0
  {
    assert NoRows(s.wallet.ledger, b);
  }

  // ---------- an allocation once saved ----------

  predicate BeingPosted(s: State, b: BlockId) {
    exists p | p in s.allocating :: PostsFor(s.allocating[p], b)
  }

  lemma ProcessOther(s: State, step: Step)
    requires PoolInv(s) && Enabled(s, step) && (step.Approve? || step.Save? || step.Record? || step.SeePending?)
    ensures AppendsOther(s.wallet.ledger, Next(s, step).wallet.ledger)
    ensures Next(s, step).plans == s.plans && Next(s, step).allocating == s.allocating
  {
    hide PoolInv, Payouts.Approve, HashSaved, MarkBroadcast, MarkSeen, AppendsOther;
    match step
    case Approve(c) => ApproveLater(s.wallet, c);
    case Save(p, fee) => SaveKeepsOther(s, p, fee);
    case Record(p) => BroadcastLater(s.wallet, s.paying[p].tx.batch);
    case SeePending(c) => SeenLater(s.wallet, c);
  }

  lemma WalletOther(s: State, step: Step)
    requires PoolInv(s) && Enabled(s, step) && (step.Propose? || step.Release? || step.SeeCommitted? || step.Forfeit?)
    ensures AppendsOther(s.wallet.ledger, Next(s, step).wallet.ledger)
    ensures Next(s, step).plans == s.plans && Next(s, step).allocating == s.allocating
  {
    hide PoolInv, CreateBatch, ReserveReleased, CommitConfirmed, ForfeitOne, AppendsOther;
    match step
    case Propose(c, cs, limits, spent) => CreateLater(s.wallet, Received(s.receipts), c, cs, limits, spent);
    case Release(c) => ReleaseLater(s.wallet, Received(s.receipts), c);
    case SeeCommitted(c, fee) => CommitLater(s.wallet, c, fee);
    case Forfeit(m, rowId) => ForfeitLater(s.wallet, m, rowId);
  }

  lemma WalletStepRows(s: State, step: Step, b: BlockId)
    requires PoolInv(s) && Enabled(s, step)
    requires step.Approve? || step.Save? || step.Record? || step.Propose? || step.Release? || step.SeePending? || step.SeeCommitted? || step.Forfeit?
    ensures RowsOf(Next(s, step).wallet.ledger, b) == RowsOf(s.wallet.ledger, b)
    ensures Next(s, step).plans == s.plans && Next(s, step).allocating == s.allocating
  {
    hide *;
    if step.Approve? || step.Save? || step.Record? || step.SeePending? {
      ProcessOther(s, step);
    } else {
      WalletOther(s, step);
    }
    OtherRows(s.wallet.ledger, Next(s, step).wallet.ledger, b);
  }

  lemma PostNextRows(s: State, pid: nat, b: BlockId)
    requires PoolInv(s) && pid in s.allocating && s.allocating[pid].Posting?
    ensures s.allocating[pid].plan.block != b ==> RowsOf(NextPosted(s, pid).wallet.ledger, b) == RowsOf(s.wallet.ledger, b)
    ensures RowsOf(s.wallet.ledger, b) <= RowsOf(NextPosted(s, pid).wallet.ledger, b)
  {
    var Posting(p, done) := s.allocating[pid];
    Ready(s, pid);
    hide PoolInv, Entries, Proper, Backed, RowsOf;
    if done < |Entries(p)| {
      NextIsNew(s.wallet.ledger, p, done);
      RowsAfter(s.wallet.ledger, Entries(p)[done], b);
    }
  }

  /** Once the allocation row exists and its run has ended, no step posts for the block again, not even after it was pushed back to MATURE. */
  lemma NothingMorePosted(s: State, step: Step, b: BlockId)
    requires PoolInv(s) && Enabled(s, step) && Planned(s.plans, b) && !BeingPosted(s, b)
    ensures var s' := Next(s, step);
      RowsOf(s'.wallet.ledger, b) == RowsOf(s.wallet.ledger, b) && Planned(s'.plans, b) && !BeingPosted(s', b)
  {
    hide PoolInv, RowsOf, Planned;
    if step.Approve? || step.Save? || step.Record? || step.Propose? || step.Release? || step.SeePending? || step.SeeCommitted? || step.Forfeit? {
      WalletStepRows(s, step, b);
    } else if step.PostNext? {
      assert !PostsFor(s.allocating[step.pid], b);
      PostNextRows(s, step.pid, b);
    } else if step.SavePlan? {
      PlanAgain(s, step.pid, step.input, b);
    }
  }

  lemma PlanAgain(s: State, pid: nat, input: Pplns.Input, b: BlockId)
    requires Enabled(s, SavePlan(pid, input)) && Planned(s.plans, b) && !BeingPosted(s, b)
    ensures var s' := PlanSaved(s, pid, input);
      s'.wallet == s.wallet && Planned(s'.plans, b) && !BeingPosted(s', b)
  {
    var Guarded(c, reward) := s.allocating[pid];
    var result := Pplns.Allocate(input);
    hide Pplns.Allocate;
    if result.Ok? {
      PlannedMore(s.plans, Plan(c, reward, result.value), b);
    }
  }

  /** Over any stretch of a run: after a saved allocation was abandoned or completed, its block's books are closed. */
  lemma {:induction false} BooksStayClosed(states: seq<State>, steps: seq<Step>, i: nat, j: nat, b: BlockId)
    requires Run(states, steps) && i <= j < |states| && Planned(states[i].plans, b) && !BeingPosted(states[i], b)
    ensures RowsOf(states[j].wallet.ledger, b) == RowsOf(states[i].wallet.ledger, b)
    ensures Planned(states[j].plans, b) && !BeingPosted(states[j], b)
  {
    hide RowsOf, Planned, BeingPosted, Enabled, Next, PoolInv, Start;
    if i < j {
      BooksStayClosed(states, steps, i, j - 1, b);
      RunKeeps(states, steps, j - 1);
      NothingMorePosted(states[j - 1], steps[j - 1], b);
    }
  }
}
