/** No double payment, over every run: one transaction per batch, and what the chain pays against what the ledger says. */
module PoolPayments {
  import opened Wrappers
  import opened Sums
  import opened Ledger
  import opened Payouts
  import opened PayoutInvariant
  import opened Pool
  import opened PoolAllocation
  import opened PoolPayouts
  import opened PoolRuns
  import Pplns
  import R = Reconciler

  // ---------- one transaction per batch ----------

  lemma {:induction false} SentApart(sent: seq<Tx>, i: nat, j: nat)
    requires SentOnce(sent) && i < j < |sent|
    ensures sent[i].batch != sent[j].batch
  {
    if j < |sent| - 1 {
      SentApart(sent[..|sent| - 1], i, j);
    } else {
      assert sent[i] in sent[..|sent| - 1];
    }
  }

  lemma SentGrows(s: State, step: Step)
    requires Enabled(s, step)
    ensures s.sent <= Next(s, step).sent
  {
    hide Payouts.Approve, R.Write, R.Read, R.Finding, CreateBatch, ReserveReleased, CommitConfirmed, ForfeitOne, MarkSeen, MarkBroadcast, Entries,
      Pplns.Allocate, Planned, Payable, Outputs, CanSave, SaveBuilt, Received, RewardFor;
  }

  lemma {:induction false} SentOnlyGrows(states: seq<State>, steps: seq<Step>, i: nat, j: nat)
    requires Run(states, steps) && i <= j < |states|
    ensures states[i].sent <= states[j].sent
  {
    hide Enabled, Next, Start;
    if i < j {
      SentOnlyGrows(states, steps, i, j - 1);
      SentGrows(states[j - 1], steps[j - 1]);
    }
  }

  /**
   At any two moments of any run, two transactions ever handed to the node for one batch are the same one,
   handed over once; its hash is the one the batch row holds, at the later moment too.
   */
  lemma OneTransactionPerBatch(states: seq<State>, steps: seq<Step>, i: nat, j: nat, k: nat, n: nat)
    requires Run(states, steps) && i <= j < |states| && k < |states[i].sent| && n < |states[j].sent|
    ensures states[i].sent[k].batch == states[j].sent[n].batch ==> k == n && states[i].sent[k] == states[j].sent[n]
    ensures var t := states[i].sent[k];
      t.batch in states[j].wallet.batches && states[j].wallet.batches[t.batch].tx == Some(t.hash)
  {
    SentOnlyGrows(states, steps, i, j);
    RunKeeps(states, steps, j);
    var sent := states[j].sent;
    assert sent[k] == states[i].sent[k];
    assert sent[k] in sent;
    assert TxOk(sent[k], states[j].wallet);
    if k < n {
      SentApart(sent, k, n);
    } else if n < k {
      SentApart(sent, n, k);
    }
  }

  // ---------- sums over transactions and over items ----------

  function PayTo(m: Miner): Pay -> int {
    (p: Pay) => if p.miner == m then p.amount else 0
  }

  function BatchOf(): Item -> BatchId {
    (i: Item) => i.batch
  }

  /** What the node's best chain pays a miner now. */
  function Landed(onChain: set<TxHash>, m: Miner): Tx -> int {
    (t: Tx) => if t.hash in onChain then Sum(t.pays, PayTo(m)) else 0
  }

  function Delivered(s: State, m: Miner): int {
    Sum(s.sent, Landed(s.onChain, m))
  }

  predicate OnChain(w: Wallet, onChain: set<TxHash>, b: BatchId) {
    b in w.batches && w.batches[b].tx.Some? && w.batches[b].tx.value in onChain
  }

  function DeliveredItem(w: Wallet, onChain: set<TxHash>, m: Miner): Item -> int {
    (i: Item) => if i.miner == m && OnChain(w, onChain, i.batch) then i.amount else 0
  }

  /** Not yet booked as paid, but on the chain. */
  function InFlight(w: Wallet, onChain: set<TxHash>, m: Miner): Item -> int {
    (i: Item) => if OnChain(w, onChain, i.batch) then Outstanding(m)(i) else 0
  }

  /** Booked as paid, but not on the chain. */
  function Missing(w: Wallet, onChain: set<TxHash>, m: Miner): Item -> int {
    (i: Item) => if OnChain(w, onChain, i.batch) then 0 else Settled(m)(i)
  }

  lemma {:induction false} PaysAreItems(items: seq<Item>, b: BatchId, m: Miner)
    ensures Sum(PaysOf(items, b), PayTo(m)) == Group(items, BatchOf(), AmountOf(m))(b)
  {
    if items != [] {
      var n := |items| - 1;
      PaysAreItems(items[..n], b, m);
      var f := At(BatchOf(), AmountOf(m), b);
      assert Sum(items, f) == Sum(items[..n], f) + f(items[n]);
      if items[n].batch == b {
        SumSnoc(PaysOf(items[..n], b), Pay(items[n].miner, items[n].amount), PayTo(m));
        assert PaysOf(items, b) == PaysOf(items[..n], b) + [Pay(items[n].miner, items[n].amount)];
      } else {
        assert PaysOf(items, b) == PaysOf(items[..n], b);
      }
    }
  }

  function LandedBatches(sent: seq<Tx>, onChain: set<TxHash>): seq<BatchId> {
    if sent == [] then []
    else LandedBatches(sent[..|sent| - 1], onChain) + if sent[|sent| - 1].hash in onChain then [sent[|sent| - 1].batch] else []
  }

  lemma {:induction false} LandedMembers(sent: seq<Tx>, onChain: set<TxHash>)
    requires SentOnce(sent)
    ensures Distinct(LandedBatches(sent, onChain))
    ensures forall b :: b in LandedBatches(sent, onChain) <==> exists t | t in sent :: t.batch == b && t.hash in onChain
  {
    if sent != [] {
      var n := |sent| - 1;
      LandedMembers(sent[..n], onChain);
      assert sent == sent[..n] + [sent[n]];
      assert sent[n].batch !in LandedBatches(sent[..n], onChain);
    }
  }

  lemma {:induction false} DeliveredByBatch(sent: seq<Tx>, w: Wallet, onChain: set<TxHash>, m: Miner)
    requires forall t | t in sent :: TxOk(t, w)
    ensures Sum(sent, Landed(onChain, m)) == Sum(LandedBatches(sent, onChain), Group(w.items, BatchOf(), AmountOf(m)))
  {
    if sent != [] {
      var n := |sent| - 1;
      DeliveredByBatch(sent[..n], w, onChain, m);
      assert TxOk(sent[n], w);
      hide Group, PaysOf;
      PaysAreItems(w.items, sent[n].batch, m);
      if sent[n].hash in onChain {
        SumSnoc(LandedBatches(sent[..n], onChain), sent[n].batch, Group(w.items, BatchOf(), AmountOf(m)));
      } else {
        assert LandedBatches(sent, onChain) == LandedBatches(sent[..n], onChain);
      }
    }
  }

  /** A batch's hash is on the chain exactly when the transaction sent for the batch is. */
  lemma OnChainIffLanded(s: State, b: BatchId)
    requires PayInv(s)
    ensures OnChain(s.wallet, s.onChain, b) <==> b in LandedBatches(s.sent, s.onChain)
  {
    LandedMembers(s.sent, s.onChain);
    var w := s.wallet;
    Given(w);
    hide Inv, JobsOk, ItemsOk, KeysOk, AmountsOk, MinerOk, LandedBatches;
    if OnChain(w, s.onChain, b) {
      assert WasSent(s.sent, w.batches[b].tx.value);
      var t :| t in s.sent && t.hash == w.batches[b].tx.value;
      assert TxOk(t, w);
    }
    if b in LandedBatches(s.sent, s.onChain) {
      var t :| t in s.sent && t.batch == b && t.hash in s.onChain;
      assert TxOk(t, w);
    }
  }

  lemma DeliveredItems(s: State, m: Miner)
    requires PayInv(s)
    ensures Delivered(s, m) == Sum(s.wallet.items, DeliveredItem(s.wallet, s.onChain, m))
  {
    var bs := LandedBatches(s.sent, s.onChain);
    LandedMembers(s.sent, s.onChain);
    DeliveredByBatch(s.sent, s.wallet, s.onChain, m);
    SumGroups(s.wallet.items, BatchOf(), AmountOf(m), bs);
    forall k | 0 <= k < |s.wallet.items|
      ensures Within(BatchOf(), AmountOf(m), bs)(s.wallet.items[k]) == DeliveredItem(s.wallet, s.onChain, m)(s.wallet.items[k])
    {
      OnChainIffLanded(s, s.wallet.items[k].batch);
    }
    SumSame(s.wallet.items, Within(BatchOf(), AmountOf(m), bs), s.wallet.items, DeliveredItem(s.wallet, s.onChain, m));
  }

  // ---------- the chain against the ledger ----------

  function Underway(s: State, m: Miner): int {
    Sum(s.wallet.items, InFlight(s.wallet, s.onChain, m))
  }

  function Lost(s: State, m: Miner): int {
    Sum(s.wallet.items, Missing(s.wallet, s.onChain, m))
  }

  /** An item of a batch with a saved hash is reserved, broadcast or confirmed. */
  lemma SavedItem(w: Wallet, i: Item)
    requires ItemsOk(w) && HashesOk(w) && i in w.items
    ensures i.amount >= 0 && i.batch in w.batches
    ensures w.batches[i.batch].tx.Some? ==> i.state != ItemHeld
  {
    assert RowOk(i, w.batches);
  }

  lemma ItemBalance(w: Wallet, onChain: set<TxHash>, m: Miner, i: Item)
    requires ItemsOk(w) && HashesOk(w) && i in w.items
    ensures var d, u, l := DeliveredItem(w, onChain, m)(i), InFlight(w, onChain, m)(i), Missing(w, onChain, m)(i);
      && d + l == Settled(m)(i) + u && 0 <= u <= Outstanding(m)(i) && 0 <= l <= Settled(m)(i)
  {
    SavedItem(w, i);
    assert i.state in {ItemHeld, ItemReserved, ItemBroadcast, ItemConfirmed};
    var on := OnChain(w, onChain, i.batch);
    assert on ==> w.batches[i.batch].tx.Some?;
    assert DeliveredItem(w, onChain, m)(i) == if i.miner == m && on then i.amount else 0;
    assert InFlight(w, onChain, m)(i) == if on then Outstanding(m)(i) else 0;
    assert Missing(w, onChain, m)(i) == if on then 0 else Settled(m)(i);
  }

  function Plus(f: Item -> int, g: Item -> int): Item -> int {
    i => f(i) + g(i)
  }

  lemma ItemSums(w: Wallet, onChain: set<TxHash>, m: Miner)
    requires ItemsOk(w) && HashesOk(w)
    ensures Sum(w.items, DeliveredItem(w, onChain, m)) + Sum(w.items, Missing(w, onChain, m))
      == Sum(w.items, Settled(m)) + Sum(w.items, InFlight(w, onChain, m))
    ensures 0 <= Sum(w.items, InFlight(w, onChain, m)) <= Sum(w.items, Outstanding(m))
    ensures 0 <= Sum(w.items, Missing(w, onChain, m)) <= Sum(w.items, Settled(m))
  {
    var d, l, u := DeliveredItem(w, onChain, m), Missing(w, onChain, m), InFlight(w, onChain, m);
    forall k | 0 <= k < |w.items|
      ensures d(w.items[k]) + l(w.items[k]) == Settled(m)(w.items[k]) + u(w.items[k])
      ensures 0 <= u(w.items[k]) <= Outstanding(m)(w.items[k]) && 0 <= l(w.items[k]) <= Settled(m)(w.items[k])
    {
      ItemBalance(w, onChain, m, w.items[k]);
    }
    hide *;
    AddedUp(w.items, d, l, Settled(m), u);
    Bounded(w.items, u, Outstanding(m));
    Bounded(w.items, l, Settled(m));
  }

  lemma AddedUp(items: seq<Item>, d: Item -> int, l: Item -> int, p: Item -> int, u: Item -> int)
    requires forall k | 0 <= k < |items| :: d(items[k]) + l(items[k]) == p(items[k]) + u(items[k])
    ensures Sum(items, d) + Sum(items, l) == Sum(items, p) + Sum(items, u)
  {
    SumPlus(items, d, l, Plus(d, l));
    SumPlus(items, p, u, Plus(d, l));
  }

  lemma Bounded(items: seq<Item>, f: Item -> int, g: Item -> int)
    requires forall k | 0 <= k < |items| :: 0 <= f(items[k]) <= g(items[k])
    ensures 0 <= Sum(items, f) <= Sum(items, g)
  {
    SumNonNegative(items, f);
    SumAtMost(items, f, g);
  }

  /**
   In every state of every run, for every miner: what the chain pays is what the ledger calls PAID, plus what is
   on the chain but not yet booked, minus what is booked but no longer (or never was) on the chain. So it never
   exceeds PAID + PENDING_PAYOUT, nor all the miner was ever credited; and nothing is lost exactly when the
   transaction of every positive CONFIRMED item of the miner is on the chain.
   */
  lemma ChainAgreesInEveryRun(states: seq<State>, steps: seq<Step>, i: nat, m: Miner)
    requires Run(states, steps) && i < |states|
    ensures var s, l := states[i], states[i].wallet.ledger;
      && Delivered(s, m) + Lost(s, m) == Balance(l, MinerPaid, m) + Underway(s, m)
      && 0 <= Underway(s, m) <= Balance(l, MinerPending, m) && 0 <= Lost(s, m) <= Balance(l, MinerPaid, m)
      && Delivered(s, m) <= Balance(l, MinerPaid, m) + Balance(l, MinerPending, m) <= Sum(l, CreditOf(m))
      && (Delivered(s, m) == Balance(l, MinerPaid, m) + Underway(s, m) <==> ItemsArrived(s, m))
  {
    RunKeeps(states, steps, i);
    StateAgrees(states[i], m);
    LostIff(states[i], m);
    hide *;
  }

  predicate ItemsArrived(s: State, m: Miner) {
    forall i | i in s.wallet.items && i.miner == m && i.state == ItemConfirmed && i.amount > 0 :: OnChain(s.wallet, s.onChain, i.batch)
  }

  lemma {:induction false} ZeroTerms(items: seq<Item>, f: Item -> int)
    requires forall k | 0 <= k < |items| :: f(items[k]) >= 0
    ensures Sum(items, f) == 0 <==> forall k | 0 <= k < |items| :: f(items[k]) == 0
  {
    if items != [] {
      ZeroTerms(items[..|items| - 1], f);
      SumNonNegative(items[..|items| - 1], f);
    }
  }

  lemma LostIff(s: State, m: Miner)
    requires PayInv(s)
    ensures Lost(s, m) == 0 <==> ItemsArrived(s, m)
  {
    var w := s.wallet;
    Given(w);
    hide Inv, JobsOk, SentOk, ChainOk;
    forall k | 0 <= k < |w.items| ensures 0 <= Missing(w, s.onChain, m)(w.items[k]) <= Settled(m)(w.items[k]) {
      ItemBalance(w, s.onChain, m, w.items[k]);
    }
    ZeroTerms(w.items, Missing(w, s.onChain, m));
    LostItems(w, s.onChain, m);
    hide Sum, OnChain;
    assert ItemsArrived(s, m) <==> forall k | 0 <= k < |w.items| :: Missing(w, s.onChain, m)(w.items[k]) == 0;
  }

  lemma LostItems(w: Wallet, onChain: set<TxHash>, m: Miner)
    requires ItemsOk(w) && HashesOk(w)
    ensures forall i | i in w.items :: Missing(w, onChain, m)(i) == 0 <==>
      (i.miner == m && i.state == ItemConfirmed && i.amount > 0 ==> OnChain(w, onChain, i.batch))
  {
    hide OnChain;
    forall i | i in w.items
      ensures Missing(w, onChain, m)(i) == 0 <==> (i.miner == m && i.state == ItemConfirmed && i.amount > 0 ==> OnChain(w, onChain, i.batch))
    {
      SavedItem(w, i);
      assert Missing(w, onChain, m)(i) == if OnChain(w, onChain, i.batch) then 0 else Settled(m)(i);
    }
  }

  lemma ForfeitsArePositive(l: seq<Entry>, m: Miner)
    requires AmountsOk(l)
    ensures Sum(l, ForfeitedOf(m)) >= 0
  {
    forall k | 0 <= k < |l| ensures ForfeitedOf(m)(l[k]) >= 0 {
      assert l[k] in l;
    }
    SumNonNegative(l, ForfeitedOf(m));
  }

  lemma StateAgrees(s: State, m: Miner)
    requires PoolInv(s)
    ensures var l := s.wallet.ledger;
      && Delivered(s, m) + Lost(s, m) == Balance(l, MinerPaid, m) + Underway(s, m)
      && 0 <= Underway(s, m) <= Balance(l, MinerPending, m) && 0 <= Lost(s, m) <= Balance(l, MinerPaid, m)
      && Balance(l, MinerPaid, m) + Balance(l, MinerPending, m) <= Sum(l, CreditOf(m))
  {
    Given(s.wallet);
    DeliveredItems(s, m);
    ItemSums(s.wallet, s.onChain, m);
    ForfeitsArePositive(s.wallet.ledger, m);
    assert MinerOk(s.wallet, m);
    hide Sum, Delivered, PoolInv, Inv, ItemsOk, HashesOk, KeysOk, AmountsOk, Balance;
  }

  // ---------- honest nodes and buried payments ----------

  /**
   A 'committed' answer that the pool can act on, a fee being known, names a transaction on the chain; and no
   reorganisation drops the transaction of a CONFIRMED batch.
   */
  predicate Truthful(s: State, step: Step) {
    match step
    case SeeCommitted(b, fee) =>
      Unresolved(s.wallet, b) && FinalFee(s.wallet.batches[b], fee).Some? ==> s.wallet.batches[b].tx.value in s.onChain
    case Reorganise(onChain) =>
      forall b | b in s.wallet.batches && s.wallet.batches[b].state == BatchConfirmed && OnChain(s.wallet, s.onChain, b) ::
        s.wallet.batches[b].tx.value in onChain
    case _ => true
  }

  predicate ConfirmedOnChain(w: Wallet, onChain: set<TxHash>) {
    forall b | b in w.batches && w.batches[b].state == BatchConfirmed :: OnChain(w, onChain, b)
  }

  /** Transactions that confirm nothing new leave confirmed batches and their hashes as they were. */
  predicate ConfirmsNothing(w: Wallet, w': Wallet) {
    forall b | b in w'.batches && w'.batches[b].state == BatchConfirmed ::
      b in w.batches && w.batches[b].state == BatchConfirmed && w'.batches[b].tx == w.batches[b].tx
  }

  lemma StillOnChain(w: Wallet, w': Wallet, onChain: set<TxHash>)
    requires ConfirmedOnChain(w, onChain) && ConfirmsNothing(w, w')
    ensures ConfirmedOnChain(w', onChain)
  {
  }

  lemma WalletConfirmsNothing(s: State, step: Step)
    requires Enabled(s, step) && (step.Approve? || step.Propose? || step.Release? || step.SeePending? || step.Forfeit?)
    ensures ConfirmsNothing(s.wallet, Next(s, step).wallet) && Next(s, step).onChain == s.onChain
  {
    hide PostAll, Chosen, Truncated, Owed, Total, WithinCaps, AnyNegative, Select, Move, Covered, Received, LastSeen, Posted, Balance, R.Write, R.Read, R.Finding;
  }

  lemma ProcessConfirmsNothing(s: State, step: Step)
    requires Enabled(s, step) && !(step.Approve? || step.Propose? || step.Release? || step.SeePending? || step.Forfeit?)
    requires !step.SeeCommitted? && !step.Reorganise?
    ensures ConfirmsNothing(s.wallet, Next(s, step).wallet) && Next(s, step).onChain == s.onChain
  {
    hide HashUsed, Move, Payable, Outputs, Pplns.Allocate, Planned, Entries, Post, R.Write, R.Read, R.Finding, RewardFor;
  }

  lemma CommittedOnChainIff(w: Wallet, b: BatchId, fee: Option<nat>, onChain: set<TxHash>)
    requires ConfirmedOnChain(w, onChain)
    ensures ConfirmedOnChain(CommitConfirmed(w, b, fee), onChain) <==>
      (Unresolved(w, b) && FinalFee(w.batches[b], fee).Some? ==> w.batches[b].tx.value in onChain)
  {
    hide PostAll, AllPaidEntries, ConfirmItems;
    if Unresolved(w, b) && FinalFee(w.batches[b], fee).Some? {
      assert CommitConfirmed(w, b, fee).batches[b].state == BatchConfirmed;
    }
  }

  /** The transactions of CONFIRMED batches stay on the chain through a step exactly when the step is truthful. */
  lemma HonestStepIff(s: State, step: Step)
    requires Enabled(s, step) && ConfirmedOnChain(s.wallet, s.onChain)
    ensures ConfirmedOnChain(Next(s, step).wallet, Next(s, step).onChain) <==> Truthful(s, step)
  {
    if step.SeeCommitted? {
      CommittedOnChainIff(s.wallet, step.batch, step.fee, s.onChain);
      hide CommitConfirmed, FinalFee;
    } else if !step.Reorganise? {
      if step.Approve? || step.Propose? || step.Release? || step.SeePending? || step.Forfeit? {
        WalletConfirmsNothing(s, step);
      } else {
        ProcessConfirmsNothing(s, step);
      }
      StillOnChain(s.wallet, Next(s, step).wallet, s.onChain);
      hide Next, Enabled, ConfirmedOnChain, ConfirmsNothing;
    }
  }

  /** In every run, the transactions of CONFIRMED batches have been on the chain at every moment exactly when every step was truthful. */
  lemma {:induction false} HonestRunIff(states: seq<State>, steps: seq<Step>, i: nat)
    requires Run(states, steps) && i < |states|
    ensures AlwaysOnChain(states, i) <==> AllTruthful(states, steps, i)
  {
    hide Next, Enabled, ConfirmedOnChain, Truthful;
    if i == 0 {
      NothingConfirmed();
    } else {
      HonestRunIff(states, steps, i - 1);
      if ConfirmedOnChain(states[i - 1].wallet, states[i - 1].onChain) {
        HonestStepIff(states[i - 1], steps[i - 1]);
      }
      OneMore(states, steps, i);
    }
  }

  ghost predicate AlwaysOnChain(states: seq<State>, i: nat)
    requires i < |states|
  {
    forall k | 0 <= k <= i :: ConfirmedOnChain(states[k].wallet, states[k].onChain)
  }

  ghost predicate AllTruthful(states: seq<State>, steps: seq<Step>, i: nat)
    requires i <= |steps| < |states|
  {
    forall k | 0 <= k < i :: Truthful(states[k], steps[k])
  }

  lemma OneMore(states: seq<State>, steps: seq<Step>, i: nat)
    requires 0 < i <= |steps| < |states|
    ensures AlwaysOnChain(states, i) <==> AlwaysOnChain(states, i - 1) && ConfirmedOnChain(states[i].wallet, states[i].onChain)
    ensures AllTruthful(states, steps, i) <==> AllTruthful(states, steps, i - 1) && Truthful(states[i - 1], steps[i - 1])
  {
    hide ConfirmedOnChain, Truthful;
    if AlwaysOnChain(states, i - 1) && ConfirmedOnChain(states[i].wallet, states[i].onChain) {
      forall k | 0 <= k <= i ensures ConfirmedOnChain(states[k].wallet, states[k].onChain) {
        assert k < i || k == i;
      }
    }
  }

  lemma NothingConfirmed()
    ensures ConfirmedOnChain(Start().wallet, Start().onChain)
  {
  }

  lemma NothingLost(s: State, m: Miner)
    requires PoolInv(s) && ConfirmedOnChain(s.wallet, s.onChain)
    ensures Lost(s, m) == 0
  {
    forall k | 0 <= k < |s.wallet.items| ensures Missing(s.wallet, s.onChain, m)(s.wallet.items[k]) == 0 {
      assert s.wallet.items[k] in s.wallet.items;
      var i := s.wallet.items[k];
      assert RowOk(i, s.wallet.batches);
      assert i.state == ItemConfirmed ==> s.wallet.batches[i.batch].state == BatchConfirmed;
      assert OnChain(s.wallet, s.onChain, i.batch) || Settled(m)(i) == 0;
    }
    SumZero(s.wallet.items, Missing(s.wallet, s.onChain, m));
  }

  /** With a truthful node whose committed payouts stay, every miner has received between PAID and PAID + PENDING_PAYOUT. */
  lemma PaidIsDelivered(states: seq<State>, steps: seq<Step>, i: nat, m: Miner)
    requires Run(states, steps) && i < |states| && AllTruthful(states, steps, i)
    ensures var l := states[i].wallet.ledger;
      Balance(l, MinerPaid, m) <= Delivered(states[i], m) <= Balance(l, MinerPaid, m) + Balance(l, MinerPending, m)
  {
    HonestRunIff(states, steps, i);
    RunKeeps(states, steps, i);
    ChainAgreesInEveryRun(states, steps, i, m);
    hide *;
    NothingLost(states[i], m);
  }

  /** The code acts on one 'committed' answer at any depth: a reorganisation that then drops everything leaves PAID above what was received. */
  lemma ReorganisationLosesPayments(states: seq<State>, steps: seq<Step>, i: nat, m: Miner)
    requires Run(states, steps) && i < |states| && Balance(states[i].wallet.ledger, MinerPaid, m) > 0
    ensures Run(states[..i + 1] + [Next(states[i], Reorganise({}))], steps[..i] + [Reorganise({})])
    ensures var s := Next(states[i], Reorganise({}));
      Delivered(s, m) == 0 < Balance(s.wallet.ledger, MinerPaid, m)
  {
    var s := Next(states[i], Reorganise({}));
    SumZero(s.sent, Landed({}, m));
    hide Delivered, Start, Balance;
    ExtendRun(states, steps, i, Reorganise({}));
  }

  lemma ExtendRun(states: seq<State>, steps: seq<Step>, i: nat, step: Step)
    requires Run(states, steps) && i < |states| && Enabled(states[i], step)
    ensures Run(states[..i + 1] + [Next(states[i], step)], steps[..i] + [step])
  {
    hide Enabled, Next, Start;
  }

  // ---------- balances ----------

  /** In every state of every run, for every miner, the books of src/accounting/ledger.js agree with the payout tables. */
  lemma BalancesInEveryRun(states: seq<State>, steps: seq<Step>, i: nat, m: Miner)
    requires Run(states, steps) && i < |states|
    ensures var w := states[i].wallet;
      && Balance(w.ledger, MinerPending, m) == Sum(w.items, Outstanding(m))
      && Balance(w.ledger, MinerPaid, m) == Sum(w.items, Settled(m))
      && Balance(w.ledger, MinerConfirmed, m) >= 0
      && Balance(w.ledger, MinerConfirmed, m) + Balance(w.ledger, MinerPending, m) + Balance(w.ledger, MinerPaid, m)
         == Sum(w.ledger, CreditOf(m)) - Sum(w.ledger, ForfeitedOf(m))
  {
    RunKeeps(states, steps, i);
    assert MinerOk(states[i].wallet, m);
  }

  /** In every state of every run, a HELD item has no reservation row. */
  lemma HeldReservesNothing(states: seq<State>, steps: seq<Step>, i: nat, it: Item)
    requires Run(states, steps) && i < |states| && it in states[i].wallet.items && it.state == ItemHeld
    ensures !Posted(states[i].wallet.ledger, ReserveConfirmed(it.batch, it.miner))
    ensures !Posted(states[i].wallet.ledger, ReservePending(it.batch, it.miner))
  {
    RunKeeps(states, steps, i);
    assert Unreserved(states[i].wallet.ledger, it);
  }
}
