/** One payout sweep as a function of the tables and of what node, builder and clock answer. */
module PayoutSweeps {
  import opened Wrappers
  import opened Sums
  import opened Ledger
  import opened Payouts
  import opened PayoutInvariant
  import opened PayoutSteps

  datatype Status = Unknown | InPool | Committed

  /** What the node says of a batch's transaction: its status and, if it can be derived, its fee. */
  datatype NodeAnswer = NodeAnswer(status: Status, fee: Option<nat>)

  /** What the builder and the broadcast do for a batch. */
  datatype BuildAnswer = BuildAnswer(hash: TxHash, fee: Option<nat>, broadcastOk: bool)

  /** The tables a call leaves behind, and whether it threw. */
  datatype Outcome = Outcome(tables: Wallet, failed: bool)

  /** Forfeitures of a list of dormant miners, one transaction each. */
  function ForfeitAll(w: Wallet, ms: seq<Miner>, rowId: nat -> nat): Wallet {
    if ms == [] then w else ForfeitOne(ForfeitAll(w, ms[..|ms| - 1], rowId), ms[|ms| - 1], rowId)
  }

  /** confirmBatch: it throws when a committed transaction's fee is neither derivable nor saved. */
  function Confirm(w: Wallet, b: BatchId, node: NodeAnswer): Outcome {
    match node.status
    case Unknown => Outcome(w, false)
    case InPool => Outcome(MarkSeen(w, b), false)
    case Committed => Outcome(CommitConfirmed(w, b, node.fee), Unresolved(w, b) && FinalFee(w.batches[b], node.fee).None?)
  }

  /** recoverPendingBatches over the rows it selected, until one throws. */
  function Recover(w: Wallet, rows: seq<BatchId>, nodes: BatchId -> NodeAnswer): Outcome {
    if rows == [] then Outcome(w, false)
    else
      var before := Recover(w, rows[..|rows| - 1], nodes);
      if before.failed then before else Confirm(before.tables, rows[|rows| - 1], nodes(rows[|rows| - 1]))
  }

  lemma {:induction false} RecoverStops(w: Wallet, rows: seq<BatchId>, nodes: BatchId -> NodeAnswer, k: nat)
    requires k <= |rows| && Recover(w, rows[..k], nodes).failed
    ensures Recover(w, rows, nodes) == Recover(w, rows[..k], nodes)
    decreases |rows| - k
  {
    if k < |rows| {
      assert rows[..k + 1][..k] == rows[..k];
      RecoverStops(w, rows, nodes, k + 1);
    } else {
      assert rows[..k] == rows;
    }
  }

  /** processBatch: nothing payable, a refused hash and a failed broadcast throw. */
  function Process(w: Wallet, b: BatchId, build: BuildAnswer): Outcome {
    if Payable(w, b) == [] || !CanSave(w, b, build.hash) then Outcome(w, true)
    else
      var saved := SaveBuilt(w, b, build.hash, build.fee);
      if build.broadcastOk then Outcome(MarkBroadcast(saved, b), false) else Outcome(saved, true)
  }

  /** Whether reserveReleasedBatch returns true: the batch is RESERVED and nothing of it is HELD. */
  predicate Ready(w: Wallet, b: BatchId) {
    b in w.batches && w.batches[b].state == BatchReserved && Select(w.items, b, ItemHeld) == []
  }

  function Resume(w: Wallet, rows: seq<BatchId>, received: BatchId -> int, builds: BatchId -> BuildAnswer): Outcome {
    if rows == [] then Outcome(w, false)
    else
      var before, b := Resume(w, rows[..|rows| - 1], received, builds), rows[|rows| - 1];
      if before.failed then before
      else
        var released := ReserveReleased(before.tables, received(b), b);
        if Ready(released, b) then Process(released, b, builds(b)) else Outcome(released, false)
  }

  predicate AnyIn(w: Wallet, states: set<BatchState>) {
    exists b | b in w.batches :: w.batches[b].state in states
  }

  lemma {:induction false} ResumeStops(w: Wallet, rows: seq<BatchId>, received: BatchId -> int, builds: BatchId -> BuildAnswer, k: nat)
    requires k <= |rows| && Resume(w, rows[..k], received, builds).failed
    ensures Resume(w, rows, received, builds) == Resume(w, rows[..k], received, builds)
    decreases |rows| - k
  {
    if k < |rows| {
      assert rows[..k + 1][..k] == rows[..k];
      ResumeStops(w, rows, received, builds, k + 1);
    } else {
      assert rows[..k] == rows;
    }
  }

  /** capVerdict throws on a negative amount. */
  predicate CreateFails(w: Wallet, received: int, b: BatchId, cs: seq<Candidate>, limits: Limits) {
    Owed(w.ledger) <= received && AnyNegative(Chosen(w.ledger, Truncated(cs, limits), limits, b, ItemHeld))
  }

  /**
   What a sweep finds outside the tables: answers, clocks, the order in which rows are listed, and the confirmed
   income as the solvency gate reads it anew for each batch.
   */
  datatype Tick = Tick(
    locked: bool, hasNode: bool, nodes: BatchId -> NodeAnswer, dormant: Wallet -> seq<Miner>, rowId: nat -> nat,
    listing: set<BatchId> -> seq<BatchId>, builds: BatchId -> BuildAnswer, eligible: Wallet -> seq<Candidate>,
    received: BatchId -> int, newId: BatchId, limits: Limits, dailySpent: nat)

  function UnresolvedBatches(w: Wallet): set<BatchId> {
    set b | b in w.batches && Unresolved(w, b)
  }

  function BatchesIn(w: Wallet, st: BatchState): set<BatchId> {
    set b | b in w.batches && w.batches[b].state == st
  }

  /** The part of runOnce before new work: recovery and forfeitures. */
  function Settle(w: Wallet, t: Tick): Outcome {
    var recovered := if t.hasNode then Recover(w, t.listing(UnresolvedBatches(w)), t.nodes) else Outcome(w, false);
    if recovered.failed then recovered
    else Outcome(ForfeitAll(recovered.tables, t.dormant(recovered.tables), t.rowId), false)
  }

  function NewBatch(w: Wallet, t: Tick): Outcome {
    var miners := t.eligible(w);
    if miners == [] then Outcome(w, false)
    else if CreateFails(w, t.received(t.newId), t.newId, miners, t.limits) then Outcome(w, true)
    else
      var w' := CreateBatch(w, t.received(t.newId), t.newId, miners, t.limits, t.dailySpent);
      if w' != w && w'.batches[t.newId].state == BatchReserved then Process(w', t.newId, t.builds(t.newId)) else Outcome(w', false)
  }

  function Sweep(w: Wallet, t: Tick): Outcome {
    if !t.locked then Outcome(w, false)
    else
      var settled := Settle(w, t);
      if settled.failed || AnyIn(settled.tables, {BatchBuilt, BatchBroadcast}) then settled
      else
        var stuck := t.listing(BatchesIn(settled.tables, BatchReserved));
        var resumed := Resume(settled.tables, stuck, t.received, t.builds);
        if resumed.failed || stuck != [] || AnyIn(resumed.tables, {BatchHeld}) then resumed
        else NewBatch(resumed.tables, t)
  }

  // ---------- every sweep keeps the invariant ----------

  lemma ConfirmKeepsInv(w: Wallet, b: BatchId, node: NodeAnswer)
    requires Inv(w)
    ensures Inv(Confirm(w, b, node).tables)
  {
    hide Inv, MarkSeen, CommitConfirmed, FinalFee, Unresolved;
    MarkSeenKeepsInv(w, b);
    CommitConfirmedKeepsInv(w, b, node.fee);
  }

  lemma {:induction false} RecoverKeepsInv(w: Wallet, rows: seq<BatchId>, nodes: BatchId -> NodeAnswer)
    requires Inv(w)
    ensures Inv(Recover(w, rows, nodes).tables)
  {
    hide Inv, Confirm;
    if rows != [] {
      var n := |rows| - 1;
      RecoverKeepsInv(w, rows[..n], nodes);
      ConfirmKeepsInv(Recover(w, rows[..n], nodes).tables, rows[n], nodes(rows[n]));
    }
  }

  lemma {:induction false} ForfeitAllKeepsInv(w: Wallet, ms: seq<Miner>, rowId: nat -> nat)
    requires Inv(w)
    ensures Inv(ForfeitAll(w, ms, rowId))
  {
    hide Inv, ForfeitOne;
    if ms != [] {
      var n := |ms| - 1;
      ForfeitAllKeepsInv(w, ms[..n], rowId);
      ForfeitOneKeepsInv(ForfeitAll(w, ms[..n], rowId), ms[n], rowId);
    }
  }

  lemma PayableReserved(w: Wallet, b: BatchId)
    requires ItemsOk(w) && Payable(w, b) != []
    ensures AllIn(w.items, b, ItemReserved)
  {
    var rows := Payable(w, b);
    SelectRows(w.items, b, ItemReserved);
    assert rows[0] in rows;
    assert rows[0] in w.items && rows[0].state == ItemReserved;
  }

  lemma ProcessKeepsInv(w: Wallet, b: BatchId, build: BuildAnswer)
    requires Inv(w)
    ensures Inv(Process(w, b, build).tables)
  {
    if Payable(w, b) != [] && CanSave(w, b, build.hash) {
      PayableReserved(w, b);
      SaveBuiltKeepsInv(w, b, build.hash, build.fee);
      MarkBroadcastKeepsInv(SaveBuilt(w, b, build.hash, build.fee), b);
      hide Inv, MarkBroadcast, SaveBuilt;
    }
  }

  lemma {:induction false} ResumeKeepsInv(w: Wallet, rows: seq<BatchId>, received: BatchId -> int, builds: BatchId -> BuildAnswer)
    requires Inv(w)
    ensures Inv(Resume(w, rows, received, builds).tables)
  {
    hide Inv, ReserveReleased, Process, Ready;
    if rows != [] {
      var n := |rows| - 1;
      ResumeKeepsInv(w, rows[..n], received, builds);
      var before := Resume(w, rows[..n], received, builds).tables;
      ReserveReleasedKeepsInv(before, received(rows[n]), rows[n]);
      ProcessKeepsInv(ReserveReleased(before, received(rows[n]), rows[n]), rows[n], builds(rows[n]));
    }
  }

  // ---------- which batches a sweep creates ----------

  lemma SameBatches(w: Wallet, b: BatchId, node: NodeAnswer, build: BuildAnswer, received: int)
    ensures Confirm(w, b, node).tables.batches.Keys == w.batches.Keys
    ensures Process(w, b, build).tables.batches.Keys == w.batches.Keys
    ensures ReserveReleased(w, received, b).batches.Keys == w.batches.Keys
  {
    hide PostAll, Select, Owed, Covered, Move, Payable, HashUsed, ConfirmItems;
  }

  lemma {:induction false} RecoverSameBatches(w: Wallet, rows: seq<BatchId>, nodes: BatchId -> NodeAnswer)
    ensures Recover(w, rows, nodes).tables.batches.Keys == w.batches.Keys
  {
    hide Confirm, Process, ReserveReleased;
    if rows != [] {
      var n := |rows| - 1;
      RecoverSameBatches(w, rows[..n], nodes);
      SameBatches(Recover(w, rows[..n], nodes).tables, rows[n], nodes(rows[n]), BuildAnswer("", None, false), 0);
    }
  }

  lemma {:induction false} ForfeitSameBatches(w: Wallet, ms: seq<Miner>, rowId: nat -> nat)
    ensures ForfeitAll(w, ms, rowId).batches == w.batches
  {
    hide PostAll, LastSeen, Balance, Posted;
    if ms != [] {
      ForfeitSameBatches(w, ms[..|ms| - 1], rowId);
    }
  }

  lemma {:induction false} ResumeSameBatches(w: Wallet, rows: seq<BatchId>, received: BatchId -> int, builds: BatchId -> BuildAnswer)
    ensures Resume(w, rows, received, builds).tables.batches.Keys == w.batches.Keys
  {
    hide Confirm, Process, ReserveReleased, Ready;
    if rows != [] {
      var n := |rows| - 1;
      ResumeSameBatches(w, rows[..n], received, builds);
      var before := Resume(w, rows[..n], received, builds).tables;
      SameBatches(before, rows[n], NodeAnswer(Unknown, None), builds(rows[n]), received(rows[n]));
      SameBatches(ReserveReleased(before, received(rows[n]), rows[n]), rows[n], NodeAnswer(Unknown, None), builds(rows[n]), received(rows[n]));
    }
  }

  lemma SettleKeeps(w: Wallet, t: Tick)
    ensures Inv(w) ==> Inv(Settle(w, t).tables)
    ensures Settle(w, t).tables.batches.Keys == w.batches.Keys
  {
    hide Inv, Recover, ForfeitAll, UnresolvedBatches;
    var rows := t.listing(UnresolvedBatches(w));
    RecoverSameBatches(w, rows, t.nodes);
    var recovered := if t.hasNode then Recover(w, rows, t.nodes).tables else w;
    ForfeitSameBatches(recovered, t.dormant(recovered), t.rowId);
    if Inv(w) {
      RecoverKeepsInv(w, rows, t.nodes);
      ForfeitAllKeepsInv(recovered, t.dormant(recovered), t.rowId);
    }
  }

  lemma NewBatchKeepsInv(w: Wallet, t: Tick)
    requires Inv(w) && t.newId !in w.batches
    ensures Inv(NewBatch(w, t).tables)
  {
    hide Inv, CreateBatch, Process, CreateFails;
    var w' := CreateBatch(w, t.received(t.newId), t.newId, t.eligible(w), t.limits, t.dailySpent);
    CreateBatchKeepsInv(w, t.received(t.newId), t.newId, t.eligible(w), t.limits, t.dailySpent);
    ProcessKeepsInv(w', t.newId, t.builds(t.newId));
    CreatesFresh(w, t);
  }

  lemma CreatesFresh(w: Wallet, t: Tick)
    ensures var w' := CreateBatch(w, t.received(t.newId), t.newId, t.eligible(w), t.limits, t.dailySpent);
      w' != w ==> t.newId in w'.batches && forall b | b in w'.batches && b != t.newId :: b in w.batches && w'.batches[b] == w.batches[b]
  {
    hide PostAll, Chosen, Truncated, Owed, Total, AnyNegative, WithinCaps;
  }

  /** Whatever the environment answers, a sweep, thrown errors included, keeps the payout tables consistent. */
  lemma SweepKeepsInv(w: Wallet, t: Tick)
    requires Inv(w) && t.newId !in w.batches
    ensures Inv(Sweep(w, t).tables)
  {
    SettleKeeps(w, t);
    var settled := Settle(w, t).tables;
    var stuck := t.listing(BatchesIn(settled, BatchReserved));
    hide Inv, Settle, Resume, NewBatch, AnyIn, BatchesIn;
    ResumeKeepsInv(settled, stuck, t.received, t.builds);
    ResumeSameBatches(settled, stuck, t.received, t.builds);
    NewBatchKeepsInv(Resume(settled, stuck, t.received, t.builds).tables, t);
  }

  lemma NewBatchOthers(w: Wallet, t: Tick, b: BatchId)
    requires b in NewBatch(w, t).tables.batches && b != t.newId
    ensures b in w.batches && NewBatch(w, t).tables.batches[b] == w.batches[b]
  {
    CreatesFresh(w, t);
    hide CreateBatch, CreateFails, Payable, Move, HashUsed;
  }

  /** A sweep proposes a new batch only when every batch there is has been confirmed on chain. */
  lemma CreatesOnlyWhenAllConfirmed(w: Wallet, t: Tick, b: BatchId)
    requires t.newId !in w.batches && t.newId in Sweep(w, t).tables.batches
    requires forall s, c :: c in t.listing(s) <==> c in s
    requires b in Sweep(w, t).tables.batches && b != t.newId
    ensures Sweep(w, t).tables.batches[b].state == BatchConfirmed
  {
    SettleKeeps(w, t);
    var settled := Settle(w, t).tables;
    var stuck := t.listing(BatchesIn(settled, BatchReserved));
    ResumeSameBatches(settled, stuck, t.received, t.builds);
    var resumed := Resume(settled, stuck, t.received, t.builds).tables;
    hide Settle, NewBatch;
    assert stuck == [] && resumed == settled;
    NewBatchOthers(settled, t, b);
    assert b in BatchesIn(settled, BatchReserved) ==> b in stuck;
  }
}
