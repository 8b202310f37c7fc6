/**
 Every payout sweep, thrown errors included, is a run of steps of the pool: whatever holds in every run of the pool
 holds of the payout worker as it is written.
 */
module SweepRuns {
  import opened Wrappers
  import opened Ledger
  import opened Payouts
  import opened PayoutSweeps
  import opened Pool
  import opened PoolPaths
  import R = Reconciler

  /** Steps lead to a state with these payout tables; besides, only transactions may have been sent. */
  ghost predicate Reaches(s: State, w: Wallet) {
    exists sent :: Leads(s, s.(wallet := w, sent := sent))
  }

  lemma ReachesSelf(s: State)
    ensures Reaches(s, s.wallet)
  {
    LeadsSelf(s);
    assert s == s.(wallet := s.wallet, sent := s.sent);
  }

  lemma ReachesOne(s: State, step: Step, w: Wallet)
    requires Enabled(s, step) && Next(s, step) == s.(wallet := w)
    ensures Reaches(s, w)
  {
    hide Enabled, Next;
    LeadsSelf(s);
    LeadsNext(s, s, step);
    assert s.(wallet := w) == s.(wallet := w, sent := s.sent);
  }

  /** What every state with these tables reaches can be reached from where the tables were reached. */
  lemma ReachesOn(s: State, v: Wallet, u: Wallet)
    requires Reaches(s, v) && forall sent :: Reaches(s.(wallet := v, sent := sent), u)
    ensures Reaches(s, u)
  {
    hide Leads;
    var sent :| Leads(s, s.(wallet := v, sent := sent));
    var mid := s.(wallet := v, sent := sent);
    assert Reaches(mid, u);
    var more :| Leads(mid, mid.(wallet := u, sent := more));
    LeadsOn(s, mid, mid.(wallet := u, sent := more));
    assert mid.(wallet := u, sent := more) == s.(wallet := u, sent := more);
  }

  // ---------- the parts of a sweep ----------

  lemma ConfirmReaches(s: State, b: BatchId, node: NodeAnswer)
    ensures Reaches(s, Confirm(s.wallet, b, node).tables)
  {
    hide Reaches, MarkSeen, CommitConfirmed;
    match node.status
    case Unknown => ReachesSelf(s);
    case InPool => ReachesOne(s, SeePending(b), MarkSeen(s.wallet, b));
    case Committed => ReachesOne(s, SeeCommitted(b, node.fee), CommitConfirmed(s.wallet, b, node.fee));
  }

  lemma {:induction false} RecoverReaches(s: State, rows: seq<BatchId>, nodes: BatchId -> NodeAnswer)
    ensures Reaches(s, Recover(s.wallet, rows, nodes).tables)
  {
    hide Reaches, Confirm;
    if rows == [] {
      ReachesSelf(s);
    } else {
      var n := |rows| - 1;
      var before := Recover(s.wallet, rows[..n], nodes);
      RecoverReaches(s, rows[..n], nodes);
      if !before.failed {
        forall sent ensures Reaches(s.(wallet := before.tables, sent := sent), Confirm(before.tables, rows[n], nodes(rows[n])).tables) {
          ConfirmReaches(s.(wallet := before.tables, sent := sent), rows[n], nodes(rows[n]));
        }
        ReachesOn(s, before.tables, Confirm(before.tables, rows[n], nodes(rows[n])).tables);
      }
    }
  }

  lemma {:induction false} ForfeitsReach(s: State, ms: seq<Miner>, rowId: nat -> nat)
    ensures Reaches(s, ForfeitAll(s.wallet, ms, rowId))
  {
    hide Reaches, ForfeitOne;
    if ms == [] {
      ReachesSelf(s);
    } else {
      var n := |ms| - 1;
      var before := ForfeitAll(s.wallet, ms[..n], rowId);
      ForfeitsReach(s, ms[..n], rowId);
      forall sent ensures Reaches(s.(wallet := before, sent := sent), ForfeitOne(before, ms[n], rowId)) {
        ReachesOne(s.(wallet := before, sent := sent), Step.Forfeit(ms[n], rowId), ForfeitOne(before, ms[n], rowId));
      }
      ReachesOn(s, before, ForfeitOne(before, ms[n], rowId));
    }
  }

  /** Sign, save and, if the broadcast succeeds, send and record; otherwise the process stops there. */
  lemma ProcessReaches(s: State, b: BatchId, build: BuildAnswer)
    requires 0 !in s.paying
    ensures Reaches(s, Process(s.wallet, b, build).tables)
  {
    hide Leads;
    if Payable(s.wallet, b) == [] || !CanSave(s.wallet, b, build.hash) {
      ReachesSelf(s);
    } else {
      SavedLeads(s, b, build);
      var tx := Tx(build.hash, b, Outputs(Payable(s.wallet, b)));
      var saved := s.(wallet := SaveBuilt(s.wallet, b, build.hash, build.fee), paying := s.paying[0 := Saved(tx)]);
      hide Payable, CanSave, SaveBuilt, Outputs;
      if build.broadcastOk {
        SentLeads(s, saved, tx);
        assert Leads(s, s.(wallet := MarkBroadcast(saved.wallet, b), sent := s.sent + [tx]));
      } else {
        LeadsNext(s, saved, StopPaying(0));
        assert s.paying[0 := Saved(tx)] - {0} == s.paying;
        assert Next(saved, StopPaying(0)) == s.(wallet := saved.wallet, sent := s.sent);
      }
    }
  }

  lemma SavedLeads(s: State, b: BatchId, build: BuildAnswer)
    requires 0 !in s.paying && Payable(s.wallet, b) != [] && CanSave(s.wallet, b, build.hash)
    ensures var tx := Tx(build.hash, b, Outputs(Payable(s.wallet, b)));
      Leads(s, s.(wallet := SaveBuilt(s.wallet, b, build.hash, build.fee), paying := s.paying[0 := Saved(tx)]))
  {
    hide Leads, Payable, CanSave, SaveBuilt, Outputs;
    var tx := Tx(build.hash, b, Outputs(Payable(s.wallet, b)));
    LeadsSelf(s);
    LeadsNext(s, s, Sign(0, b, build.hash));
    var signed := s.(paying := s.paying[0 := Signed(tx)]);
    assert Next(s, Sign(0, b, build.hash)) == signed;
    LeadsNext(s, signed, Save(0, build.fee));
    assert s.paying[0 := Signed(tx)][0 := Saved(tx)] == s.paying[0 := Saved(tx)];
    assert Next(signed, Save(0, build.fee)) == s.(wallet := SaveBuilt(s.wallet, b, build.hash, build.fee), paying := s.paying[0 := Saved(tx)]);
  }

  lemma SentLeads(s: State, saved: State, tx: Tx)
    requires 0 !in s.paying && Leads(s, saved) && saved == s.(wallet := saved.wallet, paying := s.paying[0 := Saved(tx)])
    ensures Leads(s, s.(wallet := MarkBroadcast(saved.wallet, tx.batch), sent := s.sent + [tx]))
  {
    hide Leads, MarkBroadcast;
    LeadsNext(s, saved, Broadcast(0));
    var broadcast := saved.(sent := s.sent + [tx], paying := saved.paying[0 := Paying.Sent(tx)]);
    assert Next(saved, Broadcast(0)) == broadcast;
    LeadsNext(s, broadcast, Record(0));
    assert broadcast.paying - {0} == s.paying;
    assert Next(broadcast, Record(0)) == s.(wallet := MarkBroadcast(saved.wallet, tx.batch), sent := s.sent + [tx]);
  }

  lemma ProcessReachesAll(s: State, v: Wallet, b: BatchId, build: BuildAnswer)
    requires 0 !in s.paying && Reaches(s, v)
    ensures Reaches(s, Process(v, b, build).tables)
  {
    hide Reaches, Process;
    forall sent ensures Reaches(s.(wallet := v, sent := sent), Process(v, b, build).tables) {
      ProcessReaches(s.(wallet := v, sent := sent), b, build);
    }
    ReachesOn(s, v, Process(v, b, build).tables);
  }

  /** The gate reads the same confirmed income throughout. */
  ghost predicate GateReads(s: State, received: BatchId -> int) {
    forall b :: received(b) == Received(s.receipts)
  }

  lemma ReleaseReaches(s: State, b: BatchId)
    ensures Reaches(s, ReserveReleased(s.wallet, Received(s.receipts), b))
  {
    hide Reaches, ReserveReleased, Received;
    ReachesOne(s, Release(b), ReserveReleased(s.wallet, Received(s.receipts), b));
  }

  lemma {:induction false} ResumeReaches(s: State, rows: seq<BatchId>, received: BatchId -> int, builds: BatchId -> BuildAnswer)
    requires 0 !in s.paying && GateReads(s, received)
    ensures Reaches(s, Resume(s.wallet, rows, received, builds).tables)
  {
    hide Reaches, ReserveReleased, Process, PayoutSweeps.Ready, Received;
    if rows == [] {
      ReachesSelf(s);
    } else {
      var n := |rows| - 1;
      var before, b := Resume(s.wallet, rows[..n], received, builds), rows[n];
      ResumeReaches(s, rows[..n], received, builds);
      if !before.failed {
        var released := ReserveReleased(before.tables, received(b), b);
        forall sent ensures Reaches(s.(wallet := before.tables, sent := sent), released) {
          ReleaseReaches(s.(wallet := before.tables, sent := sent), b);
        }
        ReachesOn(s, before.tables, released);
        ProcessReachesAll(s, released, b, builds(b));
      }
    }
  }

  lemma NewBatchReaches(s: State, t: Tick)
    requires 0 !in s.paying && GateReads(s, t.received) && t.newId !in s.wallet.batches
    ensures Reaches(s, NewBatch(s.wallet, t).tables)
  {
    var w, b, cs := s.wallet, t.newId, t.eligible(s.wallet);
    var w' := CreateBatch(w, t.received(b), b, cs, t.limits, t.dailySpent);
    hide Reaches, CreateBatch, Process, CreateFails, Received;
    ReachesSelf(s);
    ReachesOne(s, Propose(b, cs, t.limits, t.dailySpent), w');
    ProcessReachesAll(s, w', b, t.builds(b));
  }

  lemma NewBatchReachesAll(s: State, v: Wallet, t: Tick)
    requires 0 !in s.paying && GateReads(s, t.received) && t.newId !in v.batches && Reaches(s, v)
    ensures Reaches(s, NewBatch(v, t).tables)
  {
    hide Reaches, NewBatch, Received;
    forall sent ensures Reaches(s.(wallet := v, sent := sent), NewBatch(v, t).tables) {
      NewBatchReaches(s.(wallet := v, sent := sent), t);
    }
    ReachesOn(s, v, NewBatch(v, t).tables);
  }

  lemma SettleReaches(s: State, t: Tick)
    ensures Reaches(s, Settle(s.wallet, t).tables)
  {
    hide Reaches, Recover, ForfeitAll, UnresolvedBatches;
    ReachesSelf(s);
    var rows := t.listing(UnresolvedBatches(s.wallet));
    var r := if t.hasNode then Recover(s.wallet, rows, t.nodes).tables else s.wallet;
    RecoverReaches(s, rows, t.nodes);
    forall sent ensures Reaches(s.(wallet := r, sent := sent), ForfeitAll(r, t.dormant(r), t.rowId)) {
      ForfeitsReach(s.(wallet := r, sent := sent), t.dormant(r), t.rowId);
    }
    ReachesOn(s, r, ForfeitAll(r, t.dormant(r), t.rowId));
  }

  lemma ResumeReachesAll(s: State, v: Wallet, rows: seq<BatchId>, received: BatchId -> int, builds: BatchId -> BuildAnswer)
    requires 0 !in s.paying && GateReads(s, received) && Reaches(s, v)
    ensures Reaches(s, Resume(v, rows, received, builds).tables)
  {
    hide Reaches, Resume, Received;
    forall sent ensures Reaches(s.(wallet := v, sent := sent), Resume(v, rows, received, builds).tables) {
      ResumeReaches(s.(wallet := v, sent := sent), rows, received, builds);
    }
    ReachesOn(s, v, Resume(v, rows, received, builds).tables);
  }

  /** From every state, a sweep whose gate reads that state's income ends in tables that steps of the pool lead to. */
  lemma SweepIsRun(s: State, t: Tick)
    requires 0 !in s.paying && GateReads(s, t.received) && t.newId !in s.wallet.batches
    ensures Reaches(s, Sweep(s.wallet, t).tables)
  {
    SettleReaches(s, t);
    SettleKeeps(s.wallet, t);
    ReachesSelf(s);
    var settled := Settle(s.wallet, t).tables;
    var stuck := t.listing(BatchesIn(settled, BatchReserved));
    hide Reaches, Settle, Resume, NewBatch, AnyIn, BatchesIn, GateReads;
    ResumeReachesAll(s, settled, stuck, t.received, t.builds);
    ResumeSameBatches(settled, stuck, t.received, t.builds);
    NewBatchReachesAll(s, Resume(settled, stuck, t.received, t.builds).tables, t);
  }

  /** So after a sweep the pool is in a state of some run, and all that holds of those holds of it. */
  lemma SweepStaysReachable(s: State, t: Tick)
    requires Reachable(s) && 0 !in s.paying && GateReads(s, t.received) && t.newId !in s.wallet.batches
    ensures exists sent :: Reachable(s.(wallet := Sweep(s.wallet, t).tables, sent := sent))
  {
    SweepIsRun(s, t);
    var w := Sweep(s.wallet, t).tables;
    hide Reachable, Leads, Sweep, Next, Enabled;
    var sent :| Leads(s, s.(wallet := w, sent := sent));
    StaysReachable(s, s.(wallet := w, sent := sent));
  }
}
