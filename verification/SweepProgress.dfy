/** What is true of the payout tables after every sweep: nothing open is left waiting, and what can be paid is on its way. */
module SweepProgress {
  import opened Wrappers
  import opened Sums
  import opened Ledger
  import opened Payouts
  import opened PayoutInvariant
  import opened PayoutSweeps
  import opened PayoutEffects
  import opened SweepPhases

  /** A sweep's input: consistent tables, a new id that is new, and a listing of rows that omits and repeats nothing. */
  ghost predicate Ready(w: Wallet, t: Tick) {
    Inv(w) && t.newId !in w.batches && Lists(t) && t.locked && NodeKnows(w, t)
  }

  lemma SweepIs(w: Wallet, t: Tick)
    requires t.locked && !Settle(w, t).failed
    ensures Sweep(w, t) == Work(Settle(w, t).tables, t)
  {
    hide Settle, Resume, NewBatch, AnyIn, BatchesIn;
  }

  lemma RecoveredBatch(w: Wallet, r: Wallet, t: Tick, b: BatchId)
    requires Recovered(w, r, t) && b in w.batches
    ensures b in r.batches && r.batches[b].tx == w.batches[b].tx
    ensures !Open(w, b) || !t.hasNode ==> r.batches[b] == w.batches[b]
    ensures Open(w, b) ==> r.batches[b].state != BatchReserved && r.batches[b].state != BatchHeld
    ensures SameRows(w.items, r.items) && r.batches.Keys == w.batches.Keys && w.ledger <= r.ledger
  {
  }

  lemma SettledFacts(w: Wallet, t: Tick) returns (r: Wallet)
    requires Ready(w, t)
    ensures var s := Settle(w, t).tables;
      && !Settle(w, t).failed && Recovered(w, r, t) && AfterForfeits(r, s, t) && Inv(s) && t.newId !in s.batches
      && Sweep(w, t) == Work(s, t)
  {
    hide Inv, Lists, NodeKnows, Recovered, AfterForfeits, Settle;
    r := SettleRecovers(w, t);
    SettleKeeps(w, t);
    SweepIs(w, t);
  }

  /** Nothing is thrown later either: what is RESERVED, and a new batch, can be signed and sent. */
  ghost predicate Smooth(w: Wallet, t: Tick) {
    Ready(w, t) && BuildsWork(w, t)
  }

  lemma HashNotUsed(w: Wallet, s: Wallet, h: TxHash)
    requires forall b | b in s.batches :: b in w.batches && s.batches[b].tx == w.batches[b].tx
    requires forall c | c in w.batches :: w.batches[c].tx != Some(h)
    ensures forall c | c in s.batches :: s.batches[c].tx != Some(h)
  {
  }

  lemma StillWork(w: Wallet, r: Wallet, s: Wallet, t: Tick)
    requires Recovered(w, r, t) && AfterForfeits(r, s, t) && BuildsWork(w, t)
    ensures BuildsWork(s, t)
  {
    hide Recovered, AllForfeited;
    forall b | b in s.batches ensures b in w.batches && s.batches[b].tx == w.batches[b].tx && (s.batches[b].state == BatchReserved ==> w.batches[b].state == BatchReserved) {
      SameKeys(w, r, t);
      RecoveredBatch(w, r, t, b);
    }
    forall b | b in ReservedBatches(s) ensures BuildWorks(s, b, t.builds(b)) {
      assert b in ReservedBatches(w);
      RecoveredBatch(w, r, t, b);
      HashNotUsed(w, s, t.builds(b).hash);
      StillThere(w.items, s.items, b);
    }
    HashNotUsed(w, s, t.builds(t.newId).hash);
    assert ReservedBatches(s) <= ReservedBatches(w);
  }

  lemma SameKeys(w: Wallet, r: Wallet, t: Tick)
    requires Recovered(w, r, t)
    ensures r.batches.Keys == w.batches.Keys && forall b :: b in r.batches <==> b in w.batches
  {
  }

  lemma StillThere(items: seq<Item>, items': seq<Item>, b: BatchId)
    requires HasItems(items, b) && SameRows(items, items')
    ensures HasItems(items', b)
  {
    var i :| i in items && i.batch == b;
    var k :| 0 <= k < |items| && items[k] == i;
    assert items'[k] in items';
  }

  /**
   A sweep with a lock, phase by phase: recovery answers every open batch, each dormant balance is forfeited, and then
   comes new work: none while a batch is open, else every RESERVED batch its turn, else, unless something is HELD, a
   proposal. Nothing is thrown as long as fees are known and what is to be sent can be sent.
   */
  lemma SweepInPhases(w: Wallet, t: Tick)
    requires Smooth(w, t)
    ensures !Sweep(w, t).failed
    ensures exists r, s :: Recovered(w, r, t) && AfterForfeits(r, s, t) && NewWork(s, Sweep(w, t).tables, t)
  {
    var r := SettledFacts(w, t);
    var s := Settle(w, t).tables;
    hide Inv, Lists, Recovered, AfterForfeits, NewWork, BuildsWork;
    StillWork(w, r, s, t);
    WorkDone(s, t);
  }

  /** Without the lock nothing happens. */
  lemma UnlockedDoesNothing(w: Wallet, t: Tick)
    requires !t.locked
    ensures Sweep(w, t) == Outcome(w, false)
  {
  }

  // ---------- open batches ----------

  lemma NotReserved(w: Wallet, r: Wallet, t: Tick, b: BatchId)
    requires Recovered(w, r, t) && Open(w, b)
    ensures b !in ReservedBatches(r)
  {
    RecoveredBatch(w, r, t, b);
    hide Recovered;
  }

  lemma ForfeitsFrame(r: Wallet, s: Wallet, t: Tick)
    requires AfterForfeits(r, s, t)
    ensures Frame(r, s, {}) && ReservedBatches(s) == ReservedBatches(r)
  {
  }

  lemma LaterFrame(w: Wallet, t: Tick, r: Wallet, s: Wallet)
    requires Lists(t) && Inv(s) && t.newId !in s.batches && AfterForfeits(r, s, t)
    ensures Frame(r, Work(s, t).tables, ReservedBatches(r) + {t.newId})
  {
    hide Inv, Lists, AfterForfeits, Frame, Work, ReservedBatches;
    ForfeitsFrame(r, s, t);
    WorkFrame(s, t);
    FrameTrans(r, s, Work(s, t).tables, {}, ReservedBatches(s) + {t.newId});
    assert {} + (ReservedBatches(s) + {t.newId}) == ReservedBatches(r) + {t.newId};
  }

  /**
   With a node, and as long as no confirmation throws: every batch that was open is, after the whole sweep, CONFIRMED with
   its items, payments and fee booked if the node called it committed, BROADCAST with its items if it called it
   pending, and unchanged if it knows nothing.
   */
  lemma OpenBatchesAnswered(w: Wallet, t: Tick, b: BatchId)
    requires Ready(w, t) && t.hasNode && Open(w, b)
    ensures Answered(w, Sweep(w, t).tables, b, t.nodes(b))
  {
    var r := SettledFacts(w, t);
    var s, u := Settle(w, t).tables, Sweep(w, t).tables;
    assert Answered(w, r, b, t.nodes(b));
    assert b in w.batches && b != t.newId;
    RecoveredBatch(w, r, t, b);
    NotReserved(w, r, t, b);
    hide *;
    LaterParts(w, t, r, s, b);
    AnsweredStays(w, r, u, b, t.nodes(b));
  }

  lemma LaterParts(w: Wallet, t: Tick, r: Wallet, s: Wallet, b: BatchId)
    requires Ready(w, t) && Inv(s) && t.newId !in s.batches && AfterForfeits(r, s, t) && b in r.batches && b !in ReservedBatches(r) && b != t.newId
    ensures var u := Work(s, t).tables;
      Untouched(r, u, b) && r.ledger <= u.ledger && SameRows(r.items, u.items)
  {
    hide Inv, Lists, AfterForfeits, Work, ReservedBatches, Untouched;
    LaterFrame(w, t, r, s);
  }

  /** While an open batch stays open, no other batch changes and none is created. */
  lemma OpenBlocksNewWork(w: Wallet, t: Tick, b: BatchId, c: BatchId)
    requires Ready(w, t) && Open(w, b) && (t.hasNode ==> t.nodes(b).status != Committed)
    requires c in w.batches && !Open(w, c)
    ensures Untouched(w, Sweep(w, t).tables, c) && Sweep(w, t).tables.batches.Keys == w.batches.Keys
  {
    var r := SettledFacts(w, t);
    var s := Settle(w, t).tables;
    assert Untouched(w, r, c) && r.batches.Keys == w.batches.Keys;
    StillOpen(w, r, t, b);
    assert s.batches == r.batches && s.items == r.items;
    hide Inv, Lists, Recovered, AfterForfeits;
    assert InState(s, b, BatchBuilt) || InState(s, b, BatchBroadcast);
    AnyInIs(s);
    assert Work(s, t).tables == s;
  }

  lemma StillOpen(w: Wallet, r: Wallet, t: Tick, b: BatchId)
    requires Recovered(w, r, t) && Open(w, b) && (t.hasNode ==> t.nodes(b).status != Committed)
    ensures b in r.batches && (r.batches[b].state == BatchBuilt || r.batches[b].state == BatchBroadcast)
  {
  }

  // ---------- nothing open remains ----------

  /** Every open batch is committed, so that recovery confirms it. */
  ghost predicate AllCommitted(w: Wallet, t: Tick) {
    forall b | Open(w, b) :: t.hasNode && t.nodes(b).status == Committed
  }

  lemma NoneOpen(w: Wallet, r: Wallet, t: Tick)
    requires Inv(w) && Recovered(w, r, t) && AllCommitted(w, t)
    ensures !SomeIn(r, BatchBuilt) && !SomeIn(r, BatchBroadcast)
  {
    Given(w);
    hide Inv, ItemsOk, KeysOk;
    forall b | b in r.batches ensures r.batches[b].state != BatchBuilt && r.batches[b].state != BatchBroadcast {
      SameKeys(w, r, t);
      assert b in w.batches;
      if Open(w, b) {
        assert Answered(w, r, b, t.nodes(b));
      } else {
        RecoveredBatch(w, r, t, b);
      }
    }
  }

  /**
   With nothing left open, every RESERVED batch is afterwards BROADCAST, or back to HELD, or still RESERVED with HELD
   items because the gate refused it: which of them is said by Resumed.
   */
  lemma ReservedBatchesResumed(w: Wallet, t: Tick, c: BatchId)
    requires Smooth(w, t) && AllCommitted(w, t) && c in w.batches && w.batches[c].state == BatchReserved
    ensures !Sweep(w, t).failed && Resumed(w, Sweep(w, t).tables, c, t.received(c), t.builds(c))
  {
    var r := SettledFacts(w, t);
    var s := Settle(w, t).tables;
    UntouchedReserved(w, r, s, t, c);
    hide *;
    NoneOpen(w, r, t);
    StillWork(w, r, s, t);
    WorkDone(s, t);
    NewWorkResumes(r, s, Work(s, t).tables, t, c);
    ResumedAlike(w, s, Work(s, t).tables, c, t.received(c), t.builds(c));
  }

  lemma UntouchedReserved(w: Wallet, r: Wallet, s: Wallet, t: Tick, c: BatchId)
    requires Recovered(w, r, t) && AfterForfeits(r, s, t) && c in w.batches && w.batches[c].state == BatchReserved
    ensures Untouched(w, s, c) && SameRows(w.items, s.items) && c in s.batches && s.batches[c].state == BatchReserved
  {
    RecoveredBatch(w, r, t, c);
    assert Untouched(w, r, c);
  }

  lemma NewWorkResumes(r: Wallet, s: Wallet, u: Wallet, t: Tick, c: BatchId)
    requires AfterForfeits(r, s, t) && !SomeIn(r, BatchBuilt) && !SomeIn(r, BatchBroadcast)
    requires NewWork(s, u, t) && c in s.batches && s.batches[c].state == BatchReserved
    ensures Resumed(s, u, c, t.received(c), t.builds(c)) && SameRows(s.items, u.items)
  {
    hide Resumed, SameRows, AllForfeited, Proposes, Untouched;
    assert InState(s, c, BatchReserved);
    forall b ensures !InState(s, b, BatchBuilt) && !InState(s, b, BatchBroadcast) {
      assert !InState(r, b, BatchBuilt) && !InState(r, b, BatchBroadcast);
    }
  }

  /**
   With every batch CONFIRMED and no dormant miner, a sweep proposes exactly when the pool is solvent and a candidate
   suffices; the proposal is sent at once within the caps and HELD beyond them.
   */
  lemma ProposesWhenAllConfirmed(w: Wallet, t: Tick)
    requires Smooth(w, t) && (forall b | b in w.batches :: w.batches[b].state == BatchConfirmed) && forall v :: t.dormant(v) == []
    ensures Proposes(w, Sweep(w, t).tables, t)
    ensures t.newId in Sweep(w, t).tables.batches <==> !ProposalRefused(w, t.received(t.newId), t.eligible(w), t.limits)
  {
    NothingToSettle(w, t);
    Given(w);
    hide Inv, Lists, BuildsWork, ItemsOk, Work;
    WorkDone(w, t);
    assert !SomeIn(w, BatchBuilt) && !SomeIn(w, BatchBroadcast) && !SomeIn(w, BatchReserved) && !SomeIn(w, BatchHeld);
    if !ProposalRefused(w, t.received(t.newId), t.eligible(w), t.limits) {
      NewOneIsThere(w, Sweep(w, t).tables, t);
    }
  }

  lemma NothingToSettle(w: Wallet, t: Tick)
    requires Ready(w, t) && (forall b | b in w.batches :: w.batches[b].state == BatchConfirmed) && forall v :: t.dormant(v) == []
    ensures Sweep(w, t) == Work(w, t)
  {
    OpenRows(w, t);
    var rows := t.listing(UnresolvedBatches(w));
    if rows != [] {
      assert Open(w, rows[0]);
    }
    assert Recover(w, [], t.nodes) == Outcome(w, false);
    assert ForfeitAll(w, [], t.rowId) == w;
    assert Settle(w, t) == Outcome(w, false);
    hide Inv, Lists, Settle;
    SweepIs(w, t);
  }

  lemma NewOneIsThere(s: Wallet, u: Wallet, t: Tick)
    requires ItemsOk(s) && t.newId !in s.batches && AnySufficient(s.ledger, t.eligible(s), t.limits)
    requires NewOne(s, u, t.newId, t.eligible(s), t.limits, t.dailySpent, t.builds(t.newId))
    ensures t.newId in u.batches && u.batches[t.newId].state in {BatchBroadcast, BatchHeld}
  {
    var p :| Proposed(s, p, t.newId, t.eligible(s), t.limits, t.dailySpent) && NewSent(p, u, t.newId, t.builds(t.newId));
    hide Proposed, AnySufficient, ItemsOk;
    ProposedIsNew(s, p, t.newId, t.eligible(s), t.limits, t.dailySpent);
  }
}
