/** What payout processes keep in every reachable state: the hash goes to the database first, and once per batch to the node. */
module PoolPayouts {
  import opened Wrappers
  import opened Sums
  import opened Ledger
  import opened Payouts
  import opened PayoutInvariant
  import opened PayoutSteps
  import opened Pool
  import opened PoolAllocation

  // ---------- a transaction and its batch ----------

  /** What a transaction paying all items of a batch pays. */
  function PaysOf(items: seq<Item>, b: BatchId): seq<Pay> {
    if items == [] then []
    else
      var i := items[|items| - 1];
      PaysOf(items[..|items| - 1], b) + if i.batch == b then [Pay(i.miner, i.amount)] else []
  }

  ghost predicate Started(items: seq<Item>, b: BatchId) {
    exists i | i in items :: i.batch == b && i.state != ItemHeld
  }

  predicate BatchSent(sent: seq<Tx>, b: BatchId) {
    exists t | t in sent :: t.batch == b
  }

  ghost predicate SignedOk(t: Tx, w: Wallet) {
    t.batch in w.batches && Started(w.items, t.batch) && t.pays == PaysOf(w.items, t.batch)
  }

  /** The transaction whose hash the batch row holds, paying exactly the batch's items. */
  ghost predicate TxOk(t: Tx, w: Wallet) {
    t.batch in w.batches && w.batches[t.batch].tx == Some(t.hash) && t.pays == PaysOf(w.items, t.batch)
  }

  ghost predicate JobOk(j: Paying, w: Wallet, sent: seq<Tx>) {
    match j
    case Signed(t) => SignedOk(t, w)
    case Saved(t) => TxOk(t, w) && !BatchSent(sent, t.batch)
    case Sent(t) => TxOk(t, w)
  }

  predicate Sends(j: Paying, b: BatchId) {
    j.Saved? && j.tx.batch == b
  }

  predicate SentOnce(sent: seq<Tx>) {
    sent == [] || (SentOnce(sent[..|sent| - 1]) && !BatchSent(sent[..|sent| - 1], sent[|sent| - 1].batch))
  }

  ghost predicate JobsOk(jobs: map<nat, Paying>, w: Wallet, sent: seq<Tx>) {
    && (forall p | p in jobs :: JobOk(jobs[p], w, sent))
    && (forall p, q, b | p in jobs && q in jobs && Sends(jobs[p], b) && Sends(jobs[q], b) :: p == q)
  }

  ghost predicate SentOk(sent: seq<Tx>, w: Wallet) {
    SentOnce(sent) && forall t | t in sent :: TxOk(t, w)
  }

  ghost predicate ChainOk(onChain: set<TxHash>, sent: seq<Tx>) {
    forall h | h in onChain :: WasSent(sent, h)
  }

  ghost predicate PayInv(s: State) {
    && Inv(s.wallet)
    && JobsOk(s.paying, s.wallet, s.sent)
    && SentOk(s.sent, s.wallet)
    && ChainOk(s.onChain, s.sent)
  }

  // ---------- how the tables may change under a process ----------

  ghost predicate LaterBatch(w: Wallet, w': Wallet, b: BatchId)
    requires b in w.batches
  {
    && b in w'.batches
    && (w.batches[b].tx.Some? ==> w'.batches[b].tx == w.batches[b].tx)
    && PaysOf(w'.items, b) == PaysOf(w.items, b)
    && (Started(w.items, b) ==> Started(w'.items, b))
  }

  ghost predicate Later(w: Wallet, w': Wallet) {
    forall b | b in w.batches :: LaterBatch(w, w', b)
  }

  lemma LaterKeepsPay(s: State, s': State)
    requires PayInv(s) && Inv(s'.wallet) && Later(s.wallet, s'.wallet)
    requires s'.paying == s.paying && s'.sent == s.sent && s'.onChain == s.onChain
    ensures PayInv(s')
  {
    hide Inv, PaysOf, BatchSent, Started, SentOnce, Sends;
    forall p | p in s'.paying ensures JobOk(s'.paying[p], s'.wallet, s'.sent) {
      assert JobOk(s.paying[p], s.wallet, s.sent);
      assert LaterBatch(s.wallet, s'.wallet, s.paying[p].tx.batch);
    }
    forall t | t in s'.sent ensures TxOk(t, s'.wallet) {
      assert TxOk(t, s.wallet);
      assert LaterBatch(s.wallet, s'.wallet, t.batch);
    }
  }

  lemma {:induction false} MovePays(items: seq<Item>, b: BatchId, from: ItemState, to: ItemState, c: BatchId)
    ensures PaysOf(Move(items, b, from, to), c) == PaysOf(items, c)
  {
    if items != [] {
      var n := |items| - 1;
      MovePays(items[..n], b, from, to, c);
      assert Move(items, b, from, to)[..n] == Move(items[..n], b, from, to);
    }
  }

  lemma {:induction false} ConfirmPays(items: seq<Item>, b: BatchId, c: BatchId)
    ensures PaysOf(ConfirmItems(items, b), c) == PaysOf(items, c)
  {
    if items != [] {
      var n := |items| - 1;
      ConfirmPays(items[..n], b, c);
      assert ConfirmItems(items, b)[..n] == ConfirmItems(items[..n], b);
    }
  }

  lemma {:induction false} AppendPays(items: seq<Item>, its: seq<Item>, b: BatchId, c: BatchId)
    requires OfOneBatch(its, b) && b != c
    ensures PaysOf(items + its, c) == PaysOf(items, c)
  {
    if its == [] {
      assert items + its == items;
    } else {
      var n := |its| - 1;
      assert (items + its)[..|items| + n] == items + its[..n];
      assert its[n] in its;
      AppendPays(items, its[..n], b, c);
    }
  }

  lemma MoveStarted(items: seq<Item>, b: BatchId, from: ItemState, to: ItemState, c: BatchId)
    requires to != ItemHeld && Started(items, c)
    ensures Started(Move(items, b, from, to), c)
  {
    var i :| i in items && i.batch == c && i.state != ItemHeld;
    var k :| 0 <= k < |items| && items[k] == i;
    MoveAt(items, b, from, to, k);
    assert Move(items, b, from, to)[k] in Move(items, b, from, to);
  }

  lemma ConfirmStarted(items: seq<Item>, b: BatchId, c: BatchId)
    requires Started(items, c)
    ensures Started(ConfirmItems(items, b), c)
  {
    var i :| i in items && i.batch == c && i.state != ItemHeld;
    var k :| 0 <= k < |items| && items[k] == i;
    ConfirmAt(items, b, k);
    assert ConfirmItems(items, b)[k] in ConfirmItems(items, b);
  }

  lemma AppendStarted(items: seq<Item>, its: seq<Item>, c: BatchId)
    requires Started(items, c)
    ensures Started(items + its, c)
  {
    var i :| i in items && i.batch == c && i.state != ItemHeld;
    assert i in items + its;
  }

  // ---------- each transaction, as seen by the others ----------

  lemma SameItemsLater(w: Wallet, w': Wallet, b: BatchId)
    requires w'.items == w.items && b in w.batches && b in w'.batches
    requires w'.batches == w.batches[b := w'.batches[b]] && (w.batches[b].tx.Some? ==> w'.batches[b].tx == w.batches[b].tx)
    ensures Later(w, w')
  {
  }

  lemma MovedLater(w: Wallet, w': Wallet, b: BatchId, from: ItemState, to: ItemState)
    requires w'.items == Move(w.items, b, from, to) && to != ItemHeld
    requires forall c | c in w.batches :: c in w'.batches && (w.batches[c].tx.Some? ==> w'.batches[c].tx == w.batches[c].tx)
    ensures Later(w, w')
  {
    hide PaysOf, Started, Move;
    forall c | c in w.batches ensures LaterBatch(w, w', c) {
      MovePays(w.items, b, from, to, c);
      if Started(w.items, c) {
        MoveStarted(w.items, b, from, to, c);
      }
    }
  }

  lemma AppendedLater(w: Wallet, w': Wallet, b: BatchId, its: seq<Item>)
    requires b !in w.batches && OfOneBatch(its, b) && w'.items == w.items + its
    requires b in w'.batches && w'.batches == w.batches[b := w'.batches[b]]
    ensures Later(w, w')
  {
    hide PaysOf, Started;
    forall c | c in w.batches ensures LaterBatch(w, w', c) {
      AppendPays(w.items, its, b, c);
      if Started(w.items, c) {
        AppendStarted(w.items, its, c);
      }
    }
  }

  lemma ReserveIsOther(l: seq<Entry>, its: seq<Item>)
    ensures AppendsOther(l, PostAll(l, AllReserveEntries(its)))
  {
    ReserveRows(its);
    PostAllOther(l, AllReserveEntries(its));
  }

  lemma CreateLater(w: Wallet, received: int, b: BatchId, cs: seq<Candidate>, limits: Limits, spent: nat)
    requires b !in w.batches
    ensures Later(w, CreateBatch(w, received, b, cs, limits, spent))
    ensures AppendsOther(w.ledger, CreateBatch(w, received, b, cs, limits, spent).ledger)
  {
    var cut := Truncated(cs, limits);
    var w' := CreateBatch(w, received, b, cs, limits, spent);
    var held, reserved := Chosen(w.ledger, cut, limits, b, ItemHeld), Chosen(w.ledger, cut, limits, b, ItemReserved);
    ChosenRows(w.ledger, cut, limits, b, ItemHeld);
    ChosenRows(w.ledger, cut, limits, b, ItemReserved);
    ReserveIsOther(w.ledger, reserved);
    hide Chosen, Truncated, Owed, WithinCaps, Total, AnyNegative, PostAll, AllReserveEntries, LaterBatch;
    if w' != w {
      if w'.items == w.items + reserved && w'.items != w.items + held {
        AppendedLater(w, w', b, reserved);
      } else {
        AppendedLater(w, w', b, held);
      }
    } else {
      LaterSelf(w);
    }
  }

  lemma LaterSelf(w: Wallet)
    ensures Later(w, w)
  {
  }

  lemma ReleaseLater(w: Wallet, received: int, b: BatchId)
    ensures Later(w, ReserveReleased(w, received, b))
    ensures AppendsOther(w.ledger, ReserveReleased(w, received, b).ledger)
  {
    var w' := ReserveReleased(w, received, b);
    LaterSelf(w);
    ReserveIsOther(w.ledger, Select(w.items, b, ItemHeld));
    hide Select, Owed, Covered, PostAll, AllReserveEntries, LaterBatch, Move;
    if w'.ledger != w.ledger || w'.items != w.items {
      MovedLater(w, w', b, ItemHeld, ItemReserved);
    } else if w' != w {
      if b in w'.batches && w'.items == w.items && w'.batches != w.batches {
        SameItemsLater(w, w', b);
      } else {
        MovedLater(w, w', b, ItemHeld, ItemReserved);
      }
    }
  }

  lemma ApproveLater(w: Wallet, b: BatchId)
    ensures Later(w, Payouts.Approve(w, b)) && AppendsOther(w.ledger, Payouts.Approve(w, b).ledger)
  {
    LaterSelf(w);
    if b in w.batches {
      SameItemsLater(w, w.(batches := w.batches[b := w.batches[b].(state := BatchReserved, released := true)]), b);
    }
  }

  lemma SaveLater(w: Wallet, b: BatchId, h: TxHash, fee: Option<nat>)
    requires HashesOk(w) && CanSave(w, b, h)
    ensures Later(w, SaveBuilt(w, b, h, fee)) && AppendsOther(w.ledger, SaveBuilt(w, b, h, fee).ledger)
  {
    assert w.batches[b].tx.None?;
    SameItemsLater(w, SaveBuilt(w, b, h, fee), b);
  }

  lemma BroadcastLater(w: Wallet, b: BatchId)
    ensures Later(w, MarkBroadcast(w, b)) && AppendsOther(w.ledger, MarkBroadcast(w, b).ledger)
  {
    MovedLater(w, MarkBroadcast(w, b), b, ItemReserved, ItemBroadcast);
  }

  lemma SeenLater(w: Wallet, b: BatchId)
    ensures Later(w, MarkSeen(w, b)) && AppendsOther(w.ledger, MarkSeen(w, b).ledger)
  {
    LaterSelf(w);
    if Unresolved(w, b) {
      MovedLater(w, MarkSeen(w, b), b, ItemReserved, ItemBroadcast);
    }
  }

  lemma CommitLater(w: Wallet, b: BatchId, derived: Option<nat>)
    ensures Later(w, CommitConfirmed(w, b, derived)) && AppendsOther(w.ledger, CommitConfirmed(w, b, derived).ledger)
  {
    LaterSelf(w);
    if Unresolved(w, b) && FinalFee(w.batches[b], derived).Some? {
      var fee := FinalFee(w.batches[b], derived).value;
      PaidRows(OfBatch(w.items, b));
      PostAllOther(w.ledger, AllPaidEntries(OfBatch(w.items, b)) + [Entry(TxFee, None, fee, BatchFee(b))]);
      hide PaysOf, Started, ConfirmItems, PostAll, OfBatch;
      var w' := CommitConfirmed(w, b, derived);
      forall c | c in w.batches ensures LaterBatch(w, w', c) {
        ConfirmPays(w.items, b, c);
        if Started(w.items, c) {
          ConfirmStarted(w.items, b, c);
        }
      }
    }
  }

  lemma ForfeitLater(w: Wallet, m: Miner, rowId: nat -> nat)
    ensures Later(w, ForfeitOne(w, m, rowId)) && AppendsOther(w.ledger, ForfeitOne(w, m, rowId).ledger)
  {
    LaterSelf(w);
    PostAllOther(w.ledger, ForfeitEntries(m, Balance(w.ledger, MinerConfirmed, m), LastSeen(w.ledger, m, rowId)));
  }

  // ---------- the processes ----------

  lemma {:induction false} ReservedPays(items: seq<Item>, b: BatchId)
    requires AllIn(items, b, ItemReserved)
    ensures Outputs(Select(items, b, ItemReserved)) == PaysOf(items, b)
  {
    if items != [] {
      var n := |items| - 1;
      assert items == items[..n] + [items[n]];
      ReservedPays(items[..n], b);
      var before := Select(items[..n], b, ItemReserved);
      assert (before + [items[n]])[..|before|] == before;
      assert items[n].batch != b ==> Select(items, b, ItemReserved) == before && PaysOf(items, b) == PaysOf(items[..n], b);
    }
  }

  /** What is signed pays every item of the batch. */
  lemma SignsWholeBatch(w: Wallet, b: BatchId, h: TxHash)
    requires Inv(w) && Payable(w, b) != []
    ensures SignedOk(Tx(h, b, Outputs(Payable(w, b))), w)
  {
    var rows := Payable(w, b);
    SelectRows(w.items, b, ItemReserved);
    assert rows[0] in rows;
    assert rows[0] in w.items && rows[0].state == ItemReserved && rows[0].batch == b;
    assert AllIn(w.items, b, ItemReserved);
    ReservedPays(w.items, b);
  }

  /** A batch still RESERVED of which some item is not HELD is reserved throughout. */
  lemma StartedReserved(w: Wallet, b: BatchId)
    requires ItemsOk(w) && b in w.batches && w.batches[b].state == BatchReserved && Started(w.items, b)
    ensures AllIn(w.items, b, ItemReserved)
  {
    var i :| i in w.items && i.batch == b && i.state != ItemHeld;
  }

  lemma ReplaceJob(jobs: map<nat, Paying>, p: nat, j: Paying, w: Wallet, sent: seq<Tx>)
    requires JobsOk(jobs, w, sent) && JobOk(j, w, sent)
    requires j.Saved? ==> forall q | q in jobs && q != p :: !Sends(jobs[q], j.tx.batch)
    ensures JobsOk(jobs[p := j], w, sent)
  {
    hide JobOk;
  }

  lemma SignKeepsPay(s: State, p: nat, b: BatchId, h: TxHash)
    requires PayInv(s) && p !in s.paying && Payable(s.wallet, b) != []
    ensures PayInv(s.(paying := s.paying[p := Signed(Tx(h, b, Outputs(Payable(s.wallet, b))))]))
  {
    SignsWholeBatch(s.wallet, b, h);
    var t := Tx(h, b, Outputs(Payable(s.wallet, b)));
    ReplaceJob(s.paying, p, Signed(t), s.wallet, s.sent);
    hide Inv, Payable, Outputs, SentOk, ChainOk, JobsOk;
  }

  lemma StopKeepsPay(s: State, p: nat)
    requires PayInv(s)
    ensures PayInv(s.(paying := s.paying - {p}))
  {
    hide Inv, SentOk, ChainOk, JobOk, Sends;
  }

  lemma NotYetSent(s: State, b: BatchId)
    requires PayInv(s) && b in s.wallet.batches && s.wallet.batches[b].state == BatchReserved
    ensures !BatchSent(s.sent, b) && forall q | q in s.paying :: !Sends(s.paying[q], b)
  {
    assert s.wallet.batches[b].tx.None?;
    forall q | q in s.paying ensures !Sends(s.paying[q], b) {
      assert JobOk(s.paying[q], s.wallet, s.sent);
    }
    forall t | t in s.sent ensures t.batch != b {
      assert TxOk(t, s.wallet);
    }
  }

  lemma SaveKeepsPay(s: State, p: nat, fee: Option<nat>)
    requires PayInv(s) && p in s.paying && s.paying[p].Signed?
    ensures PayInv(HashSaved(s, p, fee))
  {
    var t := s.paying[p].tx;
    assert JobOk(s.paying[p], s.wallet, s.sent);
    if CanSave(s.wallet, t.batch, t.hash) {
      var w' := SaveBuilt(s.wallet, t.batch, t.hash, fee);
      StartedReserved(s.wallet, t.batch);
      SaveBuiltKeepsInv(s.wallet, t.batch, t.hash, fee);
      SaveLater(s.wallet, t.batch, t.hash, fee);
      NotYetSent(s, t.batch);
      LaterKeepsPay(s, s.(wallet := w'));
      assert TxOk(t, w');
      hide Inv, SentOk, ChainOk, TxOk, JobsOk, Later, CanSave, BatchSent;
      ReplaceJob(s.paying, p, Saved(t), w', s.sent);
    } else {
      StopKeepsPay(s, p);
    }
  }

  lemma SentMore(sent: seq<Tx>, t: Tx, b: BatchId)
    ensures BatchSent(sent + [t], b) <==> BatchSent(sent, b) || t.batch == b
  {
    if BatchSent(sent, b) {
      var x :| x in sent && x.batch == b;
      assert x in sent + [t];
    }
    if t.batch == b {
      assert t in sent + [t];
    }
  }

  lemma OthersUnsent(s: State, p: nat, t: Tx)
    requires JobsOk(s.paying, s.wallet, s.sent) && p in s.paying && s.paying[p] == Saved(t)
    ensures JobsOk(s.paying - {p}, s.wallet, s.sent + [t])
  {
    hide TxOk, SignedOk, BatchSent;
    assert Sends(s.paying[p], t.batch);
    forall q | q in s.paying && q != p ensures JobOk(s.paying[q], s.wallet, s.sent + [t]) {
      assert JobOk(s.paying[q], s.wallet, s.sent);
      SentMore(s.sent, t, s.paying[q].tx.batch);
      assert !Sends(s.paying[q], t.batch);
    }
  }

  lemma OneMoreSent(sent: seq<Tx>, w: Wallet, onChain: set<TxHash>, t: Tx)
    requires SentOk(sent, w) && ChainOk(onChain, sent) && TxOk(t, w) && !BatchSent(sent, t.batch)
    ensures SentOk(sent + [t], w) && ChainOk(onChain, sent + [t])
  {
    hide TxOk;
    assert (sent + [t])[..|sent|] == sent;
    forall h | h in onChain ensures WasSent(sent + [t], h) {
      assert WasSent(sent, h);
      var x :| x in sent && x.hash == h;
      assert x in sent + [t];
    }
  }

  lemma BroadcastKeepsPay(s: State, p: nat)
    requires PayInv(s) && p in s.paying && s.paying[p].Saved?
    ensures PayInv(s.(sent := s.sent + [s.paying[p].tx], paying := s.paying[p := Sent(s.paying[p].tx)]))
  {
    var t := s.paying[p].tx;
    assert JobOk(s.paying[p], s.wallet, s.sent);
    hide Inv, TxOk, SignedOk, BatchSent, SentOk, ChainOk, JobsOk;
    OthersUnsent(s, p, t);
    OneMoreSent(s.sent, s.wallet, s.onChain, t);
    ReplaceJob(s.paying - {p}, p, Sent(t), s.wallet, s.sent + [t]);
    assert (s.paying - {p})[p := Sent(t)] == s.paying[p := Sent(t)];
  }

  lemma RecordKeepsPay(s: State, p: nat)
    requires PayInv(s) && p in s.paying && s.paying[p].Sent?
    ensures PayInv(s.(wallet := MarkBroadcast(s.wallet, s.paying[p].tx.batch), paying := s.paying - {p}))
  {
    var b := s.paying[p].tx.batch;
    assert JobOk(s.paying[p], s.wallet, s.sent);
    MarkBroadcastKeepsInv(s.wallet, b);
    BroadcastLater(s.wallet, b);
    LaterKeepsPay(s, s.(wallet := MarkBroadcast(s.wallet, b)));
    hide PayInv, MarkBroadcast;
    StopKeepsPay(s.(wallet := MarkBroadcast(s.wallet, b)), p);
  }
}
