/** Each committed payout transaction keeps the invariant. */
module PayoutSteps {
  import opened Wrappers
  import opened Sums
  import opened Ledger
  import opened Payouts
  import opened PayoutInvariant

  // ---------- reservations ----------

  lemma {:induction false} ChosenRows(l: seq<Entry>, cs: seq<Candidate>, limits: Limits, b: BatchId, st: ItemState)
    ensures forall i | i in Chosen(l, cs, limits, b, st) ::
      i.batch == b && i.state == st && i.amount == Balance(l, MinerConfirmed, i.miner) && Mentioned(cs, i.miner)
    ensures OneItemPerMiner(Chosen(l, cs, limits, b, st))
  {
    if cs != [] {
      var n := |cs| - 1;
      ChosenRows(l, cs[..n], limits, b, st);
      assert forall m :: Mentioned(cs[..n], m) ==> Mentioned(cs, m);
      assert Mentioned(cs, cs[n].miner);
      hide Mentioned, Balance, Requirement, OneItemPerMiner;
      ChosenDistinct(Chosen(l, cs[..n], limits, b, st), cs[..n], Item(b, cs[n].miner, Balance(l, MinerConfirmed, cs[n].miner), st));
    }
  }

  lemma ChosenDistinct(before: seq<Item>, cs: seq<Candidate>, last: Item)
    requires OneItemPerMiner(before) && forall i | i in before :: Mentioned(cs, i.miner)
    ensures !Mentioned(cs, last.miner) ==> OneItemPerMiner(before + [last])
  {
    assert (before + [last])[..|before|] == before;
  }

  lemma {:induction false} ChosenAlike(l: seq<Entry>, cs: seq<Candidate>, limits: Limits, b: BatchId, st: ItemState)
    ensures |Chosen(l, cs, limits, b, st)| == |Chosen(l, cs, limits, b, ItemHeld)|
    ensures forall k | 0 <= k < |Chosen(l, cs, limits, b, st)| ::
      Chosen(l, cs, limits, b, st)[k] == Chosen(l, cs, limits, b, ItemHeld)[k].(state := st)
  {
    if cs != [] {
      ChosenAlike(l, cs[..|cs| - 1], limits, b, st);
    }
  }

  ghost predicate AllUnreserved(l: seq<Entry>, its: seq<Item>) {
    forall i | i in its :: Unreserved(l, i)
  }

  lemma ReserveAppends(l: seq<Entry>, its: seq<Item>)
    requires OneItemPerMiner(its) && AllUnreserved(l, its)
    ensures PostAll(l, AllReserveEntries(its)) == l + AllReserveEntries(its)
  {
    ReserveKeysUnique(its);
    ReserveRows(its);
    PostAllFresh(l, AllReserveEntries(its));
  }

  lemma ReserveKeepsAmounts(l: seq<Entry>, its: seq<Item>)
    requires AmountsOk(l)
    ensures AmountsOk(l + AllReserveEntries(its))
  {
    Grow(l, AllReserveEntries(its), "");
    ReserveDeltas(its, "");
    ReserveRows(its);
  }

  /** Reservations move exactly their amounts from confirmed to pending. */
  lemma ReserveMiner(w: Wallet, w': Wallet, its: seq<Item>, m: Miner)
    requires MinerOk(w, m) && w'.ledger == w.ledger + AllReserveEntries(its)
    requires Sum(its, AmountOf(m)) <= Balance(w.ledger, MinerConfirmed, m)
    requires Sum(w'.items, Outstanding(m)) == Sum(w.items, Outstanding(m)) + Sum(its, AmountOf(m))
    requires Sum(w'.items, Settled(m)) == Sum(w.items, Settled(m))
    ensures MinerOk(w', m)
  {
    Grow(w.ledger, AllReserveEntries(its), m);
    ReserveDeltas(its, m);
  }

  lemma {:induction false} AppendItems(items: seq<Item>, its: seq<Item>, b: BatchId, batches: map<BatchId, Batch>)
    requires OneItemPerMiner(items) && OneItemPerMiner(its) && OfOneBatch(its, b)
    requires b !in batches && forall i | i in items :: RowOk(i, batches)
    ensures OneItemPerMiner(items + its)
  {
    if its == [] {
      assert items + its == items;
    } else {
      var n := |its| - 1;
      assert its == its[..n] + [its[n]];
      AppendItems(items, its[..n], b, batches);
      assert (items + its)[..|items| + n] == items + its[..n];
      forall i | i in items + its[..n] ensures i.batch != b || i.miner != its[n].miner {
        if i in items {
          assert RowOk(i, batches);
        } else {
          assert !HasItem(its[..n], its[n].batch, its[n].miner);
        }
      }
    }
  }

  lemma NewRowOk(batches: map<BatchId, Batch>, b: BatchId, batch: Batch, i: Item)
    requires RowOk(i, batches) && b !in batches
    ensures RowOk(i, batches[b := batch]) && i.batch != b
  {
  }

  lemma NewUniform(items: seq<Item>, its: seq<Item>, c: BatchId, st: ItemState)
    requires AllIn(items, c, st) && AllIn(its, c, st)
    ensures AllIn(items + its, c, st)
  {
  }

  /** A new batch with its own items keeps the tables well formed. */
  lemma NewItemsOk(w: Wallet, b: BatchId, its: seq<Item>, batch: Batch, st: ItemState)
    requires ItemsOk(w) && b !in w.batches && OfOneBatch(its, b) && OneItemPerMiner(its)
    requires (batch.state == BatchHeld && st == ItemHeld) || (batch.state == BatchReserved && st == ItemReserved)
    requires forall i | i in its :: i.amount >= 0 && i.state == st
    ensures ItemsOk(Wallet(w.ledger, w.batches[b := batch], w.items + its))
  {
    var w' := Wallet(w.ledger, w.batches[b := batch], w.items + its);
    AppendItems(w.items, its, b, w.batches);
    forall i | i in w'.items ensures RowOk(i, w'.batches) {
      if i in w.items {
        NewRowOk(w.batches, b, batch, i);
      }
    }
    forall c | c in w'.batches && w'.batches[c].state == BatchReserved
      ensures AllIn(w'.items, c, ItemHeld) || AllIn(w'.items, c, ItemReserved)
    {
      if c == b {
        forall i | i in w.items ensures i.batch != b {
          NewRowOk(w.batches, b, batch, i);
        }
        NewUniform(w.items, its, c, ItemReserved);
      } else {
        assert AllIn(its, c, ItemHeld) && AllIn(its, c, ItemReserved);
        if AllIn(w.items, c, ItemHeld) {
          NewUniform(w.items, its, c, ItemHeld);
        } else {
          NewUniform(w.items, its, c, ItemReserved);
        }
      }
    }
  }

  lemma NewHashesOk(w: Wallet, b: BatchId, batch: Batch, ledger: seq<Entry>, items: seq<Item>)
    requires HashesOk(w) && b !in w.batches && batch.tx == None && batch.state in {BatchHeld, BatchReserved}
    ensures HashesOk(Wallet(ledger, w.batches[b := batch], items))
  {
  }

  ghost predicate ReservationsOf(es: seq<Entry>, b: BatchId) {
    forall e | e in es :: BatchOfKey(e.key) == Some(b) && !IsPaidKey(e.key)
  }

  /** Adding reservation rows of one batch leaves every other held item unreserved. */
  lemma StillUnreserved(l: seq<Entry>, es: seq<Entry>, b: BatchId, i: Item)
    requires Unreserved(l, i) && ReservationsOf(es, b) && i.batch != b
    ensures Unreserved(l + es, i)
  {
    forall e | e in l + es ensures e.key != ReserveConfirmed(i.batch, i.miner) && e.key != ReservePending(i.batch, i.miner) {
      if e in es {
        assert BatchOfKey(e.key) == Some(b);
      }
    }
  }

  lemma NewBatchKeysOk(w: Wallet, b: BatchId, batch: Batch, its: seq<Item>, es: seq<Entry>)
    requires KeysOk(w) && b !in w.batches && OfOneBatch(its, b) && OneItemPerMiner(its)
    requires ReservationsOf(es, b)
    requires es != [] ==> forall i | i in its :: i.state != ItemHeld
    requires forall i | i in w.items :: i.batch in w.batches
    ensures KeysOk(Wallet(w.ledger + es, w.batches[b := batch], w.items + its))
  {
    var w' := Wallet(w.ledger + es, w.batches[b := batch], w.items + its);
    forall e | e in w'.ledger ensures KeyOk(e.key, w'.batches) {
      if e in w.ledger {
        assert KeyOk(e.key, w.batches);
      }
    }
    forall i | i in w'.items && i.state == ItemHeld ensures Unreserved(w'.ledger, i) {
      if i in w.items {
        StillUnreserved(w.ledger, es, b, i);
      } else {
        assert w.ledger + es == w.ledger;
        NewIsUnreserved(w, b, i);
      }
    }
    MoreForfeits(w.ledger, es, b);
  }

  lemma NewIsUnreserved(w: Wallet, b: BatchId, i: Item)
    requires forall e | e in w.ledger :: KeyOk(e.key, w.batches)
    requires b !in w.batches && i.batch == b
    ensures Unreserved(w.ledger, i)
  {
    forall e | e in w.ledger ensures BatchOfKey(e.key) != Some(b) {
      assert KeyOk(e.key, w.batches);
    }
  }

  ghost predicate ForfeitsPaired(l: seq<Entry>) {
    forall e | e in l && e.key.ForfeitFee? :: Posted(l, Forfeit(e.key.miner, e.key.seen))
  }

  lemma MoreForfeits(l: seq<Entry>, es: seq<Entry>, b: BatchId)
    requires ForfeitsPaired(l) && forall e | e in es :: BatchOfKey(e.key) == Some(b)
    ensures ForfeitsPaired(l + es)
  {
    forall e | e in l + es && e.key.ForfeitFee? ensures Posted(l + es, Forfeit(e.key.miner, e.key.seen)) {
      assert e in l;
      var f :| f in l && f.key == Forfeit(e.key.miner, e.key.seen);
      assert f in l + es;
    }
  }

  lemma CreateBatchKeepsInv(w: Wallet, received: int, b: BatchId, cs: seq<Candidate>, limits: Limits, dailySpent: nat)
    requires Inv(w) && b !in w.batches
    ensures Inv(CreateBatch(w, received, b, cs, limits, dailySpent))
  {
    var held := Chosen(w.ledger, Truncated(cs, limits), limits, b, ItemHeld);
    if CreateBatch(w, received, b, cs, limits, dailySpent) == w {
    } else if WithinCaps(Total(held), dailySpent, limits) {
      CreateReservedKeepsInv(w, received, b, cs, limits, dailySpent);
    } else {
      CreateHeldKeepsInv(w, received, b, cs, limits, dailySpent);
    }
  }

  lemma CreateHeldKeepsInv(w: Wallet, received: int, b: BatchId, cs: seq<Candidate>, limits: Limits, dailySpent: nat)
    requires Inv(w) && b !in w.batches && CreateBatch(w, received, b, cs, limits, dailySpent) != w
    requires !WithinCaps(Total(Chosen(w.ledger, Truncated(cs, limits), limits, b, ItemHeld)), dailySpent, limits)
    ensures Inv(CreateBatch(w, received, b, cs, limits, dailySpent))
  {
    ChosenRows(w.ledger, Truncated(cs, limits), limits, b, ItemHeld);
    NewHeldKeepsInv(w, b, Chosen(w.ledger, Truncated(cs, limits), limits, b, ItemHeld));
  }

  lemma NewHeldKeepsInv(w: Wallet, b: BatchId, its: seq<Item>)
    requires Inv(w) && b !in w.batches && OfOneBatch(its, b) && OneItemPerMiner(its)
    requires forall i | i in its :: i.state == ItemHeld && 0 <= i.amount
    ensures Inv(Wallet(w.ledger, w.batches[b := Batch(BatchHeld, false, None, None)], w.items + its))
  {
    hide *;
    var batch := Batch(BatchHeld, false, None, None);
    var w' := Wallet(w.ledger, w.batches[b := batch], w.items + its);
    Given(w);
    NewItemsOk(w, b, its, batch, ItemHeld);
    NewHashesOk(w, b, batch, w.ledger, w.items + its);
    ItemsKnown(w);
    assert w.ledger + [] == w.ledger;
    NothingReserved(b);
    NewBatchKeysOk(w, b, batch, its, []);
    forall m ensures MinerOk(w', m) {
      NewHeldMiner(w, w', its, m);
    }
    Conclude(w');
  }

  lemma NothingReserved(b: BatchId)
    ensures ReservationsOf([], b)
  {
  }

  lemma ItemsKnown(w: Wallet)
    requires ItemsOk(w)
    ensures forall i | i in w.items :: i.batch in w.batches
  {
    assert forall i | i in w.items :: RowOk(i, w.batches);
  }

  lemma NewHeldMiner(w: Wallet, w': Wallet, its: seq<Item>, m: Miner)
    requires MinerOk(w, m) && w'.ledger == w.ledger && w'.items == w.items + its
    requires forall i | i in its :: i.state == ItemHeld
    ensures MinerOk(w', m)
  {
    SumAppend(w.items, its, Outstanding(m));
    SumAppend(w.items, its, Settled(m));
    SumZero(its, Settled(m));
    SumZero(its, Outstanding(m));
  }

  lemma CreateReservedKeepsInv(w: Wallet, received: int, b: BatchId, cs: seq<Candidate>, limits: Limits, dailySpent: nat)
    requires Inv(w) && b !in w.batches && CreateBatch(w, received, b, cs, limits, dailySpent) != w
    requires WithinCaps(Total(Chosen(w.ledger, Truncated(cs, limits), limits, b, ItemHeld)), dailySpent, limits)
    ensures Inv(CreateBatch(w, received, b, cs, limits, dailySpent))
  {
    var held := Chosen(w.ledger, Truncated(cs, limits), limits, b, ItemHeld);
    var its := Chosen(w.ledger, Truncated(cs, limits), limits, b, ItemReserved);
    ChosenRows(w.ledger, Truncated(cs, limits), limits, b, ItemReserved);
    ChosenAlike(w.ledger, Truncated(cs, limits), limits, b, ItemReserved);
    forall i | i in its ensures i.amount >= 0 {
      var k :| 0 <= k < |its| && its[k] == i;
      assert held[k] in held;
    }
    NewReservedKeepsInv(w, b, its);
  }

  lemma NewReservedKeepsInv(w: Wallet, b: BatchId, its: seq<Item>)
    requires Inv(w) && b !in w.batches && OfOneBatch(its, b) && OneItemPerMiner(its)
    requires forall i | i in its :: i.state == ItemReserved && 0 <= i.amount == Balance(w.ledger, MinerConfirmed, i.miner)
    ensures Inv(Wallet(PostAll(w.ledger, AllReserveEntries(its)), w.batches[b := Batch(BatchReserved, false, None, None)], w.items + its))
  {
    hide *;
    var batch := Batch(BatchReserved, false, None, None);
    var es := AllReserveEntries(its);
    var w' := Wallet(w.ledger + es, w.batches[b := batch], w.items + its);
    Given(w);
    NewReservedRows(w, b, its);
    NewItemsOk(w, b, its, batch, ItemReserved);
    SameTables(Wallet(w.ledger, w.batches[b := batch], w.items + its), w');
    NewHashesOk(w, b, batch, w'.ledger, w'.items);
    ItemsKnown(w);
    NewBatchKeysOk(w, b, batch, its, es);
    ReserveKeepsAmounts(w.ledger, its);
    forall m ensures MinerOk(w', m) {
      NewReservedMiner(w, w', its, b, m);
    }
    Conclude(w');
  }

  lemma SameTables(w: Wallet, w': Wallet)
    requires w'.batches == w.batches && w'.items == w.items && ItemsOk(w)
    ensures ItemsOk(w')
  {
  }

  lemma NewReservedRows(w: Wallet, b: BatchId, its: seq<Item>)
    requires KeysOk(w) && b !in w.batches && OfOneBatch(its, b) && OneItemPerMiner(its)
    ensures PostAll(w.ledger, AllReserveEntries(its)) == w.ledger + AllReserveEntries(its)
    ensures ReservationsOf(AllReserveEntries(its), b)
  {
    forall i | i in its ensures Unreserved(w.ledger, i) {
      NewIsUnreserved(w, b, i);
    }
    ReserveAppends(w.ledger, its);
    ReserveRows(its);
  }

  lemma NewReservedMiner(w: Wallet, w': Wallet, its: seq<Item>, b: BatchId, m: Miner)
    requires MinerOk(w, m) && OfOneBatch(its, b) && OneItemPerMiner(its)
    requires forall i | i in its :: i.state == ItemReserved && i.amount == Balance(w.ledger, MinerConfirmed, i.miner)
    requires w'.ledger == w.ledger + AllReserveEntries(its) && w'.items == w.items + its
    ensures MinerOk(w', m)
  {
    SumAppend(w.items, its, Outstanding(m));
    SumAppend(w.items, its, Settled(m));
    SumZero(its, Settled(m));
    SumSame(its, Outstanding(m), its, AmountOf(m));
    OneItemEach(its, b, m, Balance(w.ledger, MinerConfirmed, m));
    ReserveMiner(w, w', its, m);
  }

  // ---------- moving items between states ----------

  lemma MovedRows(items: seq<Item>, b: BatchId, from: ItemState, to: ItemState)
    ensures forall i | i in Move(items, b, from, to) ::
      if i.batch == b && i.state == to then i in items || i.(state := from) in items
      else i in items && !(i.batch == b && i.state == from)
  {
    var moved := Move(items, b, from, to);
    forall i | i in moved
      ensures if i.batch == b && i.state == to then i in items || i.(state := from) in items
              else i in items && !(i.batch == b && i.state == from)
    {
      var k :| 0 <= k < |moved| && moved[k] == i;
      MoveAt(items, b, from, to, k);
      assert items[k] in items;
    }
  }

  /** Updates that keep every row's batch and miner keep the table's unique key. */
  lemma {:induction false} SameIdentities(items: seq<Item>, items': seq<Item>)
    requires |items| == |items'| && OneItemPerMiner(items)
    requires forall k | 0 <= k < |items| :: items[k].batch == items'[k].batch && items[k].miner == items'[k].miner
    ensures OneItemPerMiner(items')
  {
    if items != [] {
      var n := |items| - 1;
      SameIdentities(items[..n], items'[..n]);
      forall i | i in items'[..n] ensures i.batch != items[n].batch || i.miner != items[n].miner {
        var k :| 0 <= k < n && items'[k] == i;
        assert items[k] in items[..n];
      }
    }
  }

  lemma MovedIdentities(items: seq<Item>, b: BatchId, from: ItemState, to: ItemState)
    requires OneItemPerMiner(items)
    ensures OneItemPerMiner(Move(items, b, from, to))
  {
    forall k | 0 <= k < |items|
      ensures items[k].batch == Move(items, b, from, to)[k].batch && items[k].miner == Move(items, b, from, to)[k].miner
    {
      MoveAt(items, b, from, to, k);
    }
    SameIdentities(items, Move(items, b, from, to));
  }

  lemma MovedUniform(items: seq<Item>, b: BatchId, from: ItemState, to: ItemState, c: BatchId)
    requires AllIn(items, c, ItemHeld) || AllIn(items, c, ItemReserved)
    requires c == b ==> to == ItemReserved && from == ItemHeld && AllIn(items, b, ItemHeld)
    ensures AllIn(Move(items, b, from, to), c, ItemHeld) || AllIn(Move(items, b, from, to), c, ItemReserved)
  {
    MovedRows(items, b, from, to);
  }

  /** Moving a batch's items together with the batch's own state keeps the tables well formed. */
  lemma MoveItemsOk(w: Wallet, b: BatchId, from: ItemState, to: ItemState, batch: Batch)
    requires ItemsOk(w) && b in w.batches
    requires from != to && StatesAgree(to, batch.state)
    requires forall i | i in w.items && i.batch == b && i.state != from :: StatesAgree(i.state, batch.state)
    requires batch.state == BatchReserved ==> to == ItemReserved && AllIn(w.items, b, ItemHeld) && from == ItemHeld
    ensures ItemsOk(w.(items := Move(w.items, b, from, to), batches := w.batches[b := batch]))
  {
    var w' := w.(items := Move(w.items, b, from, to), batches := w.batches[b := batch]);
    MovedIdentities(w.items, b, from, to);
    forall c | c in w'.batches && w'.batches[c].state == BatchReserved
      ensures AllIn(w'.items, c, ItemHeld) || AllIn(w'.items, c, ItemReserved)
    {
      MovedUniform(w.items, b, from, to, c);
    }
    forall i | i in w'.items ensures RowOk(i, w'.batches) {
      MovedRowOk(w, b, from, to, batch, i);
    }
  }

  lemma MovedRowOk(w: Wallet, b: BatchId, from: ItemState, to: ItemState, batch: Batch, i: Item)
    requires forall j | j in w.items :: RowOk(j, w.batches)
    requires from != to && StatesAgree(to, batch.state)
    requires forall j | j in w.items && j.batch == b && j.state != from :: StatesAgree(j.state, batch.state)
    requires i in Move(w.items, b, from, to)
    ensures RowOk(i, w.batches[b := batch])
  {
    MovedRows(w.items, b, from, to);
    if i.batch == b && i.state == to {
      assert i in w.items || i.(state := from) in w.items;
      assert RowOk(i, w.batches) || RowOk(i.(state := from), w.batches);
    } else {
      assert RowOk(i, w.batches);
    }
  }

  lemma ReserveReleasedKeepsInv(w: Wallet, received: int, b: BatchId)
    requires Inv(w)
    ensures Inv(ReserveReleased(w, received, b))
  {
    var w' := ReserveReleased(w, received, b);
    if w' != w {
      var held := Select(w.items, b, ItemHeld);
      SelectRows(w.items, b, ItemHeld);
      assert held[0] in held;
      assert AllIn(w.items, b, ItemHeld);
      if w'.ledger == w.ledger && w'.items == w.items {
        ParkKeepsInv(w, b, w'.batches[b].released);
      } else {
        ReleaseKeepsInv(w, b);
      }
    }
  }

  lemma ParkKeepsInv(w: Wallet, b: BatchId, released: bool)
    requires Inv(w) && b in w.batches && w.batches[b].state == BatchReserved && AllIn(w.items, b, ItemHeld)
    ensures Inv(w.(batches := w.batches[b := w.batches[b].(state := BatchHeld, released := released)]))
  {
    ParkedHash(w, b);
    hide *;
    Given(w);
    var batch := w.batches[b].(state := BatchHeld, released := released);
    RestateItemsOk(w, b, batch);
    RestateKeysOk(w, b, batch);
    RestateHashesOk(w, b, batch);
    RestateMiners(w, w.(batches := w.batches[b := batch]));
    Conclude(w.(batches := w.batches[b := batch]));
  }

  lemma ParkedHash(w: Wallet, b: BatchId)
    requires HashesOk(w) && b in w.batches
    ensures w.batches[b].tx.Some? <==> w.batches[b].state in {BatchBuilt, BatchBroadcast, BatchConfirmed}
  {
  }

  /** Changing a batch's state while every item of it agrees with both states. */
  lemma RestateItemsOk(w: Wallet, b: BatchId, batch: Batch)
    requires ItemsOk(w) && b in w.batches
    requires AllIn(w.items, b, ItemHeld) || AllIn(w.items, b, ItemReserved)
    requires AllIn(w.items, b, ItemHeld) ==> batch.state in {BatchHeld, BatchReserved}
    requires !AllIn(w.items, b, ItemHeld) ==> batch.state in {BatchReserved, BatchBuilt}
    ensures ItemsOk(w.(batches := w.batches[b := batch]))
  {
    var w' := w.(batches := w.batches[b := batch]);
    forall i | i in w.items ensures RowOk(i, w'.batches) {
      assert RowOk(i, w.batches);
    }
    forall c | c in w'.batches && w'.batches[c].state == BatchReserved
      ensures AllIn(w'.items, c, ItemHeld) || AllIn(w'.items, c, ItemReserved)
    {
      assert c != b ==> AllIn(w.items, c, ItemHeld) || AllIn(w.items, c, ItemReserved);
    }
  }

  lemma RestateKeysOk(w: Wallet, b: BatchId, batch: Batch)
    requires KeysOk(w) && b in w.batches && w.batches[b].state != BatchConfirmed
    ensures KeysOk(w.(batches := w.batches[b := batch]))
  {
    forall e | e in w.ledger ensures KeyOk(e.key, w.batches[b := batch]) {
      assert KeyOk(e.key, w.batches);
    }
  }

  lemma RestateHashesOk(w: Wallet, b: BatchId, batch: Batch)
    requires HashesOk(w) && b in w.batches
    requires batch.tx.Some? <==> batch.state in {BatchBuilt, BatchBroadcast, BatchConfirmed}
    requires batch.tx == w.batches[b].tx || forall c | c in w.batches :: w.batches[c].tx != batch.tx
    ensures HashesOk(w.(batches := w.batches[b := batch]))
  {
  }

  lemma RestateMiners(w: Wallet, w': Wallet)
    requires w'.ledger == w.ledger && w'.items == w.items && forall m :: MinerOk(w, m)
    ensures forall m :: MinerOk(w', m)
  {
    forall m ensures MinerOk(w', m) {
      assert MinerOk(w, m);
    }
  }

  lemma ReleaseKeepsInv(w: Wallet, b: BatchId)
    requires Inv(w) && b in w.batches && w.batches[b].state == BatchReserved && AllIn(w.items, b, ItemHeld)
    requires Covered(w.ledger, Select(w.items, b, ItemHeld))
    ensures Inv(w.(ledger := PostAll(w.ledger, AllReserveEntries(Select(w.items, b, ItemHeld))),
                   items := Move(w.items, b, ItemHeld, ItemReserved)))
  {
    Given(w);
    var distinct := OneItemPerMiner(w.items);
    assert distinct;
    hide *;
    var held := Select(w.items, b, ItemHeld);
    var w' := w.(ledger := w.ledger + AllReserveEntries(held), items := Move(w.items, b, ItemHeld, ItemReserved));
    ReleaseTables(w, b);
    ReserveKeepsAmounts(w.ledger, held);
    forall m ensures MinerOk(w', m) {
      ReleaseMiner(w, w', b, m);
    }
    Conclude(w');
  }

  lemma ReleaseRows(w: Wallet, b: BatchId)
    requires ItemsOk(w) && KeysOk(w)
    ensures var es := AllReserveEntries(Select(w.items, b, ItemHeld));
      PostAll(w.ledger, es) == w.ledger + es && ReservationsOf(es, b)
  {
    var held := Select(w.items, b, ItemHeld);
    assert OneItemPerMiner(w.items);
    hide *;
    HeldUnreserved(w, b);
    SelectRows(w.items, b, ItemHeld);
    SelectDistinct(w.items, b, ItemHeld);
    ReserveAppends(w.ledger, held);
    ReservesForBatch(held, b);
  }

  lemma ReservesForBatch(its: seq<Item>, b: BatchId)
    requires forall i | i in its :: i.batch == b
    ensures ReservationsOf(AllReserveEntries(its), b)
  {
    ReserveRows(its);
    hide AllReserveEntries;
  }

  lemma HeldUnreserved(w: Wallet, b: BatchId)
    requires KeysOk(w)
    ensures AllUnreserved(w.ledger, Select(w.items, b, ItemHeld))
  {
    SelectRows(w.items, b, ItemHeld);
    hide Select, Unreserved;
  }

  lemma ReleaseTables(w: Wallet, b: BatchId)
    requires ItemsOk(w) && HashesOk(w) && KeysOk(w)
    requires b in w.batches && w.batches[b].state == BatchReserved && AllIn(w.items, b, ItemHeld)
    ensures var es := AllReserveEntries(Select(w.items, b, ItemHeld));
      var w' := w.(ledger := w.ledger + es, items := Move(w.items, b, ItemHeld, ItemReserved));
      PostAll(w.ledger, es) == w.ledger + es && ItemsOk(w') && HashesOk(w') && KeysOk(w')
  {
    AgreeReserved();
    HeldAgree(w.items, b);
    hide *;
    var es := AllReserveEntries(Select(w.items, b, ItemHeld));
    ReleaseRows(w, b);
    ReleasedKeysOk(w, b, es);
    MoveItemsOk(w, b, ItemHeld, ItemReserved, w.batches[b]);
    var moved := w.(items := Move(w.items, b, ItemHeld, ItemReserved), batches := w.batches[b := w.batches[b]]);
    assert moved.batches == w.batches;
    SameTables(moved, moved.(ledger := w.ledger + es));
    SameHashes(w, moved.(ledger := w.ledger + es));
  }

  lemma AgreeReserved()
    ensures StatesAgree(ItemReserved, BatchReserved)
  {
  }

  lemma HeldAgree(items: seq<Item>, b: BatchId)
    requires AllIn(items, b, ItemHeld)
    ensures forall i | i in items && i.batch == b && i.state != ItemHeld :: StatesAgree(i.state, BatchReserved)
  {
  }

  lemma SameHashes(w: Wallet, w': Wallet)
    requires w'.batches == w.batches && HashesOk(w)
    ensures HashesOk(w')
  {
  }

  lemma ReleaseWeights(items: seq<Item>, b: BatchId, m: Miner)
    ensures Sum(Move(items, b, ItemHeld, ItemReserved), Outstanding(m))
            == Sum(items, Outstanding(m)) + Sum(Select(items, b, ItemHeld), AmountOf(m))
    ensures Sum(Move(items, b, ItemHeld, ItemReserved), Settled(m)) == Sum(items, Settled(m))
  {
    MoveShift(items, b, ItemHeld, ItemReserved, Outstanding(m), AmountOf(m));
    MoveShift(items, b, ItemHeld, ItemReserved, Settled(m), Nothing());
    SumZero(Select(items, b, ItemHeld), Nothing());
  }

  lemma ReleaseCovered(l: seq<Entry>, items: seq<Item>, b: BatchId, m: Miner)
    requires OneItemPerMiner(items) && Covered(l, Select(items, b, ItemHeld)) && Balance(l, MinerConfirmed, m) >= 0
    ensures Sum(Select(items, b, ItemHeld), AmountOf(m)) <= Balance(l, MinerConfirmed, m)
  {
    SelectRows(items, b, ItemHeld);
    SelectDistinct(items, b, ItemHeld);
    OneItemEach(Select(items, b, ItemHeld), b, m, Balance(l, MinerConfirmed, m));
  }

  lemma ReleaseMiner(w: Wallet, w': Wallet, b: BatchId, m: Miner)
    requires MinerOk(w, m) && OneItemPerMiner(w.items)
    requires Covered(w.ledger, Select(w.items, b, ItemHeld))
    requires w'.ledger == w.ledger + AllReserveEntries(Select(w.items, b, ItemHeld))
    requires w'.items == Move(w.items, b, ItemHeld, ItemReserved)
    ensures MinerOk(w', m)
  {
    ReleaseWeights(w.items, b, m);
    ReleaseCovered(w.ledger, w.items, b, m);
    ReserveMiner(w, w', Select(w.items, b, ItemHeld), m);
  }

  lemma ReleasedKeysOk(w: Wallet, b: BatchId, es: seq<Entry>)
    requires KeysOk(w) && b in w.batches
    requires ReservationsOf(es, b)
    ensures KeysOk(w.(ledger := w.ledger + es, items := Move(w.items, b, ItemHeld, ItemReserved)))
  {
    var w' := w.(ledger := w.ledger + es, items := Move(w.items, b, ItemHeld, ItemReserved));
    MovedRows(w.items, b, ItemHeld, ItemReserved);
    forall e | e in w'.ledger ensures KeyOk(e.key, w'.batches) {
      if e in w.ledger {
        assert KeyOk(e.key, w.batches);
      }
    }
    forall i | i in w'.items && i.state == ItemHeld ensures Unreserved(w'.ledger, i) {
      StillUnreserved(w.ledger, es, b, i);
    }
    MoreForfeits(w.ledger, es, b);
  }

  lemma ApproveKeepsInv(w: Wallet, b: BatchId)
    requires Inv(w)
    ensures Inv(Approve(w, b))
  {
    if b in w.batches && w.batches[b].state == BatchHeld {
      var batch := w.batches[b].(state := BatchReserved, released := true);
      HeldIsHeld(w, b);
      ParkedHash(w, b);
      assert Approve(w, b) == w.(batches := w.batches[b := batch]);
      hide *;
      Given(w);
      RestateItemsOk(w, b, batch);
      RestateKeysOk(w, b, batch);
      RestateHashesOk(w, b, batch);
      RestateMiners(w, w.(batches := w.batches[b := batch]));
      Conclude(w.(batches := w.batches[b := batch]));
    }
  }

  lemma HeldIsHeld(w: Wallet, b: BatchId)
    requires ItemsOk(w) && b in w.batches && w.batches[b].state == BatchHeld
    ensures AllIn(w.items, b, ItemHeld)
  {
    assert forall i | i in w.items :: RowOk(i, w.batches);
  }

  // ---------- evidence, broadcast ----------

  lemma SaveBuiltKeepsInv(w: Wallet, b: BatchId, h: TxHash, fee: Option<nat>)
    requires Inv(w) && (CanSave(w, b, h) ==> AllIn(w.items, b, ItemReserved))
    ensures Inv(SaveBuilt(w, b, h, fee))
  {
    if CanSave(w, b, h) {
      var batch := w.batches[b].(state := BatchBuilt, tx := Some(h), fee := fee);
      assert SaveBuilt(w, b, h, fee) == w.(batches := w.batches[b := batch]);
      assert forall c | c in w.batches :: w.batches[c].tx != batch.tx;
      BuiltItemsOk(w, b, batch);
      hide *;
      Given(w);
      RestateKeysOk(w, b, batch);
      RestateHashesOk(w, b, batch);
      RestateMiners(w, w.(batches := w.batches[b := batch]));
      Conclude(w.(batches := w.batches[b := batch]));
    }
  }

  lemma BuiltItemsOk(w: Wallet, b: BatchId, batch: Batch)
    requires ItemsOk(w) && b in w.batches && AllIn(w.items, b, ItemReserved) && batch.state == BatchBuilt
    ensures ItemsOk(w.(batches := w.batches[b := batch]))
  {
    var w' := w.(batches := w.batches[b := batch]);
    forall i | i in w.items ensures RowOk(i, w'.batches) {
      assert RowOk(i, w.batches);
    }
    forall c | c in w'.batches && w'.batches[c].state == BatchReserved
      ensures AllIn(w'.items, c, ItemHeld) || AllIn(w'.items, c, ItemReserved)
    {
      assert AllIn(w.items, c, ItemHeld) || AllIn(w.items, c, ItemReserved);
    }
  }

  /** Reserved and broadcast items count alike, so marking a batch as sent moves no balance. */
  lemma SentKeepsInv(w: Wallet, b: BatchId, st: BatchState)
    requires Inv(w) && b in w.batches && st in {BatchBroadcast, BatchConfirmed}
    requires w.batches[b].state in {BatchBuilt, BatchBroadcast, BatchConfirmed}
    requires w.batches[b].state == BatchConfirmed <==> st == BatchConfirmed
    ensures Inv(w.(items := Move(w.items, b, ItemReserved, ItemBroadcast),
                   batches := w.batches[b := w.batches[b].(state := st)]))
  {
    if st == BatchConfirmed {
      NothingToMove(w, b);
      assert w.batches[b := w.batches[b].(state := st)] == w.batches;
    } else {
      NowBroadcastKeepsInv(w, b);
    }
  }

  lemma NothingToMove(w: Wallet, b: BatchId)
    requires ItemsOk(w) && b in w.batches && w.batches[b].state == BatchConfirmed
    ensures Move(w.items, b, ItemReserved, ItemBroadcast) == w.items
  {
    forall k | 0 <= k < |w.items| ensures Move(w.items, b, ItemReserved, ItemBroadcast)[k] == w.items[k] {
      assert RowOk(w.items[k], w.batches);
      MoveAt(w.items, b, ItemReserved, ItemBroadcast, k);
    }
  }

  lemma NowBroadcastKeepsInv(w: Wallet, b: BatchId)
    requires Inv(w) && b in w.batches && w.batches[b].state in {BatchBuilt, BatchBroadcast}
    ensures Inv(w.(items := Move(w.items, b, ItemReserved, ItemBroadcast),
                   batches := w.batches[b := w.batches[b].(state := BatchBroadcast)]))
  {
    var batch := w.batches[b].(state := BatchBroadcast);
    var w' := w.(items := Move(w.items, b, ItemReserved, ItemBroadcast), batches := w.batches[b := batch]);
    assert StatesAgree(ItemBroadcast, BatchBroadcast);
    SentAgree(w, b);
    ParkedHash(w, b);
    hide *;
    Given(w);
    MoveItemsOk(w, b, ItemReserved, ItemBroadcast, batch);
    RestateHashesOk(w, b, batch);
    SameHashes(w.(batches := w.batches[b := batch]), w');
    BroadcastKeysOk(w, w', b);
    forall m ensures MinerOk(w', m) {
      BroadcastMiner(w, w', b, m);
    }
    Conclude(w');
  }

  lemma SentAgree(w: Wallet, b: BatchId)
    requires ItemsOk(w) && b in w.batches && w.batches[b].state in {BatchBuilt, BatchBroadcast}
    ensures forall i | i in w.items && i.batch == b && i.state != ItemReserved :: StatesAgree(i.state, BatchBroadcast)
  {
    assert forall i | i in w.items :: RowOk(i, w.batches);
  }

  lemma BroadcastKeysOk(w: Wallet, w': Wallet, b: BatchId)
    requires KeysOk(w) && b in w.batches && w.batches[b].state in {BatchBuilt, BatchBroadcast}
    requires w' == w.(items := Move(w.items, b, ItemReserved, ItemBroadcast),
                      batches := w.batches[b := w.batches[b].(state := BatchBroadcast)])
    ensures KeysOk(w')
  {
    MovedRows(w.items, b, ItemReserved, ItemBroadcast);
    forall e | e in w'.ledger ensures KeyOk(e.key, w'.batches) {
      assert KeyOk(e.key, w.batches);
    }
    forall i | i in w'.items && i.state == ItemHeld ensures Unreserved(w'.ledger, i) {
      assert i in w.items;
    }
  }

  lemma BroadcastMiner(w: Wallet, w': Wallet, b: BatchId, m: Miner)
    requires MinerOk(w, m) && w'.ledger == w.ledger && w'.items == Move(w.items, b, ItemReserved, ItemBroadcast)
    ensures MinerOk(w', m)
  {
    MoveShift(w.items, b, ItemReserved, ItemBroadcast, Outstanding(m), Nothing());
    MoveShift(w.items, b, ItemReserved, ItemBroadcast, Settled(m), Nothing());
    SumZero(Select(w.items, b, ItemReserved), Nothing());
  }

  lemma MarkBroadcastKeepsInv(w: Wallet, b: BatchId)
    requires Inv(w) && b in w.batches && w.batches[b].state in {BatchBuilt, BatchBroadcast, BatchConfirmed}
    ensures Inv(MarkBroadcast(w, b))
  {
    var st := if w.batches[b].state == BatchBuilt then BatchBroadcast else w.batches[b].state;
    SentKeepsInv(w, b, st);
    assert w.batches[b := w.batches[b].(state := st)] == MarkBroadcast(w, b).batches;
  }

  lemma MarkSeenKeepsInv(w: Wallet, b: BatchId)
    requires Inv(w)
    ensures Inv(MarkSeen(w, b))
  {
    if Unresolved(w, b) {
      SentKeepsInv(w, b, BatchBroadcast);
    }
  }

  // ---------- confirmation ----------

  function FeeEntry(b: BatchId, fee: nat): Entry {
    Entry(TxFee, None, fee, BatchFee(b))
  }

  ghost predicate PaymentsOf(es: seq<Entry>, b: BatchId) {
    forall e | e in es :: IsPaidKey(e.key) && BatchOfKey(e.key) == Some(b)
  }

  lemma PaymentRows(its: seq<Item>, b: BatchId)
    requires OfOneBatch(its, b)
    ensures PaymentsOf(AllPaidEntries(its), b) && !Posted(AllPaidEntries(its), BatchFee(b))
  {
    PaidRows(its);
    forall e | e in AllPaidEntries(its) ensures IsPaidKey(e.key) && BatchOfKey(e.key) == Some(b) && e.key != BatchFee(b) {
      var i :| i in its && (e == PayIn(i) || e == PayOut(i));
    }
  }

  lemma WithFee(paid: seq<Entry>, b: BatchId, fee: nat)
    requires KeysUnique(paid) && PaymentsOf(paid, b) && !Posted(paid, BatchFee(b))
    ensures KeysUnique(paid + [FeeEntry(b, fee)]) && PaymentsOf(paid + [FeeEntry(b, fee)], b)
  {
    assert (paid + [FeeEntry(b, fee)])[..|paid|] == paid;
  }

  lemma PaidAppends(l: seq<Entry>, its: seq<Item>, b: BatchId, fee: nat)
    requires OneItemPerMiner(its) && OfOneBatch(its, b)
    requires forall e | e in l && IsPaidKey(e.key) :: BatchOfKey(e.key).value != b
    ensures PaymentsOf(AllPaidEntries(its) + [FeeEntry(b, fee)], b)
    ensures PostAll(l, AllPaidEntries(its) + [FeeEntry(b, fee)]) == l + (AllPaidEntries(its) + [FeeEntry(b, fee)])
  {
    PaymentRows(its, b);
    PaidKeysUnique(its);
    WithFee(AllPaidEntries(its), b, fee);
    PostAllFresh(l, AllPaidEntries(its) + [FeeEntry(b, fee)]);
  }

  lemma FeeAmounts(b: BatchId, fee: nat)
    ensures Sum([FeeEntry(b, fee)], In(LIABILITIES)) == Sum([FeeEntry(b, fee)], FromBlocks()) == 0
  {
    SumZero([FeeEntry(b, fee)], In(LIABILITIES));
    SumZero([FeeEntry(b, fee)], FromBlocks());
  }

  lemma PaidKeepsAmounts(l: seq<Entry>, its: seq<Item>, b: BatchId, fee: nat)
    requires AmountsOk(l) && forall i | i in its :: i.amount >= 0
    ensures AmountsOk(l + (AllPaidEntries(its) + [FeeEntry(b, fee)]))
  {
    var paid := AllPaidEntries(its);
    assert AmountsOk(l + paid) by {
      Grow(l, paid, "");
      PaidDeltas(its, "");
      PaidRows(its);
    }
    Grow(l + paid, [FeeEntry(b, fee)], "");
    FeeAmounts(b, fee);
    assert l + (paid + [FeeEntry(b, fee)]) == (l + paid) + [FeeEntry(b, fee)];
  }

  /** A payment turns exactly the reserved amounts into paid ones. */
  lemma PaidMiner(w: Wallet, w': Wallet, its: seq<Item>, b: BatchId, fee: nat, m: Miner)
    requires MinerOk(w, m) && w'.ledger == w.ledger + (AllPaidEntries(its) + [FeeEntry(b, fee)])
    requires Sum(w'.items, Outstanding(m)) == Sum(w.items, Outstanding(m)) - Sum(its, AmountOf(m))
    requires Sum(w'.items, Settled(m)) == Sum(w.items, Settled(m)) + Sum(its, AmountOf(m))
    ensures MinerOk(w', m)
  {
    Grow(w.ledger, AllPaidEntries(its) + [FeeEntry(b, fee)], m);
    Grow(AllPaidEntries(its), [FeeEntry(b, fee)], m);
    Grow([], [FeeEntry(b, fee)], m);
    assert [] + [FeeEntry(b, fee)] == [FeeEntry(b, fee)];
    PaidDeltas(its, m);
  }

  lemma ConfirmedRows(items: seq<Item>, b: BatchId)
    ensures forall i | i in ConfirmItems(items, b) ::
      if i.batch == b then i.state == ItemConfirmed && exists j | j in items :: i == j.(state := ItemConfirmed) else i in items
  {
    var done := ConfirmItems(items, b);
    forall i | i in done
      ensures if i.batch == b then i.state == ItemConfirmed && exists j | j in items :: i == j.(state := ItemConfirmed) else i in items
    {
      var k :| 0 <= k < |done| && done[k] == i;
      ConfirmAt(items, b, k);
      assert items[k] in items;
    }
  }

  lemma CommitConfirmedKeepsInv(w: Wallet, b: BatchId, derived: Option<nat>)
    requires Inv(w)
    ensures Inv(CommitConfirmed(w, b, derived))
  {
    if Unresolved(w, b) && FinalFee(w.batches[b], derived).Some? {
      PayKeepsInv(w, b, FinalFee(w.batches[b], derived).value);
    }
  }

  lemma PayKeepsInv(w: Wallet, b: BatchId, fee: nat)
    requires Inv(w) && Unresolved(w, b)
    ensures Inv(Wallet(PostAll(w.ledger, AllPaidEntries(OfBatch(w.items, b)) + [Entry(TxFee, None, fee, BatchFee(b))]),
                       w.batches[b := w.batches[b].(state := BatchConfirmed, fee := Some(fee))], ConfirmItems(w.items, b)))
  {
    var its := OfBatch(w.items, b);
    var es := AllPaidEntries(its) + [FeeEntry(b, fee)];
    var w' := Wallet(w.ledger + es, w.batches[b := w.batches[b].(state := BatchConfirmed, fee := Some(fee))], ConfirmItems(w.items, b));
    PaidFacts(w, b);
    assert [FeeEntry(b, fee)] == [Entry(TxFee, None, fee, BatchFee(b))];
    assert b in w.batches;
    hide *;
    Given(w);
    PaidAppends(w.ledger, its, b, fee);
    PaidKeepsAmounts(w.ledger, its, b, fee);
    ConfirmedItemsOk(w, w', b, fee);
    ConfirmedHashesOk(w, w', b, fee);
    ConfirmedKeysOk(w, w', b, fee, es);
    forall m ensures MinerOk(w', m) {
      ConfirmedMiner(w, w', b, fee, m);
    }
    Conclude(w');
  }

  lemma PaidFacts(w: Wallet, b: BatchId)
    requires ItemsOk(w) && KeysOk(w) && Unresolved(w, b)
    ensures OneItemPerMiner(OfBatch(w.items, b)) && OfOneBatch(OfBatch(w.items, b), b)
    ensures forall i | i in OfBatch(w.items, b) :: i.amount >= 0
    ensures forall i | i in w.items && i.batch == b :: i.state in {ItemReserved, ItemBroadcast}
    ensures forall e | e in w.ledger && IsPaidKey(e.key) :: BatchOfKey(e.key).value != b
  {
    OfBatchRows(w.items, b);
    OfBatchDistinct(w.items, b);
    forall i | i in w.items ensures i.amount >= 0 && (i.batch == b ==> i.state in {ItemReserved, ItemBroadcast}) {
      assert RowOk(i, w.batches);
    }
    forall e | e in w.ledger && IsPaidKey(e.key) ensures BatchOfKey(e.key).value != b {
      assert KeyOk(e.key, w.batches);
    }
  }

  lemma ConfirmedMiner(w: Wallet, w': Wallet, b: BatchId, fee: nat, m: Miner)
    requires MinerOk(w, m) && w'.items == ConfirmItems(w.items, b)
    requires forall i | i in w.items && i.batch == b :: i.state in {ItemReserved, ItemBroadcast}
    requires w'.ledger == w.ledger + (AllPaidEntries(OfBatch(w.items, b)) + [FeeEntry(b, fee)])
    ensures MinerOk(w', m)
  {
    ConfirmShift(w.items, b, Outstanding(m), Minus(AmountOf(m)));
    SumMinus(OfBatch(w.items, b), AmountOf(m));
    ConfirmShift(w.items, b, Settled(m), AmountOf(m));
    PaidMiner(w, w', OfBatch(w.items, b), b, fee, m);
  }

  lemma ConfirmedHashesOk(w: Wallet, w': Wallet, b: BatchId, fee: nat)
    requires HashesOk(w) && Unresolved(w, b)
    requires w'.batches == w.batches[b := w.batches[b].(state := BatchConfirmed, fee := Some(fee))]
    ensures HashesOk(w')
  {
  }

  lemma ConfirmedIdentities(items: seq<Item>, b: BatchId)
    requires OneItemPerMiner(items)
    ensures OneItemPerMiner(ConfirmItems(items, b))
  {
    forall k | 0 <= k < |items|
      ensures items[k].batch == ConfirmItems(items, b)[k].batch && items[k].miner == ConfirmItems(items, b)[k].miner
    {
      ConfirmAt(items, b, k);
    }
    SameIdentities(items, ConfirmItems(items, b));
  }

  lemma ConfirmedUniform(items: seq<Item>, b: BatchId, c: BatchId, st: ItemState)
    requires c != b && AllIn(items, c, st)
    ensures AllIn(ConfirmItems(items, b), c, st)
  {
    ConfirmedRows(items, b);
  }

  lemma ConfirmedRowOk(w: Wallet, b: BatchId, batch: Batch, i: Item)
    requires forall j | j in w.items :: RowOk(j, w.batches)
    requires batch.state == BatchConfirmed && i in ConfirmItems(w.items, b)
    ensures RowOk(i, w.batches[b := batch])
  {
    ConfirmedRows(w.items, b);
    if i.batch == b {
      var j :| j in w.items && i == j.(state := ItemConfirmed);
      assert RowOk(j, w.batches);
    } else {
      assert RowOk(i, w.batches);
    }
  }

  lemma ConfirmedItemsOk(w: Wallet, w': Wallet, b: BatchId, fee: nat)
    requires ItemsOk(w) && b in w.batches
    requires w'.items == ConfirmItems(w.items, b)
    requires w'.batches == w.batches[b := w.batches[b].(state := BatchConfirmed, fee := Some(fee))]
    ensures ItemsOk(w')
  {
    ConfirmedIdentities(w.items, b);
    forall i | i in w'.items ensures RowOk(i, w'.batches) {
      ConfirmedRowOk(w, b, w'.batches[b], i);
    }
    forall c | c in w'.batches && w'.batches[c].state == BatchReserved
      ensures AllIn(w'.items, c, ItemHeld) || AllIn(w'.items, c, ItemReserved)
    {
      if AllIn(w.items, c, ItemHeld) {
        ConfirmedUniform(w.items, b, c, ItemHeld);
      } else {
        ConfirmedUniform(w.items, b, c, ItemReserved);
      }
    }
  }

  lemma ConfirmedKeysOk(w: Wallet, w': Wallet, b: BatchId, fee: nat, es: seq<Entry>)
    requires KeysOk(w) && b in w.batches && PaymentsOf(es, b)
    requires w'.items == ConfirmItems(w.items, b) && w'.ledger == w.ledger + es
    requires w'.batches == w.batches[b := w.batches[b].(state := BatchConfirmed, fee := Some(fee))]
    ensures KeysOk(w')
  {
    ConfirmedRows(w.items, b);
    forall e | e in w'.ledger ensures KeyOk(e.key, w'.batches) {
      if e in w.ledger {
        assert KeyOk(e.key, w.batches);
      }
    }
    forall i | i in w'.items && i.state == ItemHeld ensures Unreserved(w'.ledger, i) {
      assert Unreserved(w.ledger, i);
      forall e | e in w'.ledger ensures e.key != ReserveConfirmed(i.batch, i.miner) && e.key != ReservePending(i.batch, i.miner) {
        assert e in w.ledger || IsPaidKey(e.key);
      }
    }
    MoreForfeits(w.ledger, es, b);
  }

  // ---------- forfeiture ----------

  lemma ForfeitOneKeepsInv(w: Wallet, m: Miner, rowId: nat -> nat)
    requires Inv(w)
    ensures Inv(ForfeitOne(w, m, rowId))
  {
    var balance := Balance(w.ledger, MinerConfirmed, m);
    var seen := LastSeen(w.ledger, m, rowId);
    if balance > 0 && !Posted(w.ledger, Forfeit(m, seen)) {
      var w' := w.(ledger := w.ledger + ForfeitEntries(m, balance, seen));
      ForfeitKeysOk(w, m, balance, seen);
      ForfeitAmounts(w.ledger, m, balance, seen);
      forall n ensures MinerOk(w', n) {
        ForfeitMiner(w, w', m, balance, seen, n);
      }
    }
  }

  lemma ForfeitKeysOk(w: Wallet, m: Miner, balance: int, seen: nat)
    requires KeysOk(w) && !Posted(w.ledger, Forfeit(m, seen))
    ensures PostAll(w.ledger, ForfeitEntries(m, balance, seen)) == w.ledger + ForfeitEntries(m, balance, seen)
    ensures KeysOk(w.(ledger := w.ledger + ForfeitEntries(m, balance, seen)))
  {
    var es := ForfeitEntries(m, balance, seen);
    var w' := w.(ledger := w.ledger + es);
    assert es[0] in es;
    assert es[..1] == [es[0]] && es[..1][..0] == [];
    assert !Posted(w.ledger, ForfeitFee(m, seen));
    PostAllFresh(w.ledger, es);
    forall e | e in w'.ledger
      ensures KeyOk(e.key, w'.batches)
      ensures e.key.ForfeitFee? ==> Posted(w'.ledger, Forfeit(e.key.miner, e.key.seen))
    {
      if e in w.ledger {
        assert KeyOk(e.key, w.batches);
        if e.key.ForfeitFee? {
          var f :| f in w.ledger && f.key == Forfeit(e.key.miner, e.key.seen);
          assert f in w'.ledger;
        }
      } else {
        assert es[0] in w'.ledger;
      }
    }
    forall i | i in w'.items && i.state == ItemHeld ensures Unreserved(w'.ledger, i) {
      assert Unreserved(w.ledger, i);
    }
  }

  lemma ForfeitAmounts(l: seq<Entry>, m: Miner, balance: int, seen: nat)
    requires AmountsOk(l) && balance > 0
    ensures AmountsOk(l + ForfeitEntries(m, balance, seen))
  {
    var es := ForfeitEntries(m, balance, seen);
    assert es == ([] + [es[0]]) + [es[1]];
    Grow(l, es, m);
    SumSnoc([es[0]], es[1], In(LIABILITIES));
    SumSnoc([], es[0], In(LIABILITIES));
    SumSnoc([es[0]], es[1], FromBlocks());
    SumSnoc([], es[0], FromBlocks());
  }

  lemma ForfeitMiner(w: Wallet, w': Wallet, m: Miner, balance: int, seen: nat, n: Miner)
    requires MinerOk(w, n) && balance == Balance(w.ledger, MinerConfirmed, m)
    requires w' == w.(ledger := w.ledger + ForfeitEntries(m, balance, seen))
    ensures MinerOk(w', n)
  {
    var es := ForfeitEntries(m, balance, seen);
    Grow(w.ledger, es, n);
    assert es == ([] + [es[0]]) + [es[1]];
    Grow([es[0]], [es[1]], n);
    Grow([], [es[0]], n);
    Grow([], [es[1]], n);
    assert [] + [es[1]] == [es[1]];
  }
}
