/** What every committed payout transaction keeps, whatever order they come in. */
module PayoutInvariant {
  import opened Wrappers
  import opened Sums
  import opened Ledger
  import opened Payouts

  // ---------- what the balances mean ----------

  function AmountOf(m: Miner): Item -> int {
    (i: Item) => if i.miner == m then i.amount else 0
  }

  /** Items a miner is owed under a reservation. */
  function Outstanding(m: Miner): Item -> int {
    (i: Item) => if i.miner == m && i.state in {ItemReserved, ItemBroadcast} then i.amount else 0
  }

  /** Items of committed payouts. */
  function Settled(m: Miner): Item -> int {
    (i: Item) => if i.miner == m && i.state == ItemConfirmed then i.amount else 0
  }

  function CreditOf(m: Miner): Entry -> int {
    (e: Entry) => if e.key.AllocCredit? && e.miner == Some(m) then e.amount else 0
  }

  function ForfeitedOf(m: Miner): Entry -> int {
    (e: Entry) => if e.key.Forfeit? && e.miner == Some(m) then -e.amount else 0
  }

  function FromBlocks(): Entry -> int {
    (e: Entry) => if e.key.AllocCredit? || e.key.AllocFee? || e.key.AllocRounding? then e.amount else 0
  }

  /** Every account except the network fee, which the wallet pays out of its own change. */
  const LIABILITIES: set<Account> := {MinerConfirmed, MinerPending, MinerPaid, PoolFee, Rounding}

  ghost predicate MinerOk(w: Wallet, m: Miner) {
    && Balance(w.ledger, MinerPending, m) == Sum(w.items, Outstanding(m))
    && Balance(w.ledger, MinerPaid, m) == Sum(w.items, Settled(m))
    && Balance(w.ledger, MinerConfirmed, m) >= 0
    && Balance(w.ledger, MinerConfirmed, m) + Balance(w.ledger, MinerPending, m) + Balance(w.ledger, MinerPaid, m)
       == Sum(w.ledger, CreditOf(m)) - Sum(w.ledger, ForfeitedOf(m))
  }

  // ---------- shape of the tables ----------

  predicate StatesAgree(i: ItemState, b: BatchState) {
    match b
    case BatchHeld => i == ItemHeld
    case BatchReserved => i in {ItemHeld, ItemReserved}
    case BatchBuilt => i in {ItemReserved, ItemBroadcast}
    case BatchBroadcast => i in {ItemReserved, ItemBroadcast}
    case BatchConfirmed => i == ItemConfirmed
  }

  predicate HasItem(items: seq<Item>, b: BatchId, m: Miner) {
    exists i | i in items :: i.batch == b && i.miner == m
  }

  /** UNIQUE (batch_id, miner_id). */
  predicate OneItemPerMiner(items: seq<Item>) {
    items == [] ||
    (OneItemPerMiner(items[..|items| - 1]) &&
     !HasItem(items[..|items| - 1], items[|items| - 1].batch, items[|items| - 1].miner))
  }

  predicate OfOneBatch(its: seq<Item>, b: BatchId) {
    forall i | i in its :: i.batch == b
  }

  ghost predicate AllIn(items: seq<Item>, b: BatchId, st: ItemState) {
    forall i | i in items :: i.batch == b ==> i.state == st
  }

  ghost predicate RowOk(i: Item, batches: map<BatchId, Batch>) {
    i.batch in batches && i.amount >= 0 && StatesAgree(i.state, batches[i.batch].state)
  }

  ghost predicate ItemsOk(w: Wallet) {
    && (forall i | i in w.items :: RowOk(i, w.batches))
    && OneItemPerMiner(w.items)
    && (forall b | b in w.batches && w.batches[b].state == BatchReserved ::
      AllIn(w.items, b, ItemHeld) || AllIn(w.items, b, ItemReserved))
  }

  ghost predicate HashesOk(w: Wallet) {
    && (forall b | b in w.batches ::
      w.batches[b].tx.Some? <==> w.batches[b].state in {BatchBuilt, BatchBroadcast, BatchConfirmed})
    && (forall b, c | b in w.batches && c in w.batches && w.batches[b].tx == w.batches[c].tx && w.batches[b].tx.Some? ::
      b == c)
  }

  function BatchOfKey(k: Key): Option<BatchId> {
    match k
    case ReserveConfirmed(b, _) => Some(b)
    case ReservePending(b, _) => Some(b)
    case PaidCredit(b, _) => Some(b)
    case PaidPending(b, _) => Some(b)
    case BatchFee(b) => Some(b)
    case _ => None
  }

  predicate IsPaidKey(k: Key) {
    k.PaidCredit? || k.PaidPending? || k.BatchFee?
  }

  /** Rows exist only for known batches, and payment rows only for confirmed ones. */
  ghost predicate KeyOk(k: Key, batches: map<BatchId, Batch>) {
    BatchOfKey(k).Some? ==>
      && BatchOfKey(k).value in batches
      && (IsPaidKey(k) ==> batches[BatchOfKey(k).value].state == BatchConfirmed)
  }

  ghost predicate Unreserved(l: seq<Entry>, i: Item) {
    !Posted(l, ReserveConfirmed(i.batch, i.miner)) && !Posted(l, ReservePending(i.batch, i.miner))
  }

  ghost predicate KeysOk(w: Wallet) {
    && (forall e | e in w.ledger :: KeyOk(e.key, w.batches))
    && (forall i | i in w.items && i.state == ItemHeld :: Unreserved(w.ledger, i))
    && (forall e | e in w.ledger && e.key.ForfeitFee? :: Posted(w.ledger, Forfeit(e.key.miner, e.key.seen)))
  }

  ghost predicate AmountsOk(l: seq<Entry>) {
    && Sum(l, In(LIABILITIES)) == Sum(l, FromBlocks())
    && (forall e | e in l && e.key.Forfeit? :: e.amount <= 0)
    && (forall e | e in l && e.account in {MinerPaid, PoolFee, Rounding, TxFee} :: e.amount >= 0)
  }

  ghost predicate Inv(w: Wallet) {
    && ItemsOk(w)
    && HashesOk(w)
    && KeysOk(w)
    && AmountsOk(w.ledger)
    && forall m :: MinerOk(w, m)
  }

  // ---------- sums over generated rows ----------

  lemma {:induction false} SumReserve(its: seq<Item>, f: Entry -> int, h: Item -> int)
    requires forall k | 0 <= k < |its| :: f(ReserveOut(its[k])) + f(ReserveIn(its[k])) == h(its[k])
    ensures Sum(AllReserveEntries(its), f) == Sum(its, h)
  {
    if its != [] {
      var n := |its| - 1;
      SumReserve(its[..n], f, h);
      var es, x, y := AllReserveEntries(its[..n]), ReserveOut(its[n]), ReserveIn(its[n]);
      assert AllReserveEntries(its) == (es + [x]) + [y];
      SumSnoc(es, x, f);
      SumSnoc(es + [x], y, f);
    }
  }

  /** The rows generated for a list of items, and where each came from. */
  lemma {:induction false} ReserveRows(its: seq<Item>)
    ensures forall e | e in AllReserveEntries(its) :: exists i | i in its :: e == ReserveOut(i) || e == ReserveIn(i)
  {
    if its != [] {
      var n := |its| - 1;
      ReserveRows(its[..n]);
      assert its[n] in its;
      forall e | e in AllReserveEntries(its)
        ensures exists i | i in its :: e == ReserveOut(i) || e == ReserveIn(i)
      {
        if e in AllReserveEntries(its[..n]) {
          var i :| i in its[..n] && (e == ReserveOut(i) || e == ReserveIn(i));
          assert i in its;
        }
      }
    }
  }

  lemma ReserveKeysFresh(its: seq<Item>, i: Item)
    requires !HasItem(its, i.batch, i.miner)
    ensures !Posted(AllReserveEntries(its), ReserveOut(i).key) && !Posted(AllReserveEntries(its), ReserveIn(i).key)
  {
    ReserveRows(its);
    forall e | e in AllReserveEntries(its) ensures e.key != ReserveOut(i).key && e.key != ReserveIn(i).key {
      var j :| j in its && (e == ReserveOut(j) || e == ReserveIn(j));
    }
  }

  lemma TwoMore(es: seq<Entry>, x: Entry, y: Entry)
    requires KeysUnique(es) && !Posted(es, x.key) && !Posted(es, y.key) && x.key != y.key
    ensures KeysUnique(es + [x, y])
  {
    assert (es + [x])[..|es|] == es;
    assert KeysUnique(es + [x]);
    assert (es + [x, y])[..|es| + 1] == es + [x];
    assert !Posted(es + [x], y.key);
  }

  lemma {:induction false} ReserveKeysUnique(its: seq<Item>)
    requires OneItemPerMiner(its)
    ensures KeysUnique(AllReserveEntries(its))
  {
    if its != [] {
      var n := |its| - 1;
      ReserveKeysUnique(its[..n]);
      ReserveKeysFresh(its[..n], its[n]);
      TwoMore(AllReserveEntries(its[..n]), ReserveOut(its[n]), ReserveIn(its[n]));
    }
  }

  lemma {:induction false} SumPaid(its: seq<Item>, f: Entry -> int, h: Item -> int)
    requires forall k | 0 <= k < |its| :: f(PayIn(its[k])) + f(PayOut(its[k])) == h(its[k])
    ensures Sum(AllPaidEntries(its), f) == Sum(its, h)
  {
    if its != [] {
      var n := |its| - 1;
      SumPaid(its[..n], f, h);
      var es, x, y := AllPaidEntries(its[..n]), PayIn(its[n]), PayOut(its[n]);
      assert AllPaidEntries(its) == (es + [x]) + [y];
      SumSnoc(es, x, f);
      SumSnoc(es + [x], y, f);
    }
  }

  /** The rows generated for a list of items, and where each came from. */
  lemma {:induction false} PaidRows(its: seq<Item>)
    ensures forall e | e in AllPaidEntries(its) :: exists i | i in its :: e == PayIn(i) || e == PayOut(i)
  {
    if its != [] {
      var n := |its| - 1;
      PaidRows(its[..n]);
      assert its[n] in its;
      forall e | e in AllPaidEntries(its)
        ensures exists i | i in its :: e == PayIn(i) || e == PayOut(i)
      {
        if e in AllPaidEntries(its[..n]) {
          var i :| i in its[..n] && (e == PayIn(i) || e == PayOut(i));
          assert i in its;
        }
      }
    }
  }

  lemma PaidKeysFresh(its: seq<Item>, i: Item)
    requires !HasItem(its, i.batch, i.miner)
    ensures !Posted(AllPaidEntries(its), PayIn(i).key) && !Posted(AllPaidEntries(its), PayOut(i).key)
  {
    PaidRows(its);
    forall e | e in AllPaidEntries(its) ensures e.key != PayIn(i).key && e.key != PayOut(i).key {
      var j :| j in its && (e == PayIn(j) || e == PayOut(j));
    }
  }

  lemma {:induction false} PaidKeysUnique(its: seq<Item>)
    requires OneItemPerMiner(its)
    ensures KeysUnique(AllPaidEntries(its))
  {
    if its != [] {
      var n := |its| - 1;
      PaidKeysUnique(its[..n]);
      PaidKeysFresh(its[..n], its[n]);
      TwoMore(AllPaidEntries(its[..n]), PayIn(its[n]), PayOut(its[n]));
    }
  }

  // ---------- selections and updates ----------

  lemma {:induction false} SelectRows(items: seq<Item>, b: BatchId, st: ItemState)
    ensures forall i :: i in Select(items, b, st) <==> i in items && i.batch == b && i.state == st
  {
    if items != [] {
      var n := |items| - 1;
      SelectRows(items[..n], b, st);
      assert items == items[..n] + [items[n]];
    }
  }

  lemma {:induction false} SelectDistinct(items: seq<Item>, b: BatchId, st: ItemState)
    requires OneItemPerMiner(items)
    ensures OneItemPerMiner(Select(items, b, st))
  {
    if items != [] {
      var n := |items| - 1;
      SelectDistinct(items[..n], b, st);
      SelectRows(items[..n], b, st);
      var before := Select(items[..n], b, st);
      if Select(items, b, st) != before {
        assert Select(items, b, st) == before + [items[n]];
        assert !HasItem(before, items[n].batch, items[n].miner);
        assert (before + [items[n]])[..|before|] == before;
      }
    }
  }

  lemma {:induction false} OfBatchRows(items: seq<Item>, b: BatchId)
    ensures forall i :: i in OfBatch(items, b) <==> i in items && i.batch == b
  {
    if items != [] {
      var n := |items| - 1;
      OfBatchRows(items[..n], b);
      assert items == items[..n] + [items[n]];
    }
  }

  lemma {:induction false} OfBatchDistinct(items: seq<Item>, b: BatchId)
    requires OneItemPerMiner(items)
    ensures OneItemPerMiner(OfBatch(items, b))
  {
    if items != [] {
      var n := |items| - 1;
      OfBatchDistinct(items[..n], b);
      OfBatchRows(items[..n], b);
      var before := OfBatch(items[..n], b);
      if OfBatch(items, b) != before {
        assert OfBatch(items, b) == before + [items[n]];
        assert !HasItem(before, items[n].batch, items[n].miner);
        assert (before + [items[n]])[..|before|] == before;
      }
    }
  }

  function Shift(h: Item -> int, to: ItemState): Item -> int {
    (i: Item) => h(i.(state := to)) - h(i)
  }

  lemma {:induction false} MoveAt(items: seq<Item>, b: BatchId, from: ItemState, to: ItemState, k: nat)
    requires k < |items|
    ensures Move(items, b, from, to)[k] ==
      if items[k].batch == b && items[k].state == from then items[k].(state := to) else items[k]
  {
    if k < |items| - 1 {
      MoveAt(items[..|items| - 1], b, from, to, k);
    }
  }

  lemma {:induction false} ConfirmAt(items: seq<Item>, b: BatchId, k: nat)
    requires k < |items|
    ensures ConfirmItems(items, b)[k] == if items[k].batch == b then items[k].(state := ItemConfirmed) else items[k]
  {
    if k < |items| - 1 {
      ConfirmAt(items[..|items| - 1], b, k);
    }
  }

  /** What moving the selected rows to another state does to any sum over the table. */
  lemma {:induction false} MoveSum(items: seq<Item>, b: BatchId, from: ItemState, to: ItemState, h: Item -> int)
    ensures Sum(Move(items, b, from, to), h) == Sum(items, h) + Sum(Select(items, b, from), Shift(h, to))
  {
    if items != [] {
      var n := |items| - 1;
      var i := items[n];
      MoveSum(items[..n], b, from, to, h);
      SumSnoc(Move(items[..n], b, from, to), if i.batch == b && i.state == from then i.(state := to) else i, h);
      if i.batch == b && i.state == from {
        SumSnoc(Select(items[..n], b, from), i, Shift(h, to));
      } else {
        assert Select(items, b, from) == Select(items[..n], b, from);
      }
    }
  }

  lemma {:induction false} ConfirmSum(items: seq<Item>, b: BatchId, h: Item -> int)
    ensures Sum(ConfirmItems(items, b), h) == Sum(items, h) + Sum(OfBatch(items, b), Shift(h, ItemConfirmed))
  {
    if items != [] {
      var n := |items| - 1;
      var i := items[n];
      ConfirmSum(items[..n], b, h);
      SumSnoc(ConfirmItems(items[..n], b), if i.batch == b then i.(state := ItemConfirmed) else i, h);
      if i.batch == b {
        SumSnoc(OfBatch(items[..n], b), i, Shift(h, ItemConfirmed));
      } else {
        assert OfBatch(items, b) == OfBatch(items[..n], b);
      }
    }
  }

  lemma ShiftIs(h: Item -> int, to: ItemState, i: Item)
    ensures Shift(h, to)(i) == h(i.(state := to)) - h(i)
  {
  }

  /** Moving rows that each change weight by d changes the total by the moved rows' d. */
  lemma MoveShift(items: seq<Item>, b: BatchId, from: ItemState, to: ItemState, h: Item -> int, d: Item -> int)
    requires forall i: Item {:trigger d(i)} | i.batch == b && i.state == from :: h(i.(state := to)) - h(i) == d(i)
    ensures Sum(Move(items, b, from, to), h) == Sum(items, h) + Sum(Select(items, b, from), d)
  {
    hide *;
    MoveSum(items, b, from, to, h);
    var moved := Select(items, b, from);
    SelectRows(items, b, from);
    forall k | 0 <= k < |moved| ensures Shift(h, to)(moved[k]) == d(moved[k]) {
      assert moved[k] in moved;
      ShiftIs(h, to, moved[k]);
    }
    SumSame(moved, Shift(h, to), moved, d);
  }

  lemma ConfirmShift(items: seq<Item>, b: BatchId, h: Item -> int, d: Item -> int)
    requires forall i | i in items && i.batch == b :: h(i.(state := ItemConfirmed)) - h(i) == d(i)
    ensures Sum(ConfirmItems(items, b), h) == Sum(items, h) + Sum(OfBatch(items, b), d)
  {
    hide *;
    ConfirmSum(items, b, h);
    var done := OfBatch(items, b);
    OfBatchRows(items, b);
    forall k | 0 <= k < |done| ensures Shift(h, ItemConfirmed)(done[k]) == d(done[k]) {
      assert done[k] in done;
      ShiftIs(h, ItemConfirmed, done[k]);
    }
    SumSame(done, Shift(h, ItemConfirmed), done, d);
  }

  /** A miner named at most once in one batch gets at most what one item says. */
  lemma {:induction false} OneItemEach(its: seq<Item>, b: BatchId, m: Miner, most: int)
    requires OfOneBatch(its, b) && OneItemPerMiner(its)
    requires most >= 0 && forall i | i in its && i.miner == m :: i.amount <= most
    ensures Sum(its, AmountOf(m)) <= most
    ensures !HasItem(its, b, m) ==> Sum(its, AmountOf(m)) == 0
  {
    if its != [] {
      var n := |its| - 1;
      assert its == its[..n] + [its[n]];
      assert its[n] in its;
      OneItemEach(its[..n], b, m, most);
      assert HasItem(its[..n], b, m) ==> HasItem(its, b, m);
    }
  }

  // ---------- the ledger after a reservation, a payment, a forfeiture ----------

  lemma Grow(l: seq<Entry>, es: seq<Entry>, m: Miner)
    ensures forall a :: Balance(l + es, a, m) == Balance(l, a, m) + Sum(es, Of(a, m))
    ensures Sum(l + es, CreditOf(m)) == Sum(l, CreditOf(m)) + Sum(es, CreditOf(m))
    ensures Sum(l + es, ForfeitedOf(m)) == Sum(l, ForfeitedOf(m)) + Sum(es, ForfeitedOf(m))
    ensures Sum(l + es, In(LIABILITIES)) == Sum(l, In(LIABILITIES)) + Sum(es, In(LIABILITIES))
    ensures Sum(l + es, FromBlocks()) == Sum(l, FromBlocks()) + Sum(es, FromBlocks())
  {
    forall a ensures Balance(l + es, a, m) == Balance(l, a, m) + Sum(es, Of(a, m)) {
      SumAppend(l, es, Of(a, m));
    }
    SumAppend(l, es, CreditOf(m));
    SumAppend(l, es, ForfeitedOf(m));
    SumAppend(l, es, In(LIABILITIES));
    SumAppend(l, es, FromBlocks());
  }

  function Minus(h: Item -> int): Item -> int {
    (i: Item) => -h(i)
  }

  lemma {:induction false} SumMinus(its: seq<Item>, h: Item -> int)
    ensures Sum(its, Minus(h)) == -Sum(its, h)
  {
    if its != [] {
      SumMinus(its[..|its| - 1], h);
    }
  }

  function Nothing(): Item -> int {
    (i: Item) => 0
  }

  lemma ReserveDeltas(its: seq<Item>, m: Miner)
    ensures Sum(AllReserveEntries(its), Of(MinerConfirmed, m)) == -Sum(its, AmountOf(m))
    ensures Sum(AllReserveEntries(its), Of(MinerPending, m)) == Sum(its, AmountOf(m))
    ensures Sum(AllReserveEntries(its), Of(MinerPaid, m)) == 0
    ensures Sum(AllReserveEntries(its), CreditOf(m)) == 0
    ensures Sum(AllReserveEntries(its), ForfeitedOf(m)) == 0
    ensures Sum(AllReserveEntries(its), In(LIABILITIES)) == 0
    ensures Sum(AllReserveEntries(its), FromBlocks()) == 0
  {
    SumMinus(its, AmountOf(m));
    SumZero(its, Nothing());
    SumReserve(its, Of(MinerConfirmed, m), Minus(AmountOf(m)));
    SumReserve(its, Of(MinerPending, m), AmountOf(m));
    SumReserve(its, Of(MinerPaid, m), Nothing());
    SumReserve(its, CreditOf(m), Nothing());
    SumReserve(its, ForfeitedOf(m), Nothing());
    SumReserve(its, In(LIABILITIES), Nothing());
    SumReserve(its, FromBlocks(), Nothing());
  }

  lemma PaidDeltas(its: seq<Item>, m: Miner)
    ensures Sum(AllPaidEntries(its), Of(MinerConfirmed, m)) == 0
    ensures Sum(AllPaidEntries(its), Of(MinerPending, m)) == -Sum(its, AmountOf(m))
    ensures Sum(AllPaidEntries(its), Of(MinerPaid, m)) == Sum(its, AmountOf(m))
    ensures Sum(AllPaidEntries(its), CreditOf(m)) == 0
    ensures Sum(AllPaidEntries(its), ForfeitedOf(m)) == 0
    ensures Sum(AllPaidEntries(its), In(LIABILITIES)) == 0
    ensures Sum(AllPaidEntries(its), FromBlocks()) == 0
  {
    SumMinus(its, AmountOf(m));
    SumZero(its, Nothing());
    SumPaid(its, Of(MinerConfirmed, m), Nothing());
    SumPaid(its, Of(MinerPending, m), Minus(AmountOf(m)));
    SumPaid(its, Of(MinerPaid, m), AmountOf(m));
    SumPaid(its, CreditOf(m), Nothing());
    SumPaid(its, ForfeitedOf(m), Nothing());
    SumPaid(its, In(LIABILITIES), Nothing());
    SumPaid(its, FromBlocks(), Nothing());
  }

  lemma Conclude(w: Wallet)
    requires ItemsOk(w) && HashesOk(w) && KeysOk(w) && AmountsOk(w.ledger) && forall m :: MinerOk(w, m)
    ensures Inv(w)
  {
  }

  lemma Given(w: Wallet)
    requires Inv(w)
    ensures ItemsOk(w) && HashesOk(w) && KeysOk(w) && AmountsOk(w.ledger) && forall m :: MinerOk(w, m)
  {
  }
}
