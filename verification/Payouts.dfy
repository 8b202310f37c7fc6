/**
 The payout state machine of src/wallet/payout-worker.js. Each function below is the effect of one
 committed transaction (or one bare statement) on the tables; a transaction that throws or rolls
 back leaves them as they were.
 */
module Payouts {
  import opened Wrappers
  import opened Sums
  import opened Ledger

  type TxHash = string

  datatype BatchState = BatchHeld | BatchReserved | BatchBuilt | BatchBroadcast | BatchConfirmed
  datatype Batch = Batch(state: BatchState, released: bool, tx: Option<TxHash>, fee: Option<nat>)

  datatype ItemState = ItemHeld | ItemReserved | ItemBroadcast | ItemConfirmed
  datatype Item = Item(batch: BatchId, miner: Miner, amount: int, state: ItemState)

  datatype Wallet = Wallet(ledger: seq<Entry>, batches: map<BatchId, Batch>, items: seq<Item>)

  datatype Limits = Limits(minimum: nat, maxItems: nat, maxBatch: nat, maxDaily: nat)

  /** A row handed to createBatch: a miner, the balance seen at selection, and the dust flag. */
  datatype Candidate = Candidate(miner: Miner, balance: int, dust: bool)

  // ---------- createBatch ----------

  function Owed(l: seq<Entry>): int {
    Sum(l, In({MinerConfirmed, MinerPending}))
  }

  function Requirement(c: Candidate, limits: Limits): int {
    if c.dust then c.balance else limits.minimum
  }

  /** The per-candidate check inside the transaction: first mention of a miner only, balance read again. */
  function Chosen(l: seq<Entry>, cs: seq<Candidate>, limits: Limits, b: BatchId, st: ItemState): seq<Item> {
    if cs == [] then []
    else
      var before := Chosen(l, cs[..|cs| - 1], limits, b, st);
      var c := cs[|cs| - 1];
      var owed := Balance(l, MinerConfirmed, c.miner);
      if Mentioned(cs[..|cs| - 1], c.miner) || owed < Requirement(c, limits) then before
      else before + [Item(b, c.miner, owed, st)]
  }

  predicate Mentioned(cs: seq<Candidate>, m: Miner) {
    exists c | c in cs :: c.miner == m
  }

  function Amount(i: Item): int { i.amount }

  function Total(its: seq<Item>): int {
    Sum(its, Amount)
  }

  function ReserveOut(i: Item): Entry {
    Entry(MinerConfirmed, Some(i.miner), -i.amount, ReserveConfirmed(i.batch, i.miner))
  }

  function ReserveIn(i: Item): Entry {
    Entry(MinerPending, Some(i.miner), i.amount, ReservePending(i.batch, i.miner))
  }

  function AllReserveEntries(its: seq<Item>): seq<Entry> {
    if its == [] then [] else AllReserveEntries(its[..|its| - 1]) + [ReserveOut(its[|its| - 1]), ReserveIn(its[|its| - 1])]
  }

  function Truncated(cs: seq<Candidate>, limits: Limits): seq<Candidate> {
    if |cs| <= limits.maxItems then cs else cs[..limits.maxItems]
  }

  /** The guard of caps.js for a proposal whose items are whole balances of distinct miners. */
  predicate WithinCaps(total: int, dailySpent: nat, limits: Limits) {
    total <= limits.maxBatch && dailySpent + total <= limits.maxDaily
  }

  predicate AnyNegative(its: seq<Item>) {
    exists i | i in its :: i.amount < 0
  }

  function CreateBatch(w: Wallet, received: int, b: BatchId, cs: seq<Candidate>, limits: Limits, dailySpent: nat): Wallet
  {
    var proposal := Chosen(w.ledger, Truncated(cs, limits), limits, b, ItemHeld);
    if Owed(w.ledger) > received || proposal == [] || AnyNegative(proposal) then w
    else if WithinCaps(Total(proposal), dailySpent, limits) then
      var its := Chosen(w.ledger, Truncated(cs, limits), limits, b, ItemReserved);
      Wallet(PostAll(w.ledger, AllReserveEntries(its)), w.batches[b := Batch(BatchReserved, false, None, None)], w.items + its)
    else
      Wallet(w.ledger, w.batches[b := Batch(BatchHeld, false, None, None)], w.items + proposal)
  }

  // ---------- approveBatch and reserveReleasedBatch ----------

  function Approve(w: Wallet, b: BatchId): Wallet {
    if b in w.batches && w.batches[b].state == BatchHeld
    then w.(batches := w.batches[b := w.batches[b].(state := BatchReserved, released := true)])
    else w
  }

  /** SELECT .. WHERE batch_id = b AND state = st. */
  function Select(items: seq<Item>, b: BatchId, st: ItemState): seq<Item> {
    if items == [] then []
    else
      var i := items[|items| - 1];
      Select(items[..|items| - 1], b, st) + if i.batch == b && i.state == st then [i] else []
  }

  /** UPDATE payout_items SET state = to WHERE batch_id = b AND state = from. */
  function Move(items: seq<Item>, b: BatchId, from: ItemState, to: ItemState): (r: seq<Item>)
    ensures |r| == |items|
  {
    if items == [] then []
    else
      var i := items[|items| - 1];
      Move(items[..|items| - 1], b, from, to) + [if i.batch == b && i.state == from then i.(state := to) else i]
  }

  predicate Covered(l: seq<Entry>, its: seq<Item>) {
    forall i | i in its :: Balance(l, MinerConfirmed, i.miner) >= i.amount
  }

  function ReserveReleased(w: Wallet, received: int, b: BatchId): Wallet {
    if b !in w.batches || w.batches[b].state != BatchReserved then w
    else
      var held := Select(w.items, b, ItemHeld);
      if held == [] then w
      else if !w.batches[b].released then
        w.(batches := w.batches[b := w.batches[b].(state := BatchHeld)])
      else if Owed(w.ledger) > received then w
      else if !Covered(w.ledger, held) then
        w.(batches := w.batches[b := w.batches[b].(state := BatchHeld, released := false)])
      else
        w.(ledger := PostAll(w.ledger, AllReserveEntries(held)), items := Move(w.items, b, ItemHeld, ItemReserved))
  }

  // ---------- processBatch ----------

  /** The rows handed to the transaction builder; none means the source throws. */
  function Payable(w: Wallet, b: BatchId): seq<Item> {
    if b in w.batches && w.batches[b].state == BatchReserved then Select(w.items, b, ItemReserved) else []
  }

  predicate HashUsed(w: Wallet, h: TxHash) {
    exists b | b in w.batches :: w.batches[b].tx == Some(h)
  }

  predicate CanSave(w: Wallet, b: BatchId, h: TxHash) {
    b in w.batches && w.batches[b].state == BatchReserved && !HashUsed(w, h)
  }

  /** UPDATE .. SET state = 'BUILT', tx_hash = h WHERE id = b AND state = 'RESERVED'; tx_hash is UNIQUE. */
  function SaveBuilt(w: Wallet, b: BatchId, h: TxHash, fee: Option<nat>): Wallet {
    if CanSave(w, b, h)
    then w.(batches := w.batches[b := w.batches[b].(state := BatchBuilt, tx := Some(h), fee := fee)])
    else w
  }

  /** The transaction after a successful broadcast. */
  function MarkBroadcast(w: Wallet, b: BatchId): Wallet {
    w.(items := Move(w.items, b, ItemReserved, ItemBroadcast),
       batches := if b in w.batches && w.batches[b].state == BatchBuilt
                  then w.batches[b := w.batches[b].(state := BatchBroadcast)] else w.batches)
  }

  // ---------- confirmBatch ----------

  predicate Unresolved(w: Wallet, b: BatchId) {
    b in w.batches && w.batches[b].state in {BatchBuilt, BatchBroadcast} && w.batches[b].tx.Some?
  }

  /** The node reports 'pending' or 'proposed'. */
  function MarkSeen(w: Wallet, b: BatchId): Wallet {
    if Unresolved(w, b)
    then w.(items := Move(w.items, b, ItemReserved, ItemBroadcast),
            batches := w.batches[b := w.batches[b].(state := BatchBroadcast)])
    else w
  }

  function PayIn(i: Item): Entry {
    Entry(MinerPaid, Some(i.miner), i.amount, PaidCredit(i.batch, i.miner))
  }

  function PayOut(i: Item): Entry {
    Entry(MinerPending, Some(i.miner), -i.amount, PaidPending(i.batch, i.miner))
  }

  function AllPaidEntries(its: seq<Item>): seq<Entry> {
    if its == [] then [] else AllPaidEntries(its[..|its| - 1]) + [PayIn(its[|its| - 1]), PayOut(its[|its| - 1])]
  }

  /** SELECT .. WHERE batch_id = b. */
  function OfBatch(items: seq<Item>, b: BatchId): seq<Item> {
    if items == [] then []
    else
      var i := items[|items| - 1];
      OfBatch(items[..|items| - 1], b) + if i.batch == b then [i] else []
  }

  function ConfirmItems(items: seq<Item>, b: BatchId): (r: seq<Item>)
    ensures |r| == |items|
  {
    if items == [] then []
    else
      var i := items[|items| - 1];
      ConfirmItems(items[..|items| - 1], b) + [if i.batch == b then i.(state := ItemConfirmed) else i]
  }

  /** The fee derived from the committed transaction, else the one saved when it was built. */
  function FinalFee(batch: Batch, derived: Option<nat>): Option<nat> {
    if derived.Some? then derived else batch.fee
  }

  /** The node reports 'committed'. With no fee to record the source throws. */
  function CommitConfirmed(w: Wallet, b: BatchId, derived: Option<nat>): Wallet {
    if !Unresolved(w, b) || FinalFee(w.batches[b], derived).None? then w
    else
      var fee := FinalFee(w.batches[b], derived).value;
      Wallet(PostAll(w.ledger, AllPaidEntries(OfBatch(w.items, b)) + [Entry(TxFee, None, fee, BatchFee(b))]),
             w.batches[b := w.batches[b].(state := BatchConfirmed, fee := Some(fee))],
             ConfirmItems(w.items, b))
  }

  // ---------- forfeitUnpayable ----------

  /** max(id) over a miner's confirmed rows; rowId gives the uuid of the row at each position. */
  function LastSeen(l: seq<Entry>, m: Miner, rowId: nat -> nat): nat {
    if l == [] then 0
    else
      var n := |l| - 1;
      var before := LastSeen(l[..n], m, rowId);
      if l[n].account == MinerConfirmed && l[n].miner == Some(m) && rowId(n) > before then rowId(n) else before
  }

  function ForfeitEntries(m: Miner, balance: int, seen: nat): seq<Entry> {
    [Entry(MinerConfirmed, Some(m), -balance, Forfeit(m, seen)),
     Entry(PoolFee, None, balance, ForfeitFee(m, seen))]
  }

  function ForfeitOne(w: Wallet, m: Miner, rowId: nat -> nat): Wallet {
    var balance := Balance(w.ledger, MinerConfirmed, m);
    var seen := LastSeen(w.ledger, m, rowId);
    if balance <= 0 || Posted(w.ledger, Forfeit(m, seen)) then w
    else w.(ledger := PostAll(w.ledger, ForfeitEntries(m, balance, seen)))
  }
}
