/**
 What each committed payout transaction does to the tables, row by row, said without the functions that compute it:
 which items move to which state, which ledger rows appear and with which amounts, and when nothing changes at all.
 */
module PayoutEffects {
  import opened Wrappers
  import opened Sums
  import opened Ledger
  import opened Payouts
  import opened PayoutInvariant
  import opened PayoutSteps

  // ---------- rows ----------

  /** The rows of batch b in one of the states are now in the given one, and no other row has changed. */
  ghost predicate Moved(items: seq<Item>, items': seq<Item>, b: BatchId, from: set<ItemState>, to: ItemState) {
    |items'| == |items| && forall k | 0 <= k < |items| ::
      items'[k] == if items[k].batch == b && items[k].state in from then items[k].(state := to) else items[k]
  }

  ghost predicate ReserveRow(e: Entry, i: Item) {
    || e == Entry(MinerConfirmed, Some(i.miner), -i.amount, ReserveConfirmed(i.batch, i.miner))
    || e == Entry(MinerPending, Some(i.miner), i.amount, ReservePending(i.batch, i.miner))
  }

  ghost predicate PaymentRow(e: Entry, i: Item) {
    || e == Entry(MinerPaid, Some(i.miner), i.amount, PaidCredit(i.batch, i.miner))
    || e == Entry(MinerPending, Some(i.miner), -i.amount, PaidPending(i.batch, i.miner))
  }

  ghost predicate ReservedFor(e: Entry, its: seq<Item>) {
    exists i | i in its :: ReserveRow(e, i)
  }

  ghost predicate PaidFor(e: Entry, its: seq<Item>) {
    exists i | i in its :: PaymentRow(e, i)
  }

  /** The items' CONFIRMED amounts have become PENDING_PAYOUT: both rows of each are new, and nothing else is. */
  ghost predicate Reserves(l: seq<Entry>, l': seq<Entry>, its: seq<Item>) {
    && l <= l' && |l'| == |l| + 2 * |its|
    && (forall k | |l| <= k < |l'| :: ReservedFor(l'[k], its))
    && (forall i, e | i in its && ReserveRow(e, i) :: e in l')
  }

  /** The items' PENDING_PAYOUT amounts have become PAID, and the fee is booked: nothing else is new. */
  ghost predicate Pays(l: seq<Entry>, l': seq<Entry>, its: seq<Item>, b: BatchId, fee: nat) {
    && l <= l' && |l'| == |l| + 2 * |its| + 1
    && (forall k | |l| <= k < |l'| :: l'[k] == Entry(TxFee, None, fee, BatchFee(b)) || PaidFor(l'[k], its))
    && (forall i, e | i in its && PaymentRow(e, i) :: e in l')
    && Entry(TxFee, None, fee, BatchFee(b)) in l'
  }

  lemma {:induction false} ReserveEntriesExact(its: seq<Item>)
    ensures |AllReserveEntries(its)| == 2 * |its|
    ensures forall e :: e in AllReserveEntries(its) <==> ReservedFor(e, its)
  {
    if its != [] {
      var n := |its| - 1;
      ReserveEntriesExact(its[..n]);
      var before := AllReserveEntries(its[..n]);
      assert AllReserveEntries(its) == before + [ReserveOut(its[n]), ReserveIn(its[n])];
      forall e ensures e in AllReserveEntries(its) <==> ReservedFor(e, its) {
        if e in before {
          var i :| i in its[..n] && ReserveRow(e, i);
          assert i in its;
        } else if e in AllReserveEntries(its) {
          assert its[n] in its && ReserveRow(e, its[n]);
        }
        if i :| i in its && ReserveRow(e, i) {
          assert i in its[..n] || i == its[n];
        }
      }
    }
  }

  lemma {:induction false} PaidEntriesExact(its: seq<Item>)
    ensures |AllPaidEntries(its)| == 2 * |its|
    ensures forall e :: e in AllPaidEntries(its) <==> PaidFor(e, its)
  {
    if its != [] {
      var n := |its| - 1;
      PaidEntriesExact(its[..n]);
      var before := AllPaidEntries(its[..n]);
      assert AllPaidEntries(its) == before + [PayIn(its[n]), PayOut(its[n])];
      forall e ensures e in AllPaidEntries(its) <==> PaidFor(e, its) {
        if e in before {
          var i :| i in its[..n] && PaymentRow(e, i);
          assert i in its;
        } else if e in AllPaidEntries(its) {
          assert its[n] in its && PaymentRow(e, its[n]);
        }
        if i :| i in its && PaymentRow(e, i) {
          assert i in its[..n] || i == its[n];
        }
      }
    }
  }

  lemma AppendedReserves(l: seq<Entry>, its: seq<Item>)
    ensures Reserves(l, l + AllReserveEntries(its), its)
  {
    ReserveEntriesExact(its);
    hide AllReserveEntries, ReserveRow;
    var es := AllReserveEntries(its);
    var l' := l + es;
    forall k | |l| <= k < |l'| ensures ReservedFor(l'[k], its) {
      assert l'[k] == es[k - |l|] && l'[k] in es;
    }
    forall i, e | i in its && ReserveRow(e, i) ensures e in l' {
      assert e in es;
    }
  }

  lemma AppendedPays(l: seq<Entry>, its: seq<Item>, b: BatchId, fee: nat)
    ensures Pays(l, l + (AllPaidEntries(its) + [Entry(TxFee, None, fee, BatchFee(b))]), its, b, fee)
  {
    PaidEntriesExact(its);
    hide AllPaidEntries, PaymentRow;
    var es := AllPaidEntries(its);
    var l' := l + (es + [Entry(TxFee, None, fee, BatchFee(b))]);
    forall k | |l| <= k < |l'| ensures l'[k] == Entry(TxFee, None, fee, BatchFee(b)) || PaidFor(l'[k], its) {
      if k < |l| + |es| {
        assert l'[k] == es[k - |l|] && l'[k] in es;
      }
    }
    assert l'[|l| + |es|] == Entry(TxFee, None, fee, BatchFee(b));
    forall i, e | i in its && PaymentRow(e, i) ensures e in l' {
      assert e in es;
    }
  }

  lemma MoveIsMoved(items: seq<Item>, b: BatchId, from: ItemState, to: ItemState)
    ensures Moved(items, Move(items, b, from, to), b, {from}, to)
  {
    forall k | 0 <= k < |items|
      ensures Move(items, b, from, to)[k] == if items[k].batch == b && items[k].state in {from} then items[k].(state := to) else items[k]
    {
      MoveAt(items, b, from, to, k);
    }
  }

  const ANY_STATE: set<ItemState> := {ItemHeld, ItemReserved, ItemBroadcast, ItemConfirmed}

  lemma ConfirmIsMoved(items: seq<Item>, b: BatchId)
    ensures Moved(items, ConfirmItems(items, b), b, ANY_STATE, ItemConfirmed)
  {
    forall k | 0 <= k < |items|
      ensures ConfirmItems(items, b)[k] == if items[k].batch == b && items[k].state in ANY_STATE then items[k].(state := ItemConfirmed) else items[k]
    {
      ConfirmAt(items, b, k);
      AnyState(items[k].state);
    }
  }

  lemma AnyState(st: ItemState)
    ensures st in ANY_STATE
  {
  }

  /** The items of a batch in one of the states, in table order. */
  ghost predicate ItemsOf(its: seq<Item>, items: seq<Item>, b: BatchId, states: set<ItemState>) {
    OneItemPerMiner(its) && forall i :: i in its <==> i in items && i.batch == b && i.state in states
  }

  // ---------- createBatch ----------

  function AmountsOf(): Item -> int {
    (i: Item) => i.amount
  }

  /** The miner's first mention is within the item limit, and the CONFIRMED balance covers what that mention requires. */
  ghost predicate Sufficient(l: seq<Entry>, cs: seq<Candidate>, limits: Limits, m: Miner) {
    exists k | 0 <= k < |cs| :: SufficientAt(l, cs, limits, m, k)
  }

  ghost predicate SufficientAt(l: seq<Entry>, cs: seq<Candidate>, limits: Limits, m: Miner, k: nat)
    requires k < |cs|
  {
    && k < limits.maxItems && cs[k].miner == m && (forall j | 0 <= j < k :: cs[j].miner != m)
    && Balance(l, MinerConfirmed, m) >= if cs[k].dust then cs[k].balance else limits.minimum
  }

  /** One item over its whole CONFIRMED balance for each miner whose candidacy suffices. */
  ghost predicate ProposedItems(its: seq<Item>, l: seq<Entry>, cs: seq<Candidate>, limits: Limits, b: BatchId, st: ItemState) {
    && OneItemPerMiner(its)
    && (forall i | i in its :: i.batch == b && i.state == st && i.amount == Balance(l, MinerConfirmed, i.miner))
    && (forall m :: HasItem(its, b, m) <==> Sufficient(l, cs, limits, m))
  }

  ghost predicate Proposed(w: Wallet, w': Wallet, b: BatchId, cs: seq<Candidate>, limits: Limits, spent: nat) {
    && w.items <= w'.items
    && var its := w'.items[|w.items|..];
       var total := Sum(its, AmountsOf());
       if total <= limits.maxBatch && spent + total <= limits.maxDaily then
         && ProposedItems(its, w.ledger, cs, limits, b, ItemReserved) && Reserves(w.ledger, w'.ledger, its)
         && w'.batches == w.batches[b := Batch(BatchReserved, false, None, None)]
       else
         && ProposedItems(its, w.ledger, cs, limits, b, ItemHeld) && w'.ledger == w.ledger
         && w'.batches == w.batches[b := Batch(BatchHeld, false, None, None)]
  }

  lemma SufficientMore(l: seq<Entry>, cs: seq<Candidate>, limits: Limits, m: Miner)
    requires 0 < |cs| <= limits.maxItems
    ensures var n := |cs| - 1;
      Sufficient(l, cs, limits, m) <==>
        (Sufficient(l, cs[..n], limits, m) ||
         (cs[n].miner == m && !Mentioned(cs[..n], m) && Balance(l, MinerConfirmed, m) >= Requirement(cs[n], limits)))
  {
    hide Balance;
    var n := |cs| - 1;
    if Sufficient(l, cs[..n], limits, m) {
      var k :| 0 <= k < n && SufficientAt(l, cs[..n], limits, m, k);
      assert SufficientAt(l, cs, limits, m, k);
    }
    if k :| 0 <= k < |cs| && SufficientAt(l, cs, limits, m, k) {
      if k < n {
        assert SufficientAt(l, cs[..n], limits, m, k);
      }
    }
    if cs[n].miner == m && !Mentioned(cs[..n], m) && Balance(l, MinerConfirmed, m) >= Requirement(cs[n], limits) {
      forall j | 0 <= j < n ensures cs[j].miner != m {
        assert cs[..n][j] in cs[..n];
      }
      assert SufficientAt(l, cs, limits, m, n);
    }
  }

  lemma SufficientCut(l: seq<Entry>, cs: seq<Candidate>, limits: Limits, m: Miner)
    ensures Sufficient(l, Truncated(cs, limits), limits, m) <==> Sufficient(l, cs, limits, m)
  {
    hide Balance;
    var cut := Truncated(cs, limits);
    if k :| 0 <= k < |cut| && SufficientAt(l, cut, limits, m, k) {
      assert SufficientAt(l, cs, limits, m, k);
    }
    if k :| 0 <= k < |cs| && SufficientAt(l, cs, limits, m, k) {
      assert SufficientAt(l, cut, limits, m, k);
    }
  }

  lemma {:induction false} ChosenSufficient(l: seq<Entry>, cs: seq<Candidate>, limits: Limits, b: BatchId, st: ItemState, m: Miner)
    requires |cs| <= limits.maxItems
    ensures HasItem(Chosen(l, cs, limits, b, st), b, m) <==> Sufficient(l, cs, limits, m)
  {
    if cs != [] {
      var n := |cs| - 1;
      ChosenSufficient(l, cs[..n], limits, b, st, m);
      SufficientMore(l, cs, limits, m);
      var before, last := Chosen(l, cs[..n], limits, b, st), Item(b, cs[n].miner, Balance(l, MinerConfirmed, cs[n].miner), st);
      assert Chosen(l, cs, limits, b, st) in [before, before + [last]];
      HasItemMore(before, last, b, m);
      hide Sufficient, HasItem, Mentioned, Balance;
    }
  }

  lemma HasItemMore(its: seq<Item>, i: Item, b: BatchId, m: Miner)
    ensures HasItem(its + [i], b, m) <==> HasItem(its, b, m) || (i.batch == b && i.miner == m)
  {
    if j :| j in its && j.batch == b && j.miner == m {
      assert j in its + [i];
    }
    assert i in its + [i];
  }

  lemma ChosenIsProposed(l: seq<Entry>, cs: seq<Candidate>, limits: Limits, b: BatchId, st: ItemState)
    ensures ProposedItems(Chosen(l, Truncated(cs, limits), limits, b, st), l, cs, limits, b, st)
  {
    ChosenRows(l, Truncated(cs, limits), limits, b, st);
    hide Chosen, Sufficient, HasItem, OneItemPerMiner, Mentioned, Balance;
    forall m ensures HasItem(Chosen(l, Truncated(cs, limits), limits, b, st), b, m) <==> Sufficient(l, cs, limits, m) {
      ChosenSufficient(l, Truncated(cs, limits), limits, b, st, m);
      SufficientCut(l, cs, limits, m);
    }
  }

  ghost predicate AnySufficient(l: seq<Entry>, cs: seq<Candidate>, limits: Limits) {
    exists m :: Sufficient(l, cs, limits, m)
  }

  lemma NoneIff(its: seq<Item>, l: seq<Entry>, cs: seq<Candidate>, limits: Limits, b: BatchId, st: ItemState)
    requires ProposedItems(its, l, cs, limits, b, st)
    ensures its == [] <==> !AnySufficient(l, cs, limits)
  {
    hide Sufficient, OneItemPerMiner, Balance;
    if its != [] {
      assert its[0] in its && HasItem(its, b, its[0].miner);
    }
    if m :| Sufficient(l, cs, limits, m) {
      assert HasItem(its, b, m);
    }
  }

  lemma NoneNegative(w: Wallet, its: seq<Item>)
    requires Inv(w) && forall i | i in its :: i.amount == Balance(w.ledger, MinerConfirmed, i.miner)
    ensures !AnyNegative(its)
  {
    forall i | i in its ensures i.amount >= 0 {
      assert MinerOk(w, i.miner);
    }
  }

  /** Cap checks never throw: in a consistent state no CONFIRMED balance is negative. */
  lemma TotalsAgree(its: seq<Item>, held: seq<Item>)
    requires |its| == |held| && forall k | 0 <= k < |its| :: its[k] == held[k].(state := ItemReserved)
    ensures Sum(its, AmountsOf()) == Total(held)
    ensures Sum(held, AmountsOf()) == Total(held)
  {
    SumSame(its, AmountsOf(), held, Amount);
    SumSame(held, AmountsOf(), held, Amount);
  }

  ghost predicate ProposalRefused(w: Wallet, received: int, cs: seq<Candidate>, limits: Limits) {
    Sum(w.ledger, In({MinerConfirmed, MinerPending})) > received || !AnySufficient(w.ledger, cs, limits)
  }

  /**
   A proposal changes nothing when the ledger owes more than was received or no candidate suffices. Otherwise it is
   a new batch over the whole balances of the sufficient candidates: reserved within both caps, and only listed, with
   nothing reserved, beyond one of them.
   */
  lemma ProposeEffect(w: Wallet, received: int, b: BatchId, cs: seq<Candidate>, limits: Limits, spent: nat)
    requires Inv(w) && b !in w.batches
    ensures ProposalRefused(w, received, cs, limits) ==> CreateBatch(w, received, b, cs, limits, spent) == w
    ensures !ProposalRefused(w, received, cs, limits) ==> Proposed(w, CreateBatch(w, received, b, cs, limits, spent), b, cs, limits, spent)
  {
    var cut := Truncated(cs, limits);
    var held, its := Chosen(w.ledger, cut, limits, b, ItemHeld), Chosen(w.ledger, cut, limits, b, ItemReserved);
    ProposalFacts(w, b, cs, limits);
    CreateIs(w, received, b, cs, limits, spent, held, its);
    hide *;
    if !ProposalRefused(w, received, cs, limits) {
      NowProposed(w, b, cs, limits, spent, held, its);
    }
  }

  /** The outcome of a proposal, given the items it would have. */
  function Outcome(w: Wallet, b: BatchId, limits: Limits, spent: nat, held: seq<Item>, its: seq<Item>): Wallet {
    if Total(held) <= limits.maxBatch && spent + Total(held) <= limits.maxDaily
    then Wallet(PostAll(w.ledger, AllReserveEntries(its)), w.batches[b := Batch(BatchReserved, false, None, None)], w.items + its)
    else Wallet(w.ledger, w.batches[b := Batch(BatchHeld, false, None, None)], w.items + held)
  }

  lemma CreateIs(w: Wallet, received: int, b: BatchId, cs: seq<Candidate>, limits: Limits, spent: nat, held: seq<Item>, its: seq<Item>)
    requires held == Chosen(w.ledger, Truncated(cs, limits), limits, b, ItemHeld) && its == Chosen(w.ledger, Truncated(cs, limits), limits, b, ItemReserved)
    requires !AnyNegative(held) && (held == [] <==> !AnySufficient(w.ledger, cs, limits))
    ensures CreateBatch(w, received, b, cs, limits, spent) ==
      if ProposalRefused(w, received, cs, limits) then w else Outcome(w, b, limits, spent, held, its)
  {
    hide Chosen, Sum, Total, AnyNegative, AnySufficient, Truncated, PostAll, AllReserveEntries;
  }

  lemma NowProposed(w: Wallet, b: BatchId, cs: seq<Candidate>, limits: Limits, spent: nat, held: seq<Item>, its: seq<Item>)
    requires ProposedItems(held, w.ledger, cs, limits, b, ItemHeld) && ProposedItems(its, w.ledger, cs, limits, b, ItemReserved)
    requires Reserves(w.ledger, PostAll(w.ledger, AllReserveEntries(its)), its)
    requires Sum(its, AmountsOf()) == Sum(held, AmountsOf()) == Total(held)
    ensures Proposed(w, Outcome(w, b, limits, spent, held, its), b, cs, limits, spent)
  {
    hide Reserves, ProposedItems, PostAll, AllReserveEntries, Sum, Total;
    assert (w.items + its)[|w.items|..] == its && (w.items + held)[|w.items|..] == held;
  }

  lemma ProposalFacts(w: Wallet, b: BatchId, cs: seq<Candidate>, limits: Limits)
    requires Inv(w) && b !in w.batches
    ensures var held, its := Chosen(w.ledger, Truncated(cs, limits), limits, b, ItemHeld), Chosen(w.ledger, Truncated(cs, limits), limits, b, ItemReserved);
      && ProposedItems(held, w.ledger, cs, limits, b, ItemHeld) && ProposedItems(its, w.ledger, cs, limits, b, ItemReserved)
      && (held == [] <==> !AnySufficient(w.ledger, cs, limits)) && !AnyNegative(held)
      && Reserves(w.ledger, PostAll(w.ledger, AllReserveEntries(its)), its)
      && Sum(its, AmountsOf()) == Sum(held, AmountsOf()) == Total(held)
  {
    var cut := Truncated(cs, limits);
    var held, its := Chosen(w.ledger, cut, limits, b, ItemHeld), Chosen(w.ledger, cut, limits, b, ItemReserved);
    Given(w);
    hide Inv, KeysOk, ItemsOk, Chosen, Reserves, PostAll, AllReserveEntries, AnyNegative, Truncated, Sum, Total, AnySufficient, Sufficient;
    ChosenIsProposed(w.ledger, cs, limits, b, ItemHeld);
    ChosenIsProposed(w.ledger, cs, limits, b, ItemReserved);
    NoneIff(held, w.ledger, cs, limits, b, ItemHeld);
    ChosenAlike(w.ledger, cut, limits, b, ItemReserved);
    NoneNegative(w, held);
    NewReservedRows(w, b, its);
    AppendedReserves(w.ledger, its);
    TotalsAgree(its, held);
  }

  // ---------- reserveReleasedBatch ----------

  ghost predicate HasHeld(items: seq<Item>, b: BatchId) {
    exists i | i in items :: i.batch == b && i.state == ItemHeld
  }

  ghost predicate AnyUncovered(w: Wallet, b: BatchId) {
    exists i | i in w.items :: i.batch == b && i.state == ItemHeld && Balance(w.ledger, MinerConfirmed, i.miner) < i.amount
  }

  ghost predicate ReservesHeld(w: Wallet, w': Wallet, b: BatchId) {
    && w'.batches == w.batches && Moved(w.items, w'.items, b, {ItemHeld}, ItemReserved)
    && exists its :: ItemsOf(its, w.items, b, {ItemHeld}) && Reserves(w.ledger, w'.ledger, its)
  }

  lemma HeldSelected(items: seq<Item>, b: BatchId)
    requires OneItemPerMiner(items)
    ensures ItemsOf(Select(items, b, ItemHeld), items, b, {ItemHeld})
    ensures Select(items, b, ItemHeld) == [] <==> !HasHeld(items, b)
  {
    SelectRows(items, b, ItemHeld);
    SelectDistinct(items, b, ItemHeld);
    hide Select, OneItemPerMiner;
    var its := Select(items, b, ItemHeld);
    if its != [] {
      assert its[0] in its;
    }
  }

  /**
   Releasing: only a RESERVED batch with HELD items changes. Without the operator's release it goes back to HELD;
   while the ledger owes more than was received nothing happens; with a balance below its item it goes back to HELD
   and loses its release; otherwise all of it is reserved.
   */
  lemma ReleaseEffect(w: Wallet, received: int, b: BatchId)
    requires Inv(w)
    ensures var w' := ReserveReleased(w, received, b);
      if b !in w.batches || w.batches[b].state != BatchReserved || !HasHeld(w.items, b) then w' == w
      else if !w.batches[b].released then w' == w.(batches := w.batches[b := w.batches[b].(state := BatchHeld)])
      else if Sum(w.ledger, In({MinerConfirmed, MinerPending})) > received then w' == w
      else if AnyUncovered(w, b) then w' == w.(batches := w.batches[b := w.batches[b].(state := BatchHeld, released := false)])
      else ReservesHeld(w, w', b)
  {
    Given(w);
    assert OneItemPerMiner(w.items);
    hide *;
    HeldSelected(w.items, b);
    CoveredIff(w, b);
    ReleaseReserves(w, b);
    ReleaseIs(w, received, b);
  }

  lemma ReleaseIs(w: Wallet, received: int, b: BatchId)
    ensures ReserveReleased(w, received, b) ==
      var held := Select(w.items, b, ItemHeld);
      if b !in w.batches || w.batches[b].state != BatchReserved || held == [] then w
      else if !w.batches[b].released then w.(batches := w.batches[b := w.batches[b].(state := BatchHeld)])
      else if Sum(w.ledger, In({MinerConfirmed, MinerPending})) > received then w
      else if !Covered(w.ledger, held) then w.(batches := w.batches[b := w.batches[b].(state := BatchHeld, released := false)])
      else w.(ledger := PostAll(w.ledger, AllReserveEntries(held)), items := Move(w.items, b, ItemHeld, ItemReserved))
  {
    hide Select, Covered, PostAll, AllReserveEntries, Move, Sum;
  }

  lemma ReleaseReserves(w: Wallet, b: BatchId)
    requires ItemsOk(w) && KeysOk(w)
    ensures ReservesHeld(w, w.(ledger := PostAll(w.ledger, AllReserveEntries(Select(w.items, b, ItemHeld))), items := Move(w.items, b, ItemHeld, ItemReserved)), b)
  {
    assert OneItemPerMiner(w.items);
    hide ItemsOk, KeysOk, Select, Reserves, Moved, ItemsOf, PostAll, AllReserveEntries, Move, OneItemPerMiner;
    HeldSelected(w.items, b);
    ReleaseRows(w, b);
    AppendedReserves(w.ledger, Select(w.items, b, ItemHeld));
    MoveIsMoved(w.items, b, ItemHeld, ItemReserved);
  }

  lemma CoveredIff(w: Wallet, b: BatchId)
    ensures Covered(w.ledger, Select(w.items, b, ItemHeld)) <==> !AnyUncovered(w, b)
  {
    SelectRows(w.items, b, ItemHeld);
    hide Select, Balance;
  }

  // ---------- processBatch ----------

  /** A hash is saved exactly in a RESERVED batch and only if no batch has it; the batch is then BUILT. */
  lemma SaveEffect(w: Wallet, b: BatchId, h: TxHash, fee: Option<nat>)
    ensures SaveBuilt(w, b, h, fee) ==
      if b in w.batches && w.batches[b].state == BatchReserved && forall c | c in w.batches :: w.batches[c].tx != Some(h)
      then w.(batches := w.batches[b := Batch(BatchBuilt, w.batches[b].released, Some(h), fee)]) else w
  {
  }

  /** After the broadcast the batch's RESERVED items and the BUILT batch are BROADCAST. */
  lemma BroadcastEffect(w: Wallet, b: BatchId)
    ensures var w' := MarkBroadcast(w, b);
      && w'.ledger == w.ledger && Moved(w.items, w'.items, b, {ItemReserved}, ItemBroadcast)
      && w'.batches == (if b in w.batches && w.batches[b].state == BatchBuilt then w.batches[b := w.batches[b].(state := BatchBroadcast)] else w.batches)
  {
    MoveIsMoved(w.items, b, ItemReserved, ItemBroadcast);
    hide Move, Moved;
  }

  // ---------- confirmBatch ----------

  /** Signed and perhaps sent, with its hash, but not confirmed. */
  ghost predicate Open(w: Wallet, b: BatchId) {
    b in w.batches && (w.batches[b].state == BatchBuilt || w.batches[b].state == BatchBroadcast) && w.batches[b].tx.Some?
  }

  /** 'pending': an open batch and its RESERVED items are BROADCAST, whichever they were. */
  lemma SeenEffect(w: Wallet, b: BatchId)
    ensures !Open(w, b) ==> MarkSeen(w, b) == w
    ensures Open(w, b) ==>
      && MarkSeen(w, b).ledger == w.ledger && Moved(w.items, MarkSeen(w, b).items, b, {ItemReserved}, ItemBroadcast)
      && MarkSeen(w, b).batches == w.batches[b := w.batches[b].(state := BatchBroadcast)]
  {
    MoveIsMoved(w.items, b, ItemReserved, ItemBroadcast);
    hide Move, Moved;
  }

  /** What a batch's confirmation with a known fee does. */
  ghost predicate Confirmed(w: Wallet, w': Wallet, b: BatchId, fee: nat)
    requires b in w.batches
  {
    && w'.batches == w.batches[b := w.batches[b].(state := BatchConfirmed, fee := Some(fee))]
    && Moved(w.items, w'.items, b, ANY_STATE, ItemConfirmed)
    && exists its :: ItemsOf(its, w.items, b, ANY_STATE) && Pays(w.ledger, w'.ledger, its, b, fee)
  }

  /**
   'committed': an open batch becomes CONFIRMED with all its items, each paid in full, and the network fee is booked:
   the derived one or, failing that, the saved one. Without either, and for any other batch, nothing changes.
   */
  lemma CommitEffect(w: Wallet, b: BatchId, derived: Option<nat>)
    requires Inv(w)
    ensures !Open(w, b) ==> CommitConfirmed(w, b, derived) == w
    ensures Open(w, b) ==>
      match (derived, w.batches[b].fee)
      case (Some(fee), _) => Confirmed(w, CommitConfirmed(w, b, derived), b, fee)
      case (None, Some(fee)) => Confirmed(w, CommitConfirmed(w, b, derived), b, fee)
      case (None, None) => CommitConfirmed(w, b, derived) == w
  {
    if Open(w, b) && FinalFee(w.batches[b], derived).Some? {
      ConfirmedWith(w, b, derived, FinalFee(w.batches[b], derived).value);
    }
    hide Inv, Confirmed, PostAll, AllPaidEntries, ConfirmItems, OfBatch;
  }

  lemma ConfirmedWith(w: Wallet, b: BatchId, derived: Option<nat>, fee: nat)
    requires Inv(w) && Unresolved(w, b) && FinalFee(w.batches[b], derived) == Some(fee)
    ensures Confirmed(w, CommitConfirmed(w, b, derived), b, fee)
  {
    var its := OfBatch(w.items, b);
    Given(w);
    assert b in w.batches;
    CommitIs(w, b, derived, fee);
    hide *;
    PaidFacts(w, b);
    BatchItems(w.items, b);
    PaidAppends(w.ledger, its, b, fee);
    AppendedPays(w.ledger, its, b, fee);
    ConfirmIsMoved(w.items, b);
    FeeRow(b, fee);
    NowConfirmed(w, CommitConfirmed(w, b, derived), b, fee, its);
  }

  lemma FeeRow(b: BatchId, fee: nat)
    ensures FeeEntry(b, fee) == Entry(TxFee, None, fee, BatchFee(b))
  {
  }

  lemma CommitIs(w: Wallet, b: BatchId, derived: Option<nat>, fee: nat)
    requires Unresolved(w, b) && FinalFee(w.batches[b], derived) == Some(fee)
    ensures CommitConfirmed(w, b, derived) ==
      Wallet(PostAll(w.ledger, AllPaidEntries(OfBatch(w.items, b)) + [Entry(TxFee, None, fee, BatchFee(b))]),
             w.batches[b := w.batches[b].(state := BatchConfirmed, fee := Some(fee))], ConfirmItems(w.items, b))
  {
    hide PostAll, AllPaidEntries, OfBatch, ConfirmItems;
  }

  lemma NowConfirmed(w: Wallet, w': Wallet, b: BatchId, fee: nat, its: seq<Item>)
    requires b in w.batches && w'.batches == w.batches[b := w.batches[b].(state := BatchConfirmed, fee := Some(fee))]
    requires Moved(w.items, w'.items, b, ANY_STATE, ItemConfirmed) && ItemsOf(its, w.items, b, ANY_STATE) && Pays(w.ledger, w'.ledger, its, b, fee)
    ensures Confirmed(w, w', b, fee)
  {
    hide Moved, ItemsOf, Pays;
  }

  lemma BatchItems(items: seq<Item>, b: BatchId)
    requires OneItemPerMiner(OfBatch(items, b))
    ensures ItemsOf(OfBatch(items, b), items, b, ANY_STATE)
  {
    OfBatchRows(items, b);
    hide OfBatch, OneItemPerMiner;
    forall i: Item ensures i.state in ANY_STATE {
      AnyState(i.state);
    }
  }

  // ---------- forfeitUnpayable ----------

  /** The largest id among the miner's CONFIRMED rows; 0 when there is none. */
  ghost predicate LargestId(l: seq<Entry>, m: Miner, rowId: nat -> nat, id: nat) {
    && (forall k | 0 <= k < |l| && l[k].account == MinerConfirmed && l[k].miner == Some(m) :: rowId(k) <= id)
    && (id == 0 || exists k | 0 <= k < |l| :: l[k].account == MinerConfirmed && l[k].miner == Some(m) && rowId(k) == id)
  }

  lemma {:induction false} LastSeenIsLargest(l: seq<Entry>, m: Miner, rowId: nat -> nat)
    ensures LargestId(l, m, rowId, LastSeen(l, m, rowId))
  {
    if l != [] {
      var n := |l| - 1;
      LastSeenIsLargest(l[..n], m, rowId);
      var before := LastSeen(l[..n], m, rowId);
      if before != 0 {
        var k :| 0 <= k < n && l[..n][k].account == MinerConfirmed && l[..n][k].miner == Some(m) && rowId(k) == before;
        assert l[k] == l[..n][k];
      }
      assert forall k | 0 <= k < n :: l[k] == l[..n][k];
    }
  }

  /** A positive CONFIRMED balance goes to the pool's fee account, unless a forfeiture with the same key was posted before. */
  lemma ForfeitEffect(w: Wallet, m: Miner, rowId: nat -> nat, id: nat)
    requires Inv(w) && LargestId(w.ledger, m, rowId, id)
    ensures var w', balance := ForfeitOne(w, m, rowId), Balance(w.ledger, MinerConfirmed, m);
      if balance > 0 && !Posted(w.ledger, Forfeit(m, id)) then
        && w' == w.(ledger := w.ledger + [Entry(MinerConfirmed, Some(m), -balance, Forfeit(m, id)), Entry(PoolFee, None, balance, ForfeitFee(m, id))])
        && Balance(w'.ledger, MinerConfirmed, m) == 0
      else w' == w
  {
    LastSeenIsLargest(w.ledger, m, rowId);
    assert LastSeen(w.ledger, m, rowId) == id;
    var balance := Balance(w.ledger, MinerConfirmed, m);
    Given(w);
    if balance > 0 && !Posted(w.ledger, Forfeit(m, id)) {
      hide Inv, ItemsOk, KeysOk, LastSeen, PostAll, LargestId;
      ForfeitKeysOk(w, m, balance, id);
      NothingLeft(w.ledger, m, balance, id);
    }
  }

  lemma NothingLeft(l: seq<Entry>, m: Miner, balance: int, id: nat)
    requires Balance(l, MinerConfirmed, m) == balance
    ensures Balance(l + ForfeitEntries(m, balance, id), MinerConfirmed, m) == 0
  {
    var es := ForfeitEntries(m, balance, id);
    SumAppend(l, es, Of(MinerConfirmed, m));
    assert es == ([] + [es[0]]) + [es[1]];
    SumSnoc([] + [es[0]], es[1], Of(MinerConfirmed, m));
    SumSnoc([], es[0], Of(MinerConfirmed, m));
  }

  // ---------- approval ----------

  ghost predicate Approved(w: Wallet, w': Wallet, b: BatchId) {
    && w'.ledger == w.ledger && w'.items == w.items && w'.batches.Keys == w.batches.Keys
    && forall c | c in w.batches :: w'.batches[c] ==
         if c == b && w.batches[c].state == BatchHeld then w.batches[c].(state := BatchReserved, released := true) else w.batches[c]
  }

  /**
   Approval releases exactly the HELD batch it names. Its next turn then reserves every one of its items, unless the
   pool is insolvent, which leaves it for a later turn, or a balance no longer suffices, which parks it again.
   */
  lemma ApproveEffect(w: Wallet, received: int, b: BatchId)
    requires Inv(w)
    ensures Approved(w, Approve(w, b), b)
    ensures b in w.batches && w.batches[b].state == BatchHeld && HasHeld(w.items, b) ==>
      var a := Approve(w, b);
      var w' := ReserveReleased(a, received, b);
      if Sum(w.ledger, In({MinerConfirmed, MinerPending})) > received then w' == a
      else if AnyUncovered(w, b) then w' == w.(batches := w.batches[b := w.batches[b].(released := false)])
      else ReservesHeld(a, w', b)
  {
    ApproveKeepsInv(w, b);
    hide Inv, ReserveReleased, HasHeld, AnyUncovered, ReservesHeld;
    ReleaseEffect(Approve(w, b), received, b);
    if b in w.batches && w.batches[b].state == BatchHeld && HasHeld(w.items, b) {
      SameUncovered(w, Approve(w, b), b);
      assert Approve(w, b).batches[b := w.batches[b].(released := false)] == w.batches[b := w.batches[b].(released := false)];
    }
  }

  lemma SameUncovered(w: Wallet, a: Wallet, b: BatchId)
    requires a.ledger == w.ledger && a.items == w.items
    ensures AnyUncovered(a, b) <==> AnyUncovered(w, b)
  {
  }
}
