/**
 What one payout sweep achieves, phase by phase and in terms of the tables alone: every open batch is settled as the
 node answered, dormant balances are forfeited, released batches are reserved and sent, and only then something new
 is proposed.
 */
module SweepPhases {
  import opened Wrappers
  import opened Sums
  import opened Ledger
  import opened Payouts
  import opened PayoutInvariant
  import opened PayoutSteps
  import opened PayoutSweeps
  import opened PayoutEffects

  // ---------- what stays ----------

  /** Every row of the item table still stands where it was, but for its state; new rows come after. */
  ghost predicate SameRows(items: seq<Item>, items': seq<Item>) {
    |items| <= |items'| && forall k | 0 <= k < |items| :: items'[k].(state := items[k].state) == items[k]
  }

  /** The rows of a batch are the same. */
  ghost predicate SameItems(items: seq<Item>, items': seq<Item>, b: BatchId) {
    && |items| <= |items'|
    && (forall k | 0 <= k < |items| && items[k].batch == b :: items'[k] == items[k])
    && (forall k | |items| <= k < |items'| :: items'[k].batch != b)
  }

  ghost predicate Untouched(w: Wallet, w': Wallet, b: BatchId) {
    b in w.batches && b in w'.batches && w'.batches[b] == w.batches[b] && SameItems(w.items, w'.items, b)
  }

  /** The ledger has only grown, rows are where they were, and no batch but the given ones was touched. */
  ghost predicate Frame(w: Wallet, w': Wallet, touched: set<BatchId>) {
    && w.ledger <= w'.ledger && SameRows(w.items, w'.items)
    && forall b | b in w.batches && b !in touched :: Untouched(w, w', b)
  }

  lemma FrameTrans(w: Wallet, v: Wallet, u: Wallet, a: set<BatchId>, b: set<BatchId>)
    requires Frame(w, v, a) && Frame(v, u, b)
    ensures Frame(w, u, a + b)
  {
    forall c | c in w.batches && c !in a + b ensures Untouched(w, u, c) {
      assert Untouched(w, v, c) && Untouched(v, u, c);
    }
    forall k | 0 <= k < |w.items| ensures u.items[k].(state := w.items[k].state) == w.items[k] {
      assert v.items[k].(state := w.items[k].state) == w.items[k] && u.items[k].(state := v.items[k].state) == v.items[k];
    }
  }

  lemma FrameSelf(w: Wallet)
    ensures Frame(w, w, {})
  {
  }

  /** Of a batch's rows, those in the given states have moved. */
  ghost predicate MovedOf(items: seq<Item>, items': seq<Item>, b: BatchId, from: set<ItemState>, to: ItemState) {
    && |items| <= |items'|
    && (forall k | 0 <= k < |items| && items[k].batch == b :: items'[k] == if items[k].state in from then items[k].(state := to) else items[k])
    && (forall k | |items| <= k < |items'| :: items'[k].batch != b)
  }

  lemma MovedStays(items: seq<Item>, items': seq<Item>, items'': seq<Item>, b: BatchId, from: set<ItemState>, to: ItemState)
    requires MovedOf(items, items', b, from, to) && SameItems(items', items'', b) && SameRows(items', items'')
    ensures MovedOf(items, items'', b, from, to)
  {
  }

  lemma MovedFrame(w: Wallet, w': Wallet, b: BatchId, from: set<ItemState>, to: ItemState)
    requires Moved(w.items, w'.items, b, from, to) && w.ledger <= w'.ledger
    requires forall c | c in w.batches && c != b :: c in w'.batches && w'.batches[c] == w.batches[c]
    ensures Frame(w, w', {b}) && MovedOf(w.items, w'.items, b, from, to)
  {
    forall k | 0 <= k < |w.items| ensures w'.items[k].(state := w.items[k].state) == w.items[k] {
    }
    forall c | c in w.batches && c != b ensures Untouched(w, w', c) {
    }
  }

  lemma SameItemsFrame(w: Wallet, w': Wallet, b: BatchId)
    requires w'.items == w.items && w.ledger <= w'.ledger
    requires forall c | c in w.batches && c != b :: c in w'.batches && w'.batches[c] == w.batches[c]
    ensures Frame(w, w', {b}) && SameItems(w.items, w'.items, b)
  {
  }

  // ---------- recovery ----------

  ghost predicate PaymentsPosted(items: seq<Item>, l: seq<Entry>, b: BatchId, fee: nat) {
    && (forall i, e | i in items && i.batch == b && PaymentRow(e, i) :: e in l)
    && Entry(TxFee, None, fee, BatchFee(b)) in l
  }

  /** The fee to book: the derived one or, failing that, the saved one. */
  ghost predicate FeeIs(batch: Batch, node: NodeAnswer, fee: nat) {
    node.fee == Some(fee) || (node.fee.None? && batch.fee == Some(fee))
  }

  ghost predicate ConfirmedBy(w: Wallet, w': Wallet, b: BatchId, fee: nat)
    requires b in w.batches
  {
    && b in w'.batches && w'.batches[b] == w.batches[b].(state := BatchConfirmed, fee := Some(fee))
    && MovedOf(w.items, w'.items, b, ANY_STATE, ItemConfirmed) && PaymentsPosted(w.items, w'.ledger, b, fee)
  }

  /** An open batch once the node has been asked: unchanged, BROADCAST, or CONFIRMED with its payments and fee booked. */
  ghost predicate Answered(w: Wallet, w': Wallet, b: BatchId, node: NodeAnswer)
    requires b in w.batches
  {
    match node.status
    case Unknown => Untouched(w, w', b)
    case InPool =>
      b in w'.batches && w'.batches[b] == w.batches[b].(state := BatchBroadcast) && MovedOf(w.items, w'.items, b, {ItemReserved}, ItemBroadcast)
    case Committed => exists fee :: FeeIs(w.batches[b], node, fee) && ConfirmedBy(w, w', b, fee)
  }

  lemma AnsweredStays(w: Wallet, v: Wallet, u: Wallet, b: BatchId, node: NodeAnswer)
    requires b in w.batches && Answered(w, v, b, node) && b in v.batches && Untouched(v, u, b) && v.ledger <= u.ledger && SameRows(v.items, u.items)
    ensures Answered(w, u, b, node)
  {
    hide ANY_STATE, PaymentRow;
    match node.status
    case Unknown =>
    case InPool => MovedStays(w.items, v.items, u.items, b, {ItemReserved}, ItemBroadcast);
    case Committed =>
      var fee :| FeeIs(w.batches[b], node, fee) && ConfirmedBy(w, v, b, fee);
      MovedStays(w.items, v.items, u.items, b, ANY_STATE, ItemConfirmed);
      assert ConfirmedBy(w, u, b, fee);
  }

  lemma ConfirmAnswers(w: Wallet, b: BatchId, node: NodeAnswer)
    requires Inv(w) && Open(w, b) && (node.status == Committed ==> exists fee :: FeeIs(w.batches[b], node, fee))
    ensures var o := Confirm(w, b, node);
      !o.failed && Frame(w, o.tables, {b}) && Answered(w, o.tables, b, node)
  {
    hide Inv, PaymentRow;
    match node.status
    case Unknown => FrameSelf(w);
    case InPool =>
      SeenEffect(w, b);
      hide MarkSeen;
      MovedFrame(w, MarkSeen(w, b), b, {ItemReserved}, ItemBroadcast);
    case Committed =>
      var fee :| FeeIs(w.batches[b], node, fee);
      CommitEffect(w, b, node.fee);
      hide CommitConfirmed;
      CommittedAnswers(w, CommitConfirmed(w, b, node.fee), b, node, fee);
  }

  lemma CommittedAnswers(w: Wallet, w': Wallet, b: BatchId, node: NodeAnswer, fee: nat)
    requires b in w.batches && Confirmed(w, w', b, fee) && FeeIs(w.batches[b], node, fee) && node.status == Committed
    ensures Frame(w, w', {b}) && Answered(w, w', b, node)
  {
    var its :| ItemsOf(its, w.items, b, ANY_STATE) && Pays(w.ledger, w'.ledger, its, b, fee);
    hide OneItemPerMiner, Moved, PaymentRow;
    MovedFrame(w, w', b, ANY_STATE, ItemConfirmed);
    forall i, e | i in w.items && i.batch == b && PaymentRow(e, i) ensures e in w'.ledger {
      AnyState(i.state);
      assert i in its;
    }
    assert ConfirmedBy(w, w', b, fee);
    hide Frame, MovedOf;
  }

  ghost predicate Distinct<T>(s: seq<T>) {
    forall i, j | 0 <= i < j < |s| :: s[i] != s[j]
  }

  function Members(rows: seq<BatchId>): set<BatchId> {
    set b | b in rows
  }

  /** No confirmation throws: a fee is known wherever one is needed. */
  ghost predicate FeesKnown(w: Wallet, nodes: BatchId -> NodeAnswer) {
    forall b | Open(w, b) && nodes(b).status == Committed :: exists fee :: FeeIs(w.batches[b], nodes(b), fee)
  }

  lemma OpenStays(w: Wallet, w': Wallet, b: BatchId)
    requires Open(w, b) && Untouched(w, w', b)
    ensures Open(w', b)
  {
  }

  lemma AnsweredAlike(w: Wallet, v: Wallet, u: Wallet, b: BatchId, node: NodeAnswer)
    requires Untouched(w, v, b) && Answered(v, u, b, node) && SameRows(w.items, v.items) && SameRows(v.items, u.items)
    ensures Answered(w, u, b, node)
  {
    hide ANY_STATE, PaymentRow;
    match node.status
    case Unknown =>
    case InPool => MovedAlike(w.items, v.items, u.items, b, {ItemReserved}, ItemBroadcast);
    case Committed =>
      var fee :| FeeIs(v.batches[b], node, fee) && ConfirmedBy(v, u, b, fee);
      MovedAlike(w.items, v.items, u.items, b, ANY_STATE, ItemConfirmed);
      forall i, e | i in w.items && i.batch == b && PaymentRow(e, i) ensures e in u.ledger {
        var k :| 0 <= k < |w.items| && w.items[k] == i;
        assert v.items[k] == i && i in v.items;
      }
      assert ConfirmedBy(w, u, b, fee);
  }

  lemma MovedAlike(items: seq<Item>, items': seq<Item>, items'': seq<Item>, b: BatchId, from: set<ItemState>, to: ItemState)
    requires SameItems(items, items', b) && MovedOf(items', items'', b, from, to) && SameRows(items', items'')
    ensures MovedOf(items, items'', b, from, to)
  {
  }

  ghost predicate AllAnswered(w: Wallet, w': Wallet, rows: seq<BatchId>, nodes: BatchId -> NodeAnswer)
    requires forall b | b in rows :: b in w.batches
  {
    forall b | b in rows :: Answered(w, w', b, nodes(b))
  }

  /** Confirming different open batches one after the other answers each of them, throws nothing, and touches no other. */
  lemma {:induction false} RecoverAnswers(w: Wallet, rows: seq<BatchId>, nodes: BatchId -> NodeAnswer)
    requires Inv(w) && Distinct(rows) && FeesKnown(w, nodes) && forall b | b in rows :: Open(w, b)
    ensures !Recover(w, rows, nodes).failed && Frame(w, Recover(w, rows, nodes).tables, Members(rows))
    ensures AllAnswered(w, Recover(w, rows, nodes).tables, rows, nodes)
  {
    hide Inv, Frame, Answered, Confirm;
    if rows == [] {
      FrameSelf(w);
      assert Members(rows) == {};
    } else {
      var n := |rows| - 1;
      var b, v := rows[n], Recover(w, rows[..n], nodes).tables;
      assert forall c | c in rows[..n] :: c in rows;
      RecoverAnswers(w, rows[..n], nodes);
      RecoverKeepsInv(w, rows[..n], nodes);
      assert b !in Members(rows[..n]);
      RecoverOne(w, v, rows[..n], b, nodes);
      assert Members(rows) == Members(rows[..n]) + {b};
      assert rows == rows[..n] + [b];
    }
  }

  lemma FrameGives(w: Wallet, v: Wallet, touched: set<BatchId>, b: BatchId)
    requires Frame(w, v, touched) && b in w.batches && b !in touched
    ensures Untouched(w, v, b) && SameRows(w.items, v.items) && w.ledger <= v.ledger
  {
  }

  lemma RecoverOne(w: Wallet, v: Wallet, rows: seq<BatchId>, b: BatchId, nodes: BatchId -> NodeAnswer)
    requires Inv(v) && FeesKnown(w, nodes) && Open(w, b) && b !in rows && forall c | c in rows :: c in w.batches
    requires Frame(w, v, Members(rows)) && AllAnswered(w, v, rows, nodes)
    ensures var o := Confirm(v, b, nodes(b));
      !o.failed && Frame(w, o.tables, Members(rows) + {b}) && AllAnswered(w, o.tables, rows + [b], nodes)
  {
    FrameGives(w, v, Members(rows), b);
    OpenStays(w, v, b);
    assert nodes(b).status == Committed ==> exists fee :: FeeIs(v.batches[b], nodes(b), fee);
    hide Inv, FeesKnown, Untouched, Confirm;
    ConfirmAnswers(v, b, nodes(b));
    var u := Confirm(v, b, nodes(b)).tables;
    FrameTrans(w, v, u, Members(rows), {b});
    assert SameRows(v.items, u.items) && v.ledger <= u.ledger;
    AnsweredAlike(w, v, u, b, nodes(b));
    forall c | c in rows ensures Answered(w, u, c, nodes(c)) {
      assert Answered(w, v, c, nodes(c));
      AnsweredKnown(w, v, c, nodes(c));
      FrameGives(v, u, {b}, c);
      AnsweredStays(w, v, u, c, nodes(c));
    }
    hide Answered, Frame;
  }

  lemma AnsweredKnown(w: Wallet, v: Wallet, b: BatchId, node: NodeAnswer)
    requires b in w.batches && Answered(w, v, b, node)
    ensures b in v.batches
  {
  }

  // ---------- forfeitures ----------

  /** What has become of a miner's CONFIRMED balance: with a new key and something to forfeit it is the pool's now. */
  ghost predicate Forfeited(l: seq<Entry>, l': seq<Entry>, m: Miner, rowId: nat -> nat) {
    forall id | LargestId(l, m, rowId, id) ::
      var balance := Balance(l, MinerConfirmed, m);
      if balance > 0 && !Posted(l, Forfeit(m, id)) then
        && Balance(l', MinerConfirmed, m) == 0
        && Entry(MinerConfirmed, Some(m), -balance, Forfeit(m, id)) in l' && Entry(PoolFee, None, balance, ForfeitFee(m, id)) in l'
      else Balance(l', MinerConfirmed, m) == balance
  }

  ghost predicate AllForfeited(l: seq<Entry>, l': seq<Entry>, ms: seq<Miner>, rowId: nat -> nat) {
    && l <= l'
    && (forall m | m in ms :: Forfeited(l, l', m, rowId))
    && (forall m | m !in ms :: Balance(l', MinerConfirmed, m) == Balance(l, MinerConfirmed, m))
  }

  /** No row has been added to the miner's CONFIRMED account. */
  ghost predicate Quiet(l: seq<Entry>, l': seq<Entry>, m: Miner) {
    l <= l' && forall k | |l| <= k < |l'| ::
      !(l'[k].account == MinerConfirmed && l'[k].miner == Some(m)) && !(l'[k].key.Forfeit? && l'[k].key.miner == m)
  }

  lemma {:induction false} QuietBalance(l: seq<Entry>, l': seq<Entry>, m: Miner)
    requires Quiet(l, l', m)
    ensures Balance(l', MinerConfirmed, m) == Balance(l, MinerConfirmed, m)
  {
    if |l| == |l'| {
      assert l == l';
    } else {
      QuietBalance(l, l'[..|l'| - 1], m);
    }
  }

  lemma QuietKey(l: seq<Entry>, l': seq<Entry>, m: Miner, rowId: nat -> nat, id: nat)
    requires Quiet(l, l', m) && LargestId(l, m, rowId, id)
    ensures LargestId(l', m, rowId, id) && (Posted(l', Forfeit(m, id)) <==> Posted(l, Forfeit(m, id)))
  {
    if e :| e in l && e.key == Forfeit(m, id) {
      assert e in l';
    }
    if e :| e in l' && e.key == Forfeit(m, id) {
      var k :| 0 <= k < |l'| && l'[k] == e;
      assert k < |l| && l[k] == e;
    }
  }

  lemma LargestUnique(l: seq<Entry>, m: Miner, rowId: nat -> nat, a: nat, b: nat)
    requires LargestId(l, m, rowId, a) && LargestId(l, m, rowId, b)
    ensures a == b
  {
  }

  ghost predicate TakenAway(l: seq<Entry>, l': seq<Entry>, m: Miner, id: nat) {
    var balance := Balance(l, MinerConfirmed, m);
    && balance > 0 && !Posted(l, Forfeit(m, id)) && Balance(l', MinerConfirmed, m) == 0
    && Entry(MinerConfirmed, Some(m), -balance, Forfeit(m, id)) in l' && Entry(PoolFee, None, balance, ForfeitFee(m, id)) in l'
  }

  ghost predicate Kept(l: seq<Entry>, l': seq<Entry>, m: Miner, id: nat) {
    Quiet(l, l', m) && (Balance(l, MinerConfirmed, m) <= 0 || Posted(l, Forfeit(m, id)))
  }

  ghost predicate ForfeitProgress(l: seq<Entry>, l': seq<Entry>, ms: seq<Miner>, rowId: nat -> nat) {
    && l <= l'
    && (forall m | m !in ms :: Quiet(l, l', m))
    && (forall m | m in ms :: TakenAway(l, l', m, LastSeen(l, m, rowId)) || Kept(l, l', m, LastSeen(l, m, rowId)))
  }

  lemma {:induction false} ForfeitAllProgress(w: Wallet, ms: seq<Miner>, rowId: nat -> nat)
    requires Inv(w)
    ensures var w' := ForfeitAll(w, ms, rowId);
      w'.batches == w.batches && w'.items == w.items && ForfeitProgress(w.ledger, w'.ledger, ms, rowId)
  {
    hide Inv, ForfeitOne, ForfeitProgress;
    if ms == [] {
      NoForfeits(w.ledger, rowId);
    } else {
      var n := |ms| - 1;
      ForfeitAllProgress(w, ms[..n], rowId);
      ForfeitAllKeepsInv(w, ms[..n], rowId);
      ForfeitNext(w.ledger, ForfeitAll(w, ms[..n], rowId), ms[..n], ms[n], rowId);
      assert ms == ms[..n] + [ms[n]];
    }
  }

  lemma NoForfeits(l: seq<Entry>, rowId: nat -> nat)
    ensures ForfeitProgress(l, l, [], rowId)
  {
  }

  /** The two rows of one forfeiture. */
  ghost function ForfeitRows(m: Miner, balance: int, id: nat): seq<Entry> {
    [Entry(MinerConfirmed, Some(m), -balance, Forfeit(m, id)), Entry(PoolFee, None, balance, ForfeitFee(m, id))]
  }

  lemma ForfeitOneIs(v: Wallet, m: Miner, rowId: nat -> nat, id: nat, balance: int)
    requires Inv(v) && id == LastSeen(v.ledger, m, rowId) && balance == Balance(v.ledger, MinerConfirmed, m)
    ensures var u := ForfeitOne(v, m, rowId);
      && u.batches == v.batches && u.items == v.items
      && (if balance > 0 && !Posted(v.ledger, Forfeit(m, id))
          then u.ledger == v.ledger + ForfeitRows(m, balance, id) && Balance(u.ledger, MinerConfirmed, m) == 0
          else u.ledger == v.ledger)
  {
    LastSeenIsLargest(v.ledger, m, rowId);
    hide Inv, LastSeen, LargestId, Balance, Posted, ForfeitOne;
    ForfeitEffect(v, m, rowId, id);
  }

  lemma ForfeitNext(l: seq<Entry>, v: Wallet, ms: seq<Miner>, m: Miner, rowId: nat -> nat)
    requires Inv(v) && ForfeitProgress(l, v.ledger, ms, rowId)
    ensures var u := ForfeitOne(v, m, rowId);
      u.batches == v.batches && u.items == v.items && ForfeitProgress(l, u.ledger, ms + [m], rowId)
  {
    hide *;
    var id, balance := LastSeen(v.ledger, m, rowId), Balance(v.ledger, MinerConfirmed, m);
    ForfeitOneIs(v, m, rowId, id, balance);
    if balance > 0 && !Posted(v.ledger, Forfeit(m, id)) {
      ForfeitTakes(l, v.ledger, ms, m, rowId, balance, id);
    } else {
      ForfeitSkips(l, v.ledger, ms, m, rowId);
    }
  }

  lemma ForfeitSkips(l: seq<Entry>, l': seq<Entry>, ms: seq<Miner>, m: Miner, rowId: nat -> nat)
    requires ForfeitProgress(l, l', ms, rowId)
    requires Balance(l', MinerConfirmed, m) <= 0 || Posted(l', Forfeit(m, LastSeen(l', m, rowId)))
    ensures ForfeitProgress(l, l', ms + [m], rowId)
  {
    hide LastSeen, Balance, Posted, Quiet, TakenAway, Kept;
    if m !in ms {
      ForfeitRefused(l, l', m, rowId);
    }
  }

  lemma ForfeitTakes(l: seq<Entry>, l': seq<Entry>, ms: seq<Miner>, m: Miner, rowId: nat -> nat, balance: int, id: nat)
    requires ForfeitProgress(l, l', ms, rowId) && id == LastSeen(l', m, rowId)
    requires balance == Balance(l', MinerConfirmed, m) && balance > 0 && !Posted(l', Forfeit(m, id))
    requires Balance(l' + ForfeitRows(m, balance, id), MinerConfirmed, m) == 0
    ensures ForfeitProgress(l, l' + ForfeitRows(m, balance, id), ms + [m], rowId)
  {
    hide *;
    var l'' := l' + ForfeitRows(m, balance, id);
    OwnForfeit(l, l', ms, m, rowId);
    OnlyOwnRows(l', m, balance, id);
    IsTakenAway(l, l', m, balance, id);
    ForfeitOthers(l, l', l'', ms, m, rowId);
  }

  lemma OnlyOwnRows(l: seq<Entry>, m: Miner, balance: int, id: nat)
    ensures forall n | n != m :: Quiet(l, l + ForfeitRows(m, balance, id), n)
  {
    hide Balance, Posted, LastSeen;
  }

  lemma IsTakenAway(l: seq<Entry>, l': seq<Entry>, m: Miner, balance: int, id: nat)
    requires Balance(l, MinerConfirmed, m) == balance > 0 && !Posted(l, Forfeit(m, id))
    requires Balance(l' + ForfeitRows(m, balance, id), MinerConfirmed, m) == 0
    ensures TakenAway(l, l' + ForfeitRows(m, balance, id), m, id)
  {
    hide Balance, Posted, LastSeen;
    var l'' := l' + ForfeitRows(m, balance, id);
    assert l''[|l'|] in l'' && l''[|l'| + 1] in l'';
  }

  lemma ForfeitRefused(l: seq<Entry>, l': seq<Entry>, m: Miner, rowId: nat -> nat)
    requires Quiet(l, l', m) && (Balance(l', MinerConfirmed, m) <= 0 || Posted(l', Forfeit(m, LastSeen(l', m, rowId))))
    ensures Kept(l, l', m, LastSeen(l, m, rowId))
  {
    SameLargest(l, l', m, rowId);
    QuietBalance(l, l', m);
  }

  lemma SameLargest(l: seq<Entry>, l': seq<Entry>, m: Miner, rowId: nat -> nat)
    requires Quiet(l, l', m)
    ensures LastSeen(l', m, rowId) == LastSeen(l, m, rowId)
    ensures Posted(l', Forfeit(m, LastSeen(l, m, rowId))) <==> Posted(l, Forfeit(m, LastSeen(l, m, rowId)))
  {
    LastSeenIsLargest(l, m, rowId);
    LastSeenIsLargest(l', m, rowId);
    hide LastSeen;
    QuietKey(l, l', m, rowId, LastSeen(l, m, rowId));
    LargestUnique(l', m, rowId, LastSeen(l, m, rowId), LastSeen(l', m, rowId));
  }

  /** A miner who can be forfeited now was not forfeited before. */
  lemma OwnForfeit(l: seq<Entry>, l': seq<Entry>, ms: seq<Miner>, m: Miner, rowId: nat -> nat)
    requires ForfeitProgress(l, l', ms, rowId)
    requires Balance(l', MinerConfirmed, m) > 0 && !Posted(l', Forfeit(m, LastSeen(l', m, rowId)))
    ensures m !in ms && LastSeen(l, m, rowId) == LastSeen(l', m, rowId)
    ensures Balance(l, MinerConfirmed, m) == Balance(l', MinerConfirmed, m) && !Posted(l, Forfeit(m, LastSeen(l', m, rowId)))
  {
    hide LastSeen, Balance, Posted;
    if m !in ms || Quiet(l, l', m) {
      SameLargest(l, l', m, rowId);
      QuietBalance(l, l', m);
    }
  }

  lemma QuietTrans(l: seq<Entry>, l': seq<Entry>, l'': seq<Entry>, m: Miner)
    requires Quiet(l, l', m) && Quiet(l', l'', m)
    ensures Quiet(l, l'', m)
  {
  }

  lemma ForfeitOthers(l: seq<Entry>, l': seq<Entry>, l'': seq<Entry>, ms: seq<Miner>, m: Miner, rowId: nat -> nat)
    requires ForfeitProgress(l, l', ms, rowId) && l' <= l'' && m !in ms && TakenAway(l, l'', m, LastSeen(l, m, rowId))
    requires forall n | n != m :: Quiet(l', l'', n)
    ensures ForfeitProgress(l, l'', ms + [m], rowId)
  {
    hide LastSeen, Balance, Posted, Quiet;
    assert l <= l'';
    forall n | n !in ms + [m] ensures Quiet(l, l'', n) {
      assert n !in ms && n != m;
      QuietTrans(l, l', l'', n);
    }
    forall n | n in ms ensures TakenAway(l, l'', n, LastSeen(l, n, rowId)) || Kept(l, l'', n, LastSeen(l, n, rowId)) {
      assert Quiet(l', l'', n);
      QuietBalance(l', l'', n);
      if Kept(l, l', n, LastSeen(l, n, rowId)) {
        QuietTrans(l, l', l'', n);
      }
    }
  }

  lemma ForfeitAllEffect(w: Wallet, ms: seq<Miner>, rowId: nat -> nat)
    requires Inv(w)
    ensures var w' := ForfeitAll(w, ms, rowId);
      w'.batches == w.batches && w'.items == w.items && AllForfeited(w.ledger, w'.ledger, ms, rowId)
  {
    ForfeitAllProgress(w, ms, rowId);
    var l, l' := w.ledger, ForfeitAll(w, ms, rowId).ledger;
    hide Inv, ForfeitAll, LastSeen, Balance, Posted, Quiet, LargestId;
    forall m | m !in ms ensures Balance(l', MinerConfirmed, m) == Balance(l, MinerConfirmed, m) {
      QuietBalance(l, l', m);
    }
    forall m | m in ms ensures Forfeited(l, l', m, rowId) {
      var id := LastSeen(l, m, rowId);
      LastSeenIsLargest(l, m, rowId);
      if Kept(l, l', m, id) {
        QuietBalance(l, l', m);
      }
      forall other | LargestId(l, m, rowId, other) ensures other == id {
        LargestUnique(l, m, rowId, other, id);
      }
    }
  }

  // ---------- released batches ----------

  ghost predicate ReservationsPosted(items: seq<Item>, l: seq<Entry>, b: BatchId) {
    forall i, e | i in items && i.batch == b && ReserveRow(e, i) :: e in l
  }

  /** Signed under this hash, broadcast, and so are all its items. */
  ghost predicate Sent(s: Wallet, s': Wallet, b: BatchId, build: BuildAnswer)
    requires b in s.batches
  {
    && b in s'.batches && s'.batches[b] == Batch(BatchBroadcast, s.batches[b].released, Some(build.hash), build.fee)
    && MovedOf(s.items, s'.items, b, {ItemHeld, ItemReserved}, ItemBroadcast)
  }

  /** Back to HELD with its items; a release that failed is taken back, one that was missing stays missing. */
  ghost predicate Parked(s: Wallet, s': Wallet, b: BatchId)
    requires b in s.batches
  {
    b in s'.batches && s'.batches[b] == s.batches[b].(state := BatchHeld, released := false) && SameItems(s.items, s'.items, b)
  }

  ghost predicate ShortOf(items: seq<Item>, l: seq<Entry>, b: BatchId) {
    exists i | i in items :: i.batch == b && i.state == ItemHeld && Balance(l, MinerConfirmed, i.miner) < i.amount
  }

  /**
   A RESERVED batch after its turn, owed being what the ledger then owes: sent when nothing of it was HELD; otherwise
   parked without a release, untouched while the gate refuses, and else reserved and sent, or parked for want of a
   balance.
   */
  ghost predicate Resumed(s: Wallet, s': Wallet, b: BatchId, received: int, build: BuildAnswer)
    requires b in s.batches
  {
    if !HasHeld(s.items, b) then Sent(s, s', b, build)
    else if !s.batches[b].released then Parked(s, s', b)
    else if Sum(s'.ledger, In({MinerConfirmed, MinerPending})) > received then Untouched(s, s', b)
    else
      || (Sent(s, s', b, build) && ReservationsPosted(s.items, s'.ledger, b))
      || (Parked(s, s', b) && ShortOf(s.items, s'.ledger, b))
  }

  ghost predicate HasItems(items: seq<Item>, b: BatchId) {
    exists i | i in items :: i.batch == b
  }

  /** The batch can be signed and sent: it has items, its hash is new and the broadcast succeeds. */
  ghost predicate BuildWorks(s: Wallet, b: BatchId, build: BuildAnswer) {
    HasItems(s.items, b) && build.broadcastOk && forall c | c in s.batches :: s.batches[c].tx != Some(build.hash)
  }

  lemma {:induction false} ReserveOwes(its: seq<Item>)
    ensures Sum(AllReserveEntries(its), In({MinerConfirmed, MinerPending})) == 0
  {
    SumReserve(its, In({MinerConfirmed, MinerPending}), Nothing());
    SumZero(its, Nothing());
  }

  /** Processing a RESERVED batch none of whose items is HELD. */
  lemma ProcessSends(v: Wallet, b: BatchId, build: BuildAnswer)
    requires b in v.batches && v.batches[b].state == BatchReserved && AllIn(v.items, b, ItemReserved) && BuildWorks(v, b, build)
    ensures var o := Process(v, b, build);
      && !o.failed && o.tables.ledger == v.ledger && Moved(v.items, o.tables.items, b, {ItemReserved}, ItemBroadcast)
      && o.tables.batches == v.batches[b := Batch(BatchBroadcast, v.batches[b].released, Some(build.hash), build.fee)]
  {
    var i :| i in v.items && i.batch == b;
    SelectRows(v.items, b, ItemReserved);
    assert i in Select(v.items, b, ItemReserved);
    SaveEffect(v, b, build.hash, build.fee);
    BroadcastEffect(SaveBuilt(v, b, build.hash, build.fee), b);
    hide Select, Moved, SaveBuilt, MarkBroadcast;
  }

  lemma SendsFrame(v: Wallet, r: Wallet, u: Wallet, b: BatchId, build: BuildAnswer)
    requires b in v.batches && r.batches == v.batches && v.ledger <= r.ledger && u.ledger == r.ledger
    requires (r.items == v.items && AllIn(v.items, b, ItemReserved)) || Moved(v.items, r.items, b, {ItemHeld}, ItemReserved)
    requires Moved(r.items, u.items, b, {ItemReserved}, ItemBroadcast)
    requires u.batches == v.batches[b := Batch(BatchBroadcast, v.batches[b].released, Some(build.hash), build.fee)]
    ensures Frame(v, u, {b}) && Sent(v, u, b, build)
  {
    forall k | 0 <= k < |v.items|
      ensures u.items[k] == if v.items[k].batch == b && v.items[k].state in {ItemHeld, ItemReserved} then v.items[k].(state := ItemBroadcast) else v.items[k]
    {
      assert v.items[k] in v.items;
    }
    MovedFrame(v, u, b, {ItemHeld, ItemReserved}, ItemBroadcast);
  }

  /** One turn of the loop over RESERVED batches. */
  function Turn(v: Wallet, b: BatchId, received: int, build: BuildAnswer): Outcome {
    var released := ReserveReleased(v, received, b);
    if Ready(released, b) then Process(released, b, build) else Outcome(released, false)
  }

  /** What a turn leaves: its batch resumed, nothing else touched, the total owed the same, no CONFIRMED balance higher. */
  ghost predicate TurnOk(v: Wallet, u: Wallet, b: BatchId, received: int, build: BuildAnswer)
    requires b in v.batches
  {
    && Frame(v, u, {b}) && Resumed(v, u, b, received, build)
    && Sum(u.ledger, In({MinerConfirmed, MinerPending})) == Sum(v.ledger, In({MinerConfirmed, MinerPending}))
    && forall m :: Balance(u.ledger, MinerConfirmed, m) <= Balance(v.ledger, MinerConfirmed, m)
  }

  lemma TurnParks(v: Wallet, b: BatchId, received: int, build: BuildAnswer)
    requires b in v.batches && HasHeld(v.items, b)
    requires !v.batches[b].released || (Sum(v.ledger, In({MinerConfirmed, MinerPending})) <= received && AnyUncovered(v, b))
    ensures TurnOk(v, v.(batches := v.batches[b := v.batches[b].(state := BatchHeld, released := false)]), b, received, build)
  {
    var u := v.(batches := v.batches[b := v.batches[b].(state := BatchHeld, released := false)]);
    hide Sum, Balance;
    SameItemsFrame(v, u, b);
  }

  lemma TurnWaits(v: Wallet, b: BatchId, received: int, build: BuildAnswer)
    requires b in v.batches && HasHeld(v.items, b) && v.batches[b].released
    requires Sum(v.ledger, In({MinerConfirmed, MinerPending})) > received
    ensures TurnOk(v, v, b, received, build)
  {
    hide Sum, Balance;
    SameItemsFrame(v, v, b);
  }

  lemma UniformItems(v: Wallet, b: BatchId)
    requires ItemsOk(v) && b in v.batches && v.batches[b].state == BatchReserved
    ensures if HasHeld(v.items, b) then AllIn(v.items, b, ItemHeld) else AllIn(v.items, b, ItemReserved)
  {
    if AllIn(v.items, b, ItemHeld) && !HasHeld(v.items, b) {
      assert AllIn(v.items, b, ItemReserved);
    }
  }

  lemma NowReserved(items: seq<Item>, items': seq<Item>, b: BatchId)
    requires AllIn(items, b, ItemHeld) && Moved(items, items', b, {ItemHeld}, ItemReserved)
    ensures AllIn(items', b, ItemReserved)
    ensures HasItems(items, b) ==> HasItems(items', b)
  {
    forall i | i in items' && i.batch == b ensures i.state == ItemReserved {
      var k :| 0 <= k < |items'| && items'[k] == i;
      assert items[k] in items;
    }
    if i :| i in items && i.batch == b {
      var k :| 0 <= k < |items| && items[k] == i;
      assert items'[k] in items';
    }
  }

  lemma NoneSelected(items: seq<Item>, b: BatchId)
    ensures Select(items, b, ItemHeld) == [] <==> !HasHeld(items, b)
  {
    SelectRows(items, b, ItemHeld);
    hide Select;
    var its := Select(items, b, ItemHeld);
    if its != [] {
      assert its[0] in its;
    }
  }

  lemma TurnSends(v: Wallet, b: BatchId, received: int, build: BuildAnswer)
    requires b in v.batches && v.batches[b].state == BatchReserved && !HasHeld(v.items, b) && AllIn(v.items, b, ItemReserved)
    requires BuildWorks(v, b, build)
    ensures !Process(v, b, build).failed && TurnOk(v, Process(v, b, build).tables, b, received, build)
  {
    ProcessSends(v, b, build);
    hide Sum, Balance, Process, Moved, AllIn, Sent, Frame;
    SendsFrame(v, v, Process(v, b, build).tables, b, build);
  }

  lemma ReservedTotals(l: seq<Entry>, l': seq<Entry>, its: seq<Item>, m: Miner)
    requires l' == l + AllReserveEntries(its) && forall i | i in its :: i.amount >= 0
    ensures Sum(l', In({MinerConfirmed, MinerPending})) == Sum(l, In({MinerConfirmed, MinerPending}))
    ensures Balance(l', MinerConfirmed, m) <= Balance(l, MinerConfirmed, m)
  {
    SumAppend(l, AllReserveEntries(its), In({MinerConfirmed, MinerPending}));
    SumAppend(l, AllReserveEntries(its), Of(MinerConfirmed, m));
    ReserveOwes(its);
    ReserveDeltas(its, m);
    forall k | 0 <= k < |its| ensures AmountOf(m)(its[k]) >= 0 {
      assert its[k] in its;
    }
    SumNonNegative(its, AmountOf(m));
  }

  lemma HeldPosted(v: Wallet, r: Wallet, b: BatchId)
    requires ReservesHeld(v, r, b) && AllIn(v.items, b, ItemHeld)
    ensures ReservationsPosted(v.items, r.ledger, b) && v.ledger <= r.ledger
  {
    var its :| ItemsOf(its, v.items, b, {ItemHeld}) && Reserves(v.ledger, r.ledger, its);
    hide OneItemPerMiner, Moved, ReserveRow;
    forall i, e | i in v.items && i.batch == b && ReserveRow(e, i) ensures e in r.ledger {
      assert i in its;
    }
  }

  lemma TurnReserves(v: Wallet, b: BatchId, received: int, build: BuildAnswer)
    requires Inv(v) && b in v.batches && v.batches[b].state == BatchReserved && HasHeld(v.items, b) && v.batches[b].released
    requires Sum(v.ledger, In({MinerConfirmed, MinerPending})) <= received && !AnyUncovered(v, b) && BuildWorks(v, b, build)
    ensures !Turn(v, b, received, build).failed && TurnOk(v, Turn(v, b, received, build).tables, b, received, build)
  {
    var r := ReserveReleased(v, received, b);
    Given(v);
    ReleaseEffect(v, received, b);
    ReleasedTotals(v, received, b);
    UniformItems(v, b);
    hide Inv, ItemsOk, ReserveReleased, AnyUncovered, Sum, Balance, ReservationsPosted, Process;
    HeldPosted(v, r, b);
    NowReserved(v.items, r.items, b);
    NoneSelected(r.items, b);
    assert r.batches == v.batches;
    ProcessSends(r, b, build);
    ReservedSent(v, r, Process(r, b, build).tables, b, received, build);
  }

  lemma ReservedSent(v: Wallet, r: Wallet, u: Wallet, b: BatchId, received: int, build: BuildAnswer)
    requires b in v.batches && r.batches == v.batches && v.ledger <= r.ledger && u.ledger == r.ledger && HasHeld(v.items, b)
    requires v.batches[b].released && Sum(v.ledger, In({MinerConfirmed, MinerPending})) <= received
    requires Moved(v.items, r.items, b, {ItemHeld}, ItemReserved) && Moved(r.items, u.items, b, {ItemReserved}, ItemBroadcast)
    requires u.batches == v.batches[b := Batch(BatchBroadcast, v.batches[b].released, Some(build.hash), build.fee)]
    requires ReservationsPosted(v.items, r.ledger, b)
    requires Sum(r.ledger, In({MinerConfirmed, MinerPending})) == Sum(v.ledger, In({MinerConfirmed, MinerPending}))
    requires forall m :: Balance(r.ledger, MinerConfirmed, m) <= Balance(v.ledger, MinerConfirmed, m)
    ensures TurnOk(v, u, b, received, build)
  {
    hide Sum, Balance, ReservationsPosted, Moved, Frame, Sent, HasHeld;
    SendsFrame(v, r, u, b, build);
  }

  lemma ReleasedTotals(v: Wallet, received: int, b: BatchId)
    requires Inv(v)
    ensures var r := ReserveReleased(v, received, b);
      && Sum(r.ledger, In({MinerConfirmed, MinerPending})) == Sum(v.ledger, In({MinerConfirmed, MinerPending}))
      && forall m :: Balance(r.ledger, MinerConfirmed, m) <= Balance(v.ledger, MinerConfirmed, m)
  {
    Given(v);
    var r, held := ReserveReleased(v, received, b), Select(v.items, b, ItemHeld);
    ReleaseRows(v, b);
    SelectRows(v.items, b, ItemHeld);
    forall i | i in held ensures i.amount >= 0 {
      assert RowOk(i, v.batches);
    }
    hide Inv, ItemsOk, KeysOk, Sum, Balance, Select, AllReserveEntries, PostAll, Covered, Move;
    if r.ledger != v.ledger {
      forall m ensures Balance(r.ledger, MinerConfirmed, m) <= Balance(v.ledger, MinerConfirmed, m) {
        ReservedTotals(v.ledger, r.ledger, held, m);
      }
      ReservedTotals(v.ledger, r.ledger, held, "");
    }
  }

  /** Whatever the state of a RESERVED batch that can be sent, its turn throws nothing and leaves it resumed. */
  lemma TurnResumes(v: Wallet, b: BatchId, received: int, build: BuildAnswer)
    requires Inv(v) && b in v.batches && v.batches[b].state == BatchReserved && BuildWorks(v, b, build)
    ensures !Turn(v, b, received, build).failed && TurnOk(v, Turn(v, b, received, build).tables, b, received, build)
  {
    Given(v);
    UniformItems(v, b);
    ReleaseEffect(v, received, b);
    NoneSelected(v.items, b);
    hide Inv, ItemsOk, ReserveReleased, Sum, Balance, Process, TurnOk, AnyUncovered, HasHeld, AllIn, BuildWorks, ReservesHeld;
    if !HasHeld(v.items, b) {
      TurnSends(v, b, received, build);
    } else if !v.batches[b].released {
      TurnParks(v, b, received, build);
      assert v.batches[b].(state := BatchHeld) == v.batches[b].(state := BatchHeld, released := false);
    } else if Sum(v.ledger, In({MinerConfirmed, MinerPending})) > received {
      TurnWaits(v, b, received, build);
    } else if AnyUncovered(v, b) {
      TurnParks(v, b, received, build);
    } else {
      TurnReserves(v, b, received, build);
    }
  }

  lemma HeldAlike(items: seq<Item>, items': seq<Item>, b: BatchId)
    requires SameItems(items, items', b) && SameRows(items, items')
    ensures HasHeld(items', b) <==> HasHeld(items, b)
    ensures HasItems(items, b) ==> HasItems(items', b)
    ensures forall i: Item | i.batch == b :: i in items <==> i in items'
  {
    forall i | i in items && i.batch == b ensures i in items' {
      var k :| 0 <= k < |items| && items[k] == i;
      assert items'[k] == i;
    }
    forall i | i in items' && i.batch == b ensures i in items {
      var k :| 0 <= k < |items'| && items'[k] == i;
      assert items[k] == i;
    }
  }

  lemma ResumedAlike(s: Wallet, v: Wallet, u: Wallet, b: BatchId, received: int, build: BuildAnswer)
    requires Untouched(s, v, b) && Resumed(v, u, b, received, build) && SameRows(s.items, v.items) && SameRows(v.items, u.items)
    ensures Resumed(s, u, b, received, build)
  {
    HeldAlike(s.items, v.items, b);
    hide Sum, Balance, ReserveRow, HasHeld;
    if Sent(v, u, b, build) {
      MovedAlike(s.items, v.items, u.items, b, {ItemHeld, ItemReserved}, ItemBroadcast);
    }
  }

  lemma ResumedStays(s: Wallet, v: Wallet, u: Wallet, b: BatchId, received: int, build: BuildAnswer)
    requires b in s.batches && Resumed(s, v, b, received, build) && b in v.batches && Untouched(v, u, b)
    requires v.ledger <= u.ledger && SameRows(v.items, u.items)
    requires Sum(u.ledger, In({MinerConfirmed, MinerPending})) == Sum(v.ledger, In({MinerConfirmed, MinerPending}))
    requires forall m :: Balance(u.ledger, MinerConfirmed, m) <= Balance(v.ledger, MinerConfirmed, m)
    ensures Resumed(s, u, b, received, build)
  {
    hide Sum, Balance, ReserveRow, HasHeld;
    if Sent(s, v, b, build) {
      MovedStays(s.items, v.items, u.items, b, {ItemHeld, ItemReserved}, ItemBroadcast);
    }
  }

  ghost predicate AllResumed(s: Wallet, u: Wallet, rows: seq<BatchId>, received: BatchId -> int, builds: BatchId -> BuildAnswer)
    requires forall b | b in rows :: b in s.batches
  {
    forall b | b in rows :: Resumed(s, u, b, received(b), builds(b))
  }

  /** Nothing new is owed, and no CONFIRMED balance has grown. */
  ghost predicate NoMoreOwed(l: seq<Entry>, l': seq<Entry>) {
    && Sum(l', In({MinerConfirmed, MinerPending})) == Sum(l, In({MinerConfirmed, MinerPending}))
    && forall m :: Balance(l', MinerConfirmed, m) <= Balance(l, MinerConfirmed, m)
  }

  ghost predicate HashesApart(rows: set<BatchId>, builds: BatchId -> BuildAnswer) {
    forall b, c | b in rows && c in rows && builds(b).hash == builds(c).hash :: b == c
  }

  /** A hash in use afterwards was in use before or is the one signed for its own batch. */
  ghost predicate OwnHashes(s: Wallet, u: Wallet, rows: seq<BatchId>, builds: BatchId -> BuildAnswer) {
    forall c | c in u.batches :: c in s.batches &&
      (u.batches[c].tx == s.batches[c].tx || (c in rows && u.batches[c].tx == Some(builds(c).hash)))
  }

  lemma HashStaysNew(s: Wallet, v: Wallet, rows: seq<BatchId>, b: BatchId, builds: BatchId -> BuildAnswer)
    requires BuildWorks(s, b, builds(b)) && Untouched(s, v, b) && SameRows(s.items, v.items) && OwnHashes(s, v, rows, builds)
    requires b !in rows && HashesApart(Members(rows) + {b}, builds)
    ensures BuildWorks(v, b, builds(b))
  {
    HeldAlike(s.items, v.items, b);
    forall c | c in v.batches ensures v.batches[c].tx != Some(builds(b).hash) {
      assert s.batches[c].tx != Some(builds(b).hash);
      if c in rows {
        assert c in Members(rows) + {b} && b in Members(rows) + {b};
      }
    }
  }

  lemma TurnHashes(v: Wallet, u: Wallet, b: BatchId, received: int, build: BuildAnswer)
    requires b in v.batches && Frame(v, u, {b}) && Resumed(v, u, b, received, build) && u.batches.Keys == v.batches.Keys
    ensures forall c | c in u.batches :: c in v.batches && (u.batches[c].tx == v.batches[c].tx || (c == b && u.batches[c].tx == Some(build.hash)))
  {
    hide Sum, Balance, HasHeld, SameItems, MovedOf, ReservationsPosted, ShortOf;
    forall c | c in u.batches && c != b ensures u.batches[c].tx == v.batches[c].tx {
      assert Untouched(v, u, c);
    }
  }

  lemma {:induction false} ResumeAll(s: Wallet, rows: seq<BatchId>, received: BatchId -> int, builds: BatchId -> BuildAnswer)
    requires Inv(s) && Distinct(rows) && HashesApart(Members(rows), builds)
    requires forall b | b in rows :: b in s.batches && s.batches[b].state == BatchReserved && BuildWorks(s, b, builds(b))
    ensures var o := Resume(s, rows, received, builds);
      && !o.failed && Frame(s, o.tables, Members(rows)) && AllResumed(s, o.tables, rows, received, builds)
      && NoMoreOwed(s.ledger, o.tables.ledger) && OwnHashes(s, o.tables, rows, builds)
  {
    hide *;
    if rows == [] {
      NothingResumed(s, received, builds);
    } else {
      var n := |rows| - 1;
      var b := rows[n];
      AllButLast(rows);
      ResumeLast(s, rows, received, builds);
      FewerHashes(rows, builds);
      ResumeAll(s, rows[..n], received, builds);
      ResumeKeepsInv(s, rows[..n], received, builds);
      ResumeOne(s, Resume(s, rows[..n], received, builds).tables, rows[..n], b, received, builds);
    }
  }

  lemma AllButLast(rows: seq<BatchId>)
    requires rows != [] && Distinct(rows)
    ensures var n := |rows| - 1;
      && rows == rows[..n] + [rows[n]] && rows[n] in rows && rows[n] !in rows[..n] && Distinct(rows[..n])
      && (forall c | c in rows[..n] :: c in rows) && Members(rows) == Members(rows[..n]) + {rows[n]}
  {
  }

  lemma FewerHashes(rows: seq<BatchId>, builds: BatchId -> BuildAnswer)
    requires rows != [] && HashesApart(Members(rows), builds)
    ensures HashesApart(Members(rows[..|rows| - 1]), builds)
  {
  }

  lemma ResumeLast(s: Wallet, rows: seq<BatchId>, received: BatchId -> int, builds: BatchId -> BuildAnswer)
    requires rows != []
    ensures var n := |rows| - 1; var before := Resume(s, rows[..n], received, builds);
      !before.failed ==> Resume(s, rows, received, builds) == Turn(before.tables, rows[n], received(rows[n]), builds(rows[n]))
  {
  }

  lemma NothingResumed(s: Wallet, received: BatchId -> int, builds: BatchId -> BuildAnswer)
    ensures Frame(s, s, Members([])) && AllResumed(s, s, [], received, builds) && NoMoreOwed(s.ledger, s.ledger) && OwnHashes(s, s, [], builds)
    ensures Resume(s, [], received, builds) == Outcome(s, false)
  {
    FrameSelf(s);
    hide Sum, Balance;
    assert Members([]) == {};
  }

  lemma ResumeOne(s: Wallet, v: Wallet, rows: seq<BatchId>, b: BatchId, received: BatchId -> int, builds: BatchId -> BuildAnswer)
    requires Inv(v) && b !in rows && HashesApart(Members(rows) + {b}, builds) && forall c | c in rows :: c in s.batches
    requires b in s.batches && s.batches[b].state == BatchReserved && BuildWorks(s, b, builds(b))
    requires Frame(s, v, Members(rows)) && AllResumed(s, v, rows, received, builds) && NoMoreOwed(s.ledger, v.ledger) && OwnHashes(s, v, rows, builds)
    ensures var o := Turn(v, b, received(b), builds(b));
      && !o.failed && Frame(s, o.tables, Members(rows) + {b}) && AllResumed(s, o.tables, rows + [b], received, builds)
      && NoMoreOwed(s.ledger, o.tables.ledger) && OwnHashes(s, o.tables, rows + [b], builds)
  {
    FrameGives(s, v, Members(rows), b);
    assert b in v.batches && v.batches[b] == s.batches[b];
    hide *;
    HashStaysNew(s, v, rows, b, builds);
    TurnResumes(v, b, received(b), builds(b));
    var u := Turn(v, b, received(b), builds(b)).tables;
    TurnParts(v, u, b, received(b), builds(b));
    FrameTrans(s, v, u, Members(rows), {b});
    ResumedAlike(s, v, u, b, received(b), builds(b));
    OthersResumed(s, v, u, rows, b, received, builds);
    OwedTrans(s.ledger, v.ledger, u.ledger);
    TurnSameBatches(v, b, received(b), builds(b));
    TurnHashes(v, u, b, received(b), builds(b));
    HashesTrans(s, v, u, rows, b, builds);
  }

  lemma TurnParts(v: Wallet, u: Wallet, b: BatchId, received: int, build: BuildAnswer)
    requires b in v.batches && TurnOk(v, u, b, received, build)
    ensures Frame(v, u, {b}) && Resumed(v, u, b, received, build) && NoMoreOwed(v.ledger, u.ledger)
    ensures v.ledger <= u.ledger && SameRows(v.items, u.items)
  {
    hide Resumed, Sum, Balance, Untouched;
  }

  lemma TurnSameBatches(v: Wallet, b: BatchId, received: int, build: BuildAnswer)
    ensures Turn(v, b, received, build).tables.batches.Keys == v.batches.Keys
  {
    hide ReserveReleased, Process, Ready;
    SameBatches(v, b, NodeAnswer(Unknown, None), build, received);
    SameBatches(ReserveReleased(v, received, b), b, NodeAnswer(Unknown, None), build, received);
  }

  lemma OwedTrans(l: seq<Entry>, l': seq<Entry>, l'': seq<Entry>)
    requires NoMoreOwed(l, l') && NoMoreOwed(l', l'')
    ensures NoMoreOwed(l, l'')
  {
    hide Sum, Balance;
    forall m ensures Balance(l'', MinerConfirmed, m) <= Balance(l, MinerConfirmed, m) {
      assert Balance(l'', MinerConfirmed, m) <= Balance(l', MinerConfirmed, m);
    }
  }

  lemma OthersResumed(s: Wallet, v: Wallet, u: Wallet, rows: seq<BatchId>, b: BatchId, received: BatchId -> int, builds: BatchId -> BuildAnswer)
    requires b !in rows && b in s.batches && (forall c | c in rows :: c in s.batches) && AllResumed(s, v, rows, received, builds)
    requires Frame(s, v, Members(rows)) && Frame(v, u, {b}) && NoMoreOwed(v.ledger, u.ledger) && Resumed(s, u, b, received(b), builds(b))
    ensures AllResumed(s, u, rows + [b], received, builds)
  {
    assert v.ledger <= u.ledger && SameRows(v.items, u.items);
    hide Resumed, Sum, Balance, SameRows, Untouched;
    forall c | c in rows ensures Resumed(s, u, c, received(c), builds(c)) {
      assert Resumed(s, v, c, received(c), builds(c));
      ResumedKnown(s, v, c, received(c), builds(c));
      assert Untouched(v, u, c);
      ResumedStays(s, v, u, c, received(c), builds(c));
    }
  }

  lemma ResumedKnown(s: Wallet, v: Wallet, b: BatchId, received: int, build: BuildAnswer)
    requires b in s.batches && Resumed(s, v, b, received, build)
    ensures b in v.batches
  {
    hide Sum, Balance, HasHeld, SameItems, MovedOf, ReservationsPosted, ShortOf;
  }

  lemma HashesTrans(s: Wallet, v: Wallet, u: Wallet, rows: seq<BatchId>, b: BatchId, builds: BatchId -> BuildAnswer)
    requires OwnHashes(s, v, rows, builds)
    requires forall c | c in u.batches :: c in v.batches && (u.batches[c].tx == v.batches[c].tx || (c == b && u.batches[c].tx == Some(builds(b).hash)))
    ensures OwnHashes(s, u, rows + [b], builds)
  {
  }

  // ---------- a new batch ----------

  /** A proposal as createBatch makes it, sent at once if it is within the caps. */
  ghost predicate NewOne(s: Wallet, u: Wallet, b: BatchId, cs: seq<Candidate>, limits: Limits, spent: nat, build: BuildAnswer) {
    exists p :: Proposed(s, p, b, cs, limits, spent) && NewSent(p, u, b, build)
  }

  ghost predicate NewSent(p: Wallet, u: Wallet, b: BatchId, build: BuildAnswer) {
    b in p.batches &&
    if p.batches[b].state == BatchHeld then u == p
    else
      && u.ledger == p.ledger && Moved(p.items, u.items, b, {ItemReserved}, ItemBroadcast)
      && u.batches == p.batches[b := Batch(BatchBroadcast, false, Some(build.hash), build.fee)]
  }

  /** What a sweep that has nothing left to settle or resume does. */
  ghost predicate Proposes(s: Wallet, u: Wallet, t: Tick) {
    if ProposalRefused(s, t.received(t.newId), t.eligible(s), t.limits) then u == s
    else NewOne(s, u, t.newId, t.eligible(s), t.limits, t.dailySpent, t.builds(t.newId))
  }

  /** The new batch's transaction can be signed and sent. */
  ghost predicate NewBuildWorks(s: Wallet, build: BuildAnswer) {
    build.broadcastOk && forall c | c in s.batches :: s.batches[c].tx != Some(build.hash)
  }

  lemma NotThrown(s: Wallet, received: int, b: BatchId, cs: seq<Candidate>, limits: Limits)
    requires Inv(s)
    ensures !CreateFails(s, received, b, cs, limits)
  {
    ChosenRows(s.ledger, Truncated(cs, limits), limits, b, ItemHeld);
    NoneNegative(s, Chosen(s.ledger, Truncated(cs, limits), limits, b, ItemHeld));
  }

  lemma NoCandidates(l: seq<Entry>, limits: Limits)
    ensures !AnySufficient(l, [], limits)
  {
  }

  lemma ProposedIsNew(s: Wallet, p: Wallet, b: BatchId, cs: seq<Candidate>, limits: Limits, spent: nat)
    requires ItemsOk(s) && b !in s.batches && AnySufficient(s.ledger, cs, limits) && Proposed(s, p, b, cs, limits, spent)
    ensures p != s && b in p.batches && p.batches[b].state in {BatchReserved, BatchHeld} && !p.batches[b].released
    ensures p.batches[b].state == BatchReserved ==> AllIn(p.items, b, ItemReserved) && HasItems(p.items, b)
    ensures forall c | c in p.batches && c != b :: c in s.batches && p.batches[c] == s.batches[c]
    ensures p.batches[b].tx.None?
  {
    hide Sum, Balance, Reserves, Sufficient, OneItemPerMiner;
    var its := p.items[|s.items|..];
    assert p.items == s.items + its;
    var m :| Sufficient(s.ledger, cs, limits, m);
    assert HasItem(its, b, m);
    var i :| i in its && i.batch == b && i.miner == m;
    assert i in p.items;
    forall j | j in s.items ensures j.batch != b {
      assert RowOk(j, s.batches);
    }
  }

  lemma NewBatchProposes(s: Wallet, t: Tick)
    requires Inv(s) && t.newId !in s.batches && NewBuildWorks(s, t.builds(t.newId))
    ensures !NewBatch(s, t).failed && Proposes(s, NewBatch(s, t).tables, t)
  {
    var b, cs, build := t.newId, t.eligible(s), t.builds(t.newId);
    var p := CreateBatch(s, t.received(b), b, cs, t.limits, t.dailySpent);
    Given(s);
    NotThrown(s, t.received(b), b, cs, t.limits);
    NoCandidates(s.ledger, t.limits);
    ProposeEffect(s, t.received(b), b, cs, t.limits, t.dailySpent);
    hide Inv, ItemsOk, CreateFails, CreateBatch, Process, Proposed, AnySufficient, Sum, Balance, AllIn, HasItems;
    if !ProposalRefused(s, t.received(b), cs, t.limits) {
      ProposedIsNew(s, p, b, cs, t.limits, t.dailySpent);
      if p.batches[b].state == BatchReserved {
        NewHashWorks(s, p, b, build);
        ProcessSends(p, b, build);
      }
      assert NewSent(p, NewBatch(s, t).tables, b, build);
    }
  }

  lemma NewHashWorks(s: Wallet, p: Wallet, b: BatchId, build: BuildAnswer)
    requires NewBuildWorks(s, build) && HasItems(p.items, b) && b in p.batches && p.batches[b].tx.None?
    requires forall c | c in p.batches && c != b :: c in s.batches && p.batches[c] == s.batches[c]
    ensures BuildWorks(p, b, build)
  {
    hide HasItems;
  }

  // ---------- a whole sweep ----------

  /** Rows are listed once each, in some order. */
  ghost predicate Lists(t: Tick) {
    forall s :: Distinct(t.listing(s)) && Members(t.listing(s)) == s
  }

  /** The tables after recovery: every open batch has been answered, and nothing else was touched. */
  ghost predicate Recovered(w: Wallet, r: Wallet, t: Tick) {
    if t.hasNode then
      && (forall b | b in w.batches && !Open(w, b) :: Untouched(w, r, b))
      && (forall b | b in w.batches && Open(w, b) :: Answered(w, r, b, t.nodes(b)))
      && w.ledger <= r.ledger && SameRows(w.items, r.items) && r.batches.Keys == w.batches.Keys
    else r == w
  }

  ghost predicate AfterForfeits(r: Wallet, s: Wallet, t: Tick) {
    s.batches == r.batches && s.items == r.items && AllForfeited(r.ledger, s.ledger, t.dormant(r), t.rowId)
  }

  ghost predicate InState(w: Wallet, b: BatchId, st: BatchState) {
    b in w.batches && w.batches[b].state == st
  }

  ghost predicate SomeIn(w: Wallet, st: BatchState) {
    exists b :: InState(w, b, st)
  }

  /** New work after recovery and forfeitures: none beside an open batch; else all RESERVED batches; else a proposal. */
  ghost predicate NewWork(s: Wallet, u: Wallet, t: Tick) {
    if SomeIn(s, BatchBuilt) || SomeIn(s, BatchBroadcast) then u == s
    else if SomeIn(s, BatchReserved) then
      && (forall b | b in s.batches && s.batches[b].state != BatchReserved :: Untouched(s, u, b))
      && (forall b | b in s.batches && s.batches[b].state == BatchReserved :: Resumed(s, u, b, t.received(b), t.builds(b)))
      && s.ledger <= u.ledger && SameRows(s.items, u.items) && u.batches.Keys == s.batches.Keys
    else if SomeIn(s, BatchHeld) then u == s
    else Proposes(s, u, t)
  }

  /** The node gives a fee wherever a confirmation needs one. */
  ghost predicate NodeKnows(w: Wallet, t: Tick) {
    t.hasNode ==> FeesKnown(w, t.nodes)
  }

  function ReservedBatches(w: Wallet): set<BatchId> {
    set b | b in w.batches && w.batches[b].state == BatchReserved
  }

  ghost predicate BuildsWork(w: Wallet, t: Tick) {
    && (forall b | b in ReservedBatches(w) :: BuildWorks(w, b, t.builds(b)))
    && HashesApart(ReservedBatches(w), t.builds) && NewBuildWorks(w, t.builds(t.newId))
  }

  lemma OpenRows(w: Wallet, t: Tick)
    requires Lists(t)
    ensures var rows := t.listing(UnresolvedBatches(w));
      Distinct(rows) && forall b :: b in rows <==> Open(w, b)
  {
    var rows := t.listing(UnresolvedBatches(w));
    hide Distinct;
    forall b ensures b in rows <==> Open(w, b) {
      assert b in rows <==> b in Members(rows);
    }
  }

  lemma SettleRecovers(w: Wallet, t: Tick) returns (r: Wallet)
    requires Inv(w) && Lists(t) && NodeKnows(w, t)
    ensures !Settle(w, t).failed && Recovered(w, r, t) && AfterForfeits(r, Settle(w, t).tables, t)
  {
    var rows := t.listing(UnresolvedBatches(w));
    r := if t.hasNode then Recover(w, rows, t.nodes).tables else w;
    OpenRows(w, t);
    hide Inv, FeesKnown, Recover, ForfeitAll, Answered, Untouched, UnresolvedBatches, Open, AllForfeited, Lists;
    if t.hasNode {
      RecoverAnswers(w, rows, t.nodes);
      RecoverKeepsInv(w, rows, t.nodes);
      RecoverSameBatches(w, rows, t.nodes);
      forall b | b in w.batches && !Open(w, b) ensures Untouched(w, r, b) {
        assert b !in Members(rows);
      }
    }
    ForfeitAllEffect(r, t.dormant(r), t.rowId);
  }

  lemma TurnFrame(v: Wallet, b: BatchId, received: int, build: BuildAnswer)
    requires Inv(v)
    ensures Frame(v, Turn(v, b, received, build).tables, {b})
  {
    var r := ReserveReleased(v, received, b);
    ReleaseFrame(v, received, b);
    ProcessFrame(r, b, build);
    hide Inv, Frame, ReserveReleased, Process, Ready;
    FrameTrans(v, r, Process(r, b, build).tables, {b}, {b});
    assert {b} + {b} == {b};
  }

  lemma ReleaseFrame(v: Wallet, received: int, b: BatchId)
    requires Inv(v)
    ensures Frame(v, ReserveReleased(v, received, b), {b})
  {
    var r := ReserveReleased(v, received, b);
    ReleaseEffect(v, received, b);
    hide Inv, ReserveReleased, Sum, Balance, AnyUncovered, HasHeld, ItemsOf, Moved;
    if r.items == v.items {
      SameItemsFrame(v, r, b);
    } else {
      MovedFrame(v, r, b, {ItemHeld}, ItemReserved);
    }
  }

  lemma ProcessFrame(v: Wallet, b: BatchId, build: BuildAnswer)
    ensures Frame(v, Process(v, b, build).tables, {b})
  {
    var saved := SaveBuilt(v, b, build.hash, build.fee);
    SaveEffect(v, b, build.hash, build.fee);
    BroadcastEffect(saved, b);
    SameItemsFrame(v, saved, b);
    hide Moved, SaveBuilt, MarkBroadcast, Payable, CanSave, Frame;
    MovedFrame(saved, MarkBroadcast(saved, b), b, {ItemReserved}, ItemBroadcast);
    FrameTrans(v, saved, MarkBroadcast(saved, b), {b}, {b});
    assert {b} + {b} == {b};
    SameItemsFrame(v, v, b);
  }

  lemma {:induction false} ResumeFrame(s: Wallet, rows: seq<BatchId>, received: BatchId -> int, builds: BatchId -> BuildAnswer)
    requires Inv(s)
    ensures Frame(s, Resume(s, rows, received, builds).tables, Members(rows))
  {
    hide Inv, Frame, ReserveReleased, Process, Ready;
    if rows == [] {
      FrameSelf(s);
      assert Members(rows) == {};
    } else {
      var n := |rows| - 1;
      var b, v := rows[n], Resume(s, rows[..n], received, builds).tables;
      ResumeFrame(s, rows[..n], received, builds);
      ResumeKeepsInv(s, rows[..n], received, builds);
      TurnFrame(v, b, received(b), builds(b));
      FrameTrans(s, v, Turn(v, b, received(b), builds(b)).tables, Members(rows[..n]), {b});
      assert rows == rows[..n] + [b];
      assert Members(rows) == Members(rows[..n]) + {b};
      FrameMore(s, v, Members(rows[..n]), Members(rows));
    }
  }

  lemma FrameMore(s: Wallet, u: Wallet, few: set<BatchId>, many: set<BatchId>)
    requires Frame(s, u, few) && few <= many
    ensures Frame(s, u, many)
  {
  }

  lemma NewBatchFrame(s: Wallet, t: Tick)
    requires Inv(s) && t.newId !in s.batches
    ensures Frame(s, NewBatch(s, t).tables, {t.newId})
  {
    var b := t.newId;
    var p := CreateBatch(s, t.received(b), b, t.eligible(s), t.limits, t.dailySpent);
    ProposeEffect(s, t.received(b), b, t.eligible(s), t.limits, t.dailySpent);
    ProcessFrame(p, b, t.builds(b));
    FrameSelf(s);
    hide Inv, CreateBatch, CreateFails, Process, ProposalRefused;
    if p != s {
      ProposedFrame(s, p, b, t.eligible(s), t.limits, t.dailySpent);
    } else {
      FrameMore(s, s, {}, {b});
    }
    hide Frame, Proposed;
    FrameTrans(s, p, Process(p, b, t.builds(b)).tables, {b}, {b});
    assert {b} + {b} == {b};
    FrameMore(s, s, {}, {b});
  }

  lemma ProposedFrame(s: Wallet, p: Wallet, b: BatchId, cs: seq<Candidate>, limits: Limits, spent: nat)
    requires Proposed(s, p, b, cs, limits, spent)
    ensures Frame(s, p, {b})
  {
    hide Sum, Balance, Sufficient, OneItemPerMiner;
    var its := p.items[|s.items|..];
    assert p.items == s.items + its;
    forall k | |s.items| <= k < |p.items| ensures p.items[k].batch == b {
      assert p.items[k] == its[k - |s.items|] && its[k - |s.items|] in its;
    }
  }

  lemma AnyInIs(s: Wallet)
    ensures AnyIn(s, {BatchBuilt, BatchBroadcast}) <==> SomeIn(s, BatchBuilt) || SomeIn(s, BatchBroadcast)
    ensures AnyIn(s, {BatchHeld}) <==> SomeIn(s, BatchHeld)
  {
    if b :| InState(s, b, BatchBuilt) {
      assert s.batches[b].state in {BatchBuilt, BatchBroadcast};
    }
    if b :| InState(s, b, BatchBroadcast) {
      assert s.batches[b].state in {BatchBuilt, BatchBroadcast};
    }
    if b :| InState(s, b, BatchHeld) {
      assert s.batches[b].state in {BatchHeld};
    }
    if b :| b in s.batches && s.batches[b].state in {BatchBuilt, BatchBroadcast} {
      assert InState(s, b, BatchBuilt) || InState(s, b, BatchBroadcast);
    }
    if b :| b in s.batches && s.batches[b].state in {BatchHeld} {
      assert InState(s, b, BatchHeld);
    }
  }

  lemma ReservedRows(s: Wallet, t: Tick)
    requires Lists(t)
    ensures var rows := t.listing(BatchesIn(s, BatchReserved));
      Distinct(rows) && Members(rows) == ReservedBatches(s) && (rows == [] <==> !SomeIn(s, BatchReserved))
  {
    var rows := t.listing(BatchesIn(s, BatchReserved));
    assert BatchesIn(s, BatchReserved) == ReservedBatches(s);
    hide Distinct;
    if rows != [] {
      assert rows[0] in Members(rows);
      assert InState(s, rows[0], BatchReserved);
    }
    if b :| InState(s, b, BatchReserved) {
      assert b in Members(rows);
    }
  }

  /** What runOnce does once recovery and forfeitures are through. */
  function Work(s: Wallet, t: Tick): Outcome {
    if AnyIn(s, {BatchBuilt, BatchBroadcast}) then Outcome(s, false)
    else
      var stuck := t.listing(BatchesIn(s, BatchReserved));
      var resumed := Resume(s, stuck, t.received, t.builds);
      if resumed.failed || stuck != [] || AnyIn(resumed.tables, {BatchHeld}) then resumed else NewBatch(resumed.tables, t)
  }

  lemma WorkFrame(s: Wallet, t: Tick)
    requires Inv(s) && Lists(t) && t.newId !in s.batches
    ensures Frame(s, Work(s, t).tables, ReservedBatches(s) + {t.newId})
  {
    var stuck := t.listing(BatchesIn(s, BatchReserved));
    ReservedRows(s, t);
    ResumeFrame(s, stuck, t.received, t.builds);
    NewBatchFrame(s, t);
    FrameSelf(s);
    hide Inv, Frame, AnyIn, NewBatch, BatchesIn, ReservedBatches, Lists;
    FrameMore(s, s, {}, ReservedBatches(s) + {t.newId});
    FrameMore(s, Resume(s, stuck, t.received, t.builds).tables, Members(stuck), ReservedBatches(s) + {t.newId});
    FrameMore(s, NewBatch(s, t).tables, {t.newId}, ReservedBatches(s) + {t.newId});
  }

  lemma WorkDone(s: Wallet, t: Tick)
    requires Inv(s) && Lists(t) && t.newId !in s.batches && BuildsWork(s, t)
    ensures !Work(s, t).failed && NewWork(s, Work(s, t).tables, t)
  {
    AnyInIs(s);
    ReservedRows(s, t);
    var stuck := t.listing(BatchesIn(s, BatchReserved));
    hide Inv, AnyIn, NewBatch, BatchesIn, SomeIn, Lists, Resume, Proposes;
    if SomeIn(s, BatchBuilt) || SomeIn(s, BatchBroadcast) {
    } else if stuck != [] {
      StuckResumed(s, stuck, t);
    } else {
      NothingStuck(s, t);
      NewBatchProposes(s, t);
    }
  }

  lemma NothingStuck(s: Wallet, t: Tick)
    ensures Resume(s, [], t.received, t.builds) == Outcome(s, false)
  {
  }

  lemma StuckResumed(s: Wallet, stuck: seq<BatchId>, t: Tick)
    requires Inv(s) && Distinct(stuck) && Members(stuck) == ReservedBatches(s) && BuildsWork(s, t)
    ensures var o := Resume(s, stuck, t.received, t.builds);
      && !o.failed && s.ledger <= o.tables.ledger && SameRows(s.items, o.tables.items) && o.tables.batches.Keys == s.batches.Keys
      && (forall b | b in s.batches && s.batches[b].state != BatchReserved :: Untouched(s, o.tables, b))
      && (forall b | b in s.batches && s.batches[b].state == BatchReserved :: Resumed(s, o.tables, b, t.received(b), t.builds(b)))
  {
    forall b | b in stuck ensures b in s.batches && s.batches[b].state == BatchReserved && BuildWorks(s, b, t.builds(b)) {
      assert b in Members(stuck);
    }
    hide Inv, Resume, BuildWorks, Resumed, Untouched;
    ResumeAll(s, stuck, t.received, t.builds);
    ResumeSameBatches(s, stuck, t.received, t.builds);
    forall b | b in s.batches && s.batches[b].state == BatchReserved
      ensures Resumed(s, Resume(s, stuck, t.received, t.builds).tables, b, t.received(b), t.builds(b))
    {
      assert b in Members(stuck);
    }
  }
}
