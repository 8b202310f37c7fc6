/**
 The payout worker as the source writes it: methods that update tables row by row, each proved to have
 the effect of the transaction function it implements. Node answers, the transaction builder and the
 database's choice of rows are arguments; a thrown error is a returned Failed.
 */
module PayoutWorker {
  import opened Wrappers
  import opened Sums
  import opened Ledger
  import opened Payouts
  import opened PayoutInvariant
  import opened PayoutSteps
  import opened PayoutSweeps

  datatype Done<T> = Returned(value: T) | Failed

  // ---------- rows posted one by one ----------

  lemma PostPair(l: seq<Entry>, es: seq<Entry>, x: Entry, y: Entry)
    ensures PostAll(l, es + [x, y]) == Post(Post(PostAll(l, es), x), y)
  {
    assert (es + [x, y])[..|es| + 1] == es + [x];
    assert (es + [x])[..|es|] == es;
  }

  lemma Replaced(done: seq<Item>, before: seq<Item>, k: nat, i: Item)
    requires |done| == k < |before|
    ensures (done + before[k..])[k := i] == done + [i] + before[k + 1..]
  {
  }

  /** UPDATE payout_items, row by row. */
  lemma MoveStep(items: seq<Item>, b: BatchId, from: ItemState, to: ItemState, k: nat)
    requires k < |items|
    ensures Move(items[..k + 1], b, from, to) == Move(items[..k], b, from, to)
      + [if items[k].batch == b && items[k].state == from then items[k].(state := to) else items[k]]
  {
    assert items[..k + 1][..k] == items[..k];
  }

  lemma {:induction false} MovedAll(items: seq<Item>, b: BatchId, from: ItemState, to: ItemState)
    requires from != to
    ensures Select(Move(items, b, from, to), b, from) == []
  {
    if items != [] {
      var n := |items| - 1;
      MovedAll(items[..n], b, from, to);
      assert Move(items, b, from, to)[..n] == Move(items[..n], b, from, to);
    }
  }

  lemma MentionedMore(cs: seq<Candidate>, k: nat, m: Miner)
    requires k < |cs|
    ensures Mentioned(cs[..k + 1], m) <==> Mentioned(cs[..k], m) || m == cs[k].miner
  {
    assert cs[..k + 1] == cs[..k] + [cs[k]];
    if Mentioned(cs[..k], m) {
      var c :| c in cs[..k] && c.miner == m;
      assert c in cs[..k + 1];
    }
    assert cs[k] in cs[..k + 1];
  }

  lemma ChosenStep(l: seq<Entry>, cs: seq<Candidate>, k: nat, limits: Limits, b: BatchId, st: ItemState)
    requires k < |cs|
    ensures Chosen(l, cs[..k + 1], limits, b, st) ==
      var before, owed := Chosen(l, cs[..k], limits, b, st), Balance(l, MinerConfirmed, cs[k].miner);
      if Mentioned(cs[..k], cs[k].miner) || owed < Requirement(cs[k], limits) then before
      else before + [Item(b, cs[k].miner, owed, st)]
  {
    assert cs[..k + 1][..k] == cs[..k];
  }

  lemma ConfirmStep(items: seq<Item>, b: BatchId, k: nat)
    requires k < |items|
    ensures ConfirmItems(items[..k + 1], b) == ConfirmItems(items[..k], b)
      + [if items[k].batch == b then items[k].(state := ItemConfirmed) else items[k]]
  {
    assert items[..k + 1][..k] == items[..k];
  }

  lemma TwoPosts(l: seq<Entry>, x: Entry, y: Entry)
    ensures PostAll(l, [x, y]) == Post(Post(l, x), y)
  {
    PostPair(l, [], x, y);
    assert [] + [x, y] == [x, y];
  }

  /** A forfeiture that is posted adds its amount to the pool's fee account. */
  lemma ForfeitOneIs(w: Wallet, m: Miner, rowId: nat -> nat)
    ensures var balance, seen := Balance(w.ledger, MinerConfirmed, m), LastSeen(w.ledger, m, rowId);
      var es := ForfeitEntries(m, balance, seen);
      ForfeitOne(w, m, rowId) ==
        if balance > 0 && !Posted(w.ledger, Forfeit(m, seen)) then w.(ledger := Post(Post(w.ledger, es[0]), es[1])) else w
  {
    var es := ForfeitEntries(m, Balance(w.ledger, MinerConfirmed, m), LastSeen(w.ledger, m, rowId));
    TwoPosts(w.ledger, es[0], es[1]);
    hide Balance, LastSeen, Posted, PostAll;
  }

  lemma FeeOfForfeit(m: Miner, balance: int, seen: nat)
    ensures Sum(ForfeitEntries(m, balance, seen), In({PoolFee})) == balance
  {
    var es := ForfeitEntries(m, balance, seen);
    assert es == ([] + [es[0]]) + [es[1]];
    SumSnoc([] + [es[0]], es[1], In({PoolFee}));
    SumSnoc([], es[0], In({PoolFee}));
  }

  lemma ForfeitFeeGrows(w: Wallet, m: Miner, rowId: nat -> nat)
    requires Inv(w)
    ensures var balance, seen := Balance(w.ledger, MinerConfirmed, m), LastSeen(w.ledger, m, rowId);
      Sum(ForfeitOne(w, m, rowId).ledger, In({PoolFee})) == Sum(w.ledger, In({PoolFee}))
        + if balance > 0 && !Posted(w.ledger, Forfeit(m, seen)) then balance else 0
  {
    assert KeysOk(w);
    hide Inv, KeysOk, Balance, LastSeen, Posted, PostAll, Sum;
    var balance, seen := Balance(w.ledger, MinerConfirmed, m), LastSeen(w.ledger, m, rowId);
    if balance > 0 && !Posted(w.ledger, Forfeit(m, seen)) {
      var es := ForfeitEntries(m, balance, seen);
      ForfeitKeysOk(w, m, balance, seen);
      SumAppend(w.ledger, es, In({PoolFee}));
      FeeOfForfeit(m, balance, seen);
    }
  }

  class Worker {
    var ledger: seq<Entry>
    var batches: map<BatchId, Batch>
    var items: seq<Item>
    var insolvencies: nat
    var forfeits: nat
    var forfeitedShannons: int

    function Tables(): Wallet
      reads this
    {
      Wallet(ledger, batches, items)
    }

    constructor ()
      ensures Tables() == Wallet([], map[], []) && insolvencies == 0 && forfeits == 0 && forfeitedShannons == 0
    {
      ledger, batches, items := [], map[], [];
      insolvencies, forfeits, forfeitedShannons := 0, 0, 0;
    }

    method PostEntry(e: Entry) returns (posted: bool)
      modifies this`ledger
      ensures ledger == Post(old(ledger), e) && posted == !Posted(old(ledger), e.key)
    {
      posted := !Posted(ledger, e.key);
      if posted {
        ledger := ledger + [e];
      }
    }

    method SolvencyGate(received: int) returns (ok: bool)
      modifies this`insolvencies
      ensures ok == (Owed(ledger) <= received)
      ensures insolvencies == old(insolvencies) + if ok then 0 else 1
    {
      ok := Owed(ledger) <= received;
      if !ok {
        insolvencies := insolvencies + 1;
      }
    }

    method ReserveItem(i: Item)
      modifies this`ledger
      ensures ledger == Post(Post(old(ledger), ReserveOut(i)), ReserveIn(i))
    {
      var _ := PostEntry(ReserveOut(i));
      var _ := PostEntry(ReserveIn(i));
    }

    method ReserveItems(its: seq<Item>)
      modifies this`ledger
      ensures ledger == PostAll(old(ledger), AllReserveEntries(its))
    {
      for k := 0 to |its|
        invariant ledger == PostAll(old(ledger), AllReserveEntries(its[..k]))
      {
        assert its[..k + 1][..k] == its[..k];
        PostPair(old(ledger), AllReserveEntries(its[..k]), ReserveOut(its[k]), ReserveIn(its[k]));
        ReserveItem(its[k]);
      }
      assert its[..|its|] == its;
    }

    /** The first mention of each miner whose balance, read again, is still enough. */
    method Candidates(cs: seq<Candidate>, limits: Limits, b: BatchId, st: ItemState) returns (its: seq<Item>)
      ensures its == Chosen(ledger, cs, limits, b, st)
    {
      assert Chosen(ledger, cs[..0], limits, b, st) == [] && forall m :: !Mentioned(cs[..0], m);
      hide Chosen, Mentioned, Balance, Requirement;
      its := [];
      var seen: set<Miner> := {};
      for k := 0 to |cs|
        invariant forall m :: m in seen <==> Mentioned(cs[..k], m)
        invariant its == Chosen(ledger, cs[..k], limits, b, st)
      {
        var c := cs[k];
        forall m ensures Mentioned(cs[..k + 1], m) <==> Mentioned(cs[..k], m) || m == c.miner {
          MentionedMore(cs, k, m);
        }
        ChosenStep(ledger, cs, k, limits, b, st);
        if c.miner !in seen {
          var owed := Balance(ledger, MinerConfirmed, c.miner);
          if owed >= Requirement(c, limits) {
            its := its + [Item(b, c.miner, owed, st)];
          }
        }
        seen := seen + {c.miner};
      }
      assert cs[..|cs|] == cs;
    }

    method CreateBatch(received: int, b: BatchId, miners: seq<Candidate>, limits: Limits, dailySpent: nat)
      returns (r: Done<Option<BatchState>>)
      modifies this
      ensures Tables() == Payouts.CreateBatch(old(Tables()), received, b, miners, limits, dailySpent)
      ensures r.Failed? <==> CreateFails(old(Tables()), received, b, miners, limits)
      ensures r.Returned? ==> r.value == if Tables() == old(Tables()) then None else Some(batches[b].state)
    {
      var solvent := SolvencyGate(received);
      if !solvent {
        return Returned(None);
      }
      var cut := Truncated(miners, limits);
      var proposal := Candidates(cut, limits, b, ItemHeld);
      if proposal == [] {
        return Returned(None);
      }
      if AnyNegative(proposal) {
        return Failed;
      }
      var state := if WithinCaps(Total(proposal), dailySpent, limits) then BatchReserved else BatchHeld;
      batches := batches[b := Batch(state, false, None, None)];
      if state == BatchReserved {
        var its := Candidates(cut, limits, b, ItemReserved);
        ChosenAlike(ledger, cut, limits, b, ItemReserved);
        items := items + its;
        ReserveItems(its);
      } else {
        items := items + proposal;
      }
      assert |items| > |old(items)|;
      r := Returned(Some(state));
    }

    /** UPDATE payout_items SET state = to WHERE batch_id = b AND state = from. */
    method MoveItems(b: BatchId, from: ItemState, to: ItemState)
      modifies this`items
      ensures items == Move(old(items), b, from, to)
    {
      var before := items;
      for k := 0 to |before|
        invariant items == Move(before[..k], b, from, to) + before[k..]
      {
        MoveStep(before, b, from, to, k);
        assert items[k] == before[k];
        var i := items[k];
        if i.batch == b && i.state == from {
          i := i.(state := to);
        }
        items := items[k := i];
        Replaced(Move(before[..k], b, from, to), before, k, i);
      }
      assert before[..|before|] == before;
    }

    method ReserveReleasedBatch(received: int, b: BatchId) returns (ready: bool)
      modifies this
      ensures Tables() == ReserveReleased(old(Tables()), received, b)
      ensures ready == Ready(Tables(), b)
    {
      ready := false;
      if b !in batches || batches[b].state != BatchReserved {
        return;
      }
      var held := Select(items, b, ItemHeld);
      if held == [] {
        return true;
      }
      if !batches[b].released {
        batches := batches[b := batches[b].(state := BatchHeld)];
        return;
      }
      var solvent := SolvencyGate(received);
      if !solvent {
        return;
      }
      for k := 0 to |held|
        invariant unchanged(this`ledger, this`batches, this`items)
        invariant forall j | 0 <= j < k :: Balance(ledger, MinerConfirmed, held[j].miner) >= held[j].amount
      {
        if Balance(ledger, MinerConfirmed, held[k].miner) < held[k].amount {
          batches := batches[b := batches[b].(state := BatchHeld, released := false)];
          assert held[k] in held && !Covered(old(ledger), held);
          return;
        }
      }
      assert Covered(ledger, held);
      ReserveItems(held);
      MoveItems(b, ItemHeld, ItemReserved);
      MovedAll(old(items), b, ItemHeld, ItemReserved);
      ready := true;
    }

    /** Save the hash, then send, then record: the order every recovery relies on. */
    method ProcessBatch(b: BatchId, build: BuildAnswer) returns (r: Done<TxHash>)
      modifies this
      ensures Outcome(Tables(), r.Failed?) == Process(old(Tables()), b, build)
      ensures r.Returned? ==> r.value == build.hash
    {
      var rows := Payable(Tables(), b);
      if rows == [] {
        return Failed;
      }
      if !CanSave(Tables(), b, build.hash) {
        return Failed;
      }
      batches := batches[b := batches[b].(state := BatchBuilt, tx := Some(build.hash), fee := build.fee)];
      if !build.broadcastOk {
        return Failed;
      }
      MoveItems(b, ItemReserved, ItemBroadcast);
      if batches[b].state == BatchBuilt {
        batches := batches[b := batches[b].(state := BatchBroadcast)];
      }
      r := Returned(build.hash);
    }

    method PostPayments(its: seq<Item>)
      modifies this`ledger
      ensures ledger == PostAll(old(ledger), AllPaidEntries(its))
    {
      for k := 0 to |its|
        invariant ledger == PostAll(old(ledger), AllPaidEntries(its[..k]))
      {
        assert its[..k + 1][..k] == its[..k];
        PostPair(old(ledger), AllPaidEntries(its[..k]), PayIn(its[k]), PayOut(its[k]));
        var _ := PostEntry(PayIn(its[k]));
        var _ := PostEntry(PayOut(its[k]));
      }
      assert its[..|its|] == its;
    }

    method ConfirmAll(b: BatchId)
      modifies this`items
      ensures items == ConfirmItems(old(items), b)
    {
      var before := items;
      for k := 0 to |before|
        invariant |items| == |before| && items[k..] == before[k..]
        invariant items[..k] == ConfirmItems(before[..k], b)
      {
        ConfirmStep(before, b, k);
        assert items[k] == before[k];
        var now := items;
        if items[k].batch == b {
          items := items[k := items[k].(state := ItemConfirmed)];
        }
        assert items[..k + 1] == now[..k] + [items[k]] && items[k + 1..] == now[k..][1..] == before[k + 1..];
      }
      assert before[..|before|] == before && items[..|items|] == items;
    }

    method ConfirmBatch(b: BatchId, node: NodeAnswer) returns (r: Done<bool>)
      modifies this
      ensures Outcome(Tables(), r.Failed?) == Confirm(old(Tables()), b, node)
      ensures r.Returned? ==> r.value == (b in batches && batches[b].state == BatchConfirmed)
    {
      if b !in batches || batches[b].state == BatchConfirmed {
        return Returned(b in batches);
      }
      if batches[b].state !in {BatchBuilt, BatchBroadcast} || batches[b].tx.None? {
        return Returned(false);
      }
      if node.status == InPool {
        MoveItems(b, ItemReserved, ItemBroadcast);
        batches := batches[b := batches[b].(state := BatchBroadcast)];
        return Returned(false);
      }
      if node.status != Committed {
        return Returned(false);
      }
      var fee := FinalFee(batches[b], node.fee);
      if fee.None? {
        return Failed;
      }
      var rows := OfBatch(items, b);
      PostPayments(rows);
      PostLast(old(ledger), AllPaidEntries(rows), Entry(TxFee, None, fee.value, BatchFee(b)));
      var _ := PostEntry(Entry(TxFee, None, fee.value, BatchFee(b)));
      ConfirmAll(b);
      batches := batches[b := batches[b].(state := BatchConfirmed, fee := Some(fee.value))];
      r := Returned(true);
    }

    method RecoverPendingBatches(rows: seq<BatchId>, nodes: BatchId -> NodeAnswer) returns (failed: bool)
      modifies this
      ensures Outcome(Tables(), failed) == Recover(old(Tables()), rows, nodes)
    {
      failed := false;
      for k := 0 to |rows|
        invariant !failed && Recover(old(Tables()), rows[..k], nodes) == Outcome(Tables(), false)
      {
        assert rows[..k + 1][..k] == rows[..k];
        var r := ConfirmBatch(rows[k], nodes(rows[k]));
        if r.Failed? {
          RecoverStops(old(Tables()), rows, nodes, k + 1);
          return true;
        }
      }
      assert rows[..|rows|] == rows;
    }

    /** Each move in its own transaction; the counter follows exactly what reaches the pool's fee account. */
    method ForfeitUnpayable(ms: seq<Miner>, rowId: nat -> nat)
      modifies this
      ensures Tables() == ForfeitAll(old(Tables()), ms, rowId)
      ensures Inv(old(Tables())) ==> Inv(Tables())
      ensures Inv(old(Tables())) ==>
        forfeitedShannons - old(forfeitedShannons) == Sum(ledger, In({PoolFee})) - Sum(old(ledger), In({PoolFee}))
    {
      hide Inv, Posted, Balance, LastSeen, In, Sum, ForfeitOne, Post;
      for k := 0 to |ms|
        invariant Tables() == ForfeitAll(old(Tables()), ms[..k], rowId)
        invariant Inv(old(Tables())) ==> Inv(Tables())
        invariant Inv(old(Tables())) ==>
          forfeitedShannons - old(forfeitedShannons) == Sum(ledger, In({PoolFee})) - Sum(old(ledger), In({PoolFee}))
      {
        assert ms[..k + 1][..k] == ms[..k];
        ghost var w := Tables();
        ForfeitOneIs(w, ms[k], rowId);
        var balance := Balance(ledger, MinerConfirmed, ms[k]);
        var seen := LastSeen(ledger, ms[k], rowId);
        if Inv(w) {
          ForfeitOneKeepsInv(w, ms[k], rowId);
          ForfeitFeeGrows(w, ms[k], rowId);
        }
        if balance > 0 && !Posted(ledger, Forfeit(ms[k], seen)) {
          var moved := ForfeitEntries(ms[k], balance, seen);
          var _ := PostEntry(moved[0]);
          var _ := PostEntry(moved[1]);
          forfeits := forfeits + 1;
          forfeitedShannons := forfeitedShannons + balance;
        }
        assert Tables() == ForfeitOne(w, ms[k], rowId);
      }
      assert ms[..|ms|] == ms;
    }

    /** One sweep, under the advisory lock. */
    method RunOnce(t: Tick) returns (failed: bool)
      modifies this
      ensures Outcome(Tables(), failed) == Sweep(old(Tables()), t)
    {
      if !t.locked {
        return false;
      }
      if t.hasNode {
        failed := RecoverPendingBatches(t.listing(UnresolvedBatches(Tables())), t.nodes);
        if failed {
          return;
        }
      }
      ForfeitUnpayable(t.dormant(Tables()), t.rowId);
      if AnyIn(Tables(), {BatchBuilt, BatchBroadcast}) {
        return false;
      }
      var stuck := t.listing(BatchesIn(Tables(), BatchReserved));
      failed := ResumeStuck(stuck, t.received, t.builds);
      if failed || stuck != [] || AnyIn(Tables(), {BatchHeld}) {
        return;
      }
      var miners := t.eligible(Tables());
      if miners == [] {
        return false;
      }
      var created := CreateBatch(t.received(t.newId), t.newId, miners, t.limits, t.dailySpent);
      if created.Failed? {
        return true;
      }
      if created.value == Some(BatchReserved) {
        var sent := ProcessBatch(t.newId, t.builds(t.newId));
        failed := sent.Failed?;
      }
    }

    method ResumeStuck(rows: seq<BatchId>, received: BatchId -> int, builds: BatchId -> BuildAnswer) returns (failed: bool)
      modifies this
      ensures Outcome(Tables(), failed) == Resume(old(Tables()), rows, received, builds)
    {
      hide ReserveReleased, Process;
      failed := false;
      for k := 0 to |rows|
        invariant !failed && Resume(old(Tables()), rows[..k], received, builds) == Outcome(Tables(), false)
      {
        assert rows[..k + 1][..k] == rows[..k];
        var ready := ReserveReleasedBatch(received(rows[k]), rows[k]);
        if ready {
          var r := ProcessBatch(rows[k], builds(rows[k]));
          if r.Failed? {
            ResumeStops(old(Tables()), rows, received, builds, k + 1);
            return true;
          }
        }
      }
      assert rows[..|rows|] == rows;
    }
  }
}
