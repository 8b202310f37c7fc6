/** An undisturbed allocation, and an undisturbed reconciler pass, are runs of steps of the pool. */
module AllocationRuns {
  import opened Wrappers
  import opened Ledger
  import opened Pool
  import opened PoolPaths
  import opened Allocator
  import Pplns
  import Chain
  import R = Reconciler

  function BooksOf(s: State): Books {
    Books(s.blocks, s.plans, s.wallet.ledger)
  }

  function WithBooks(s: State, books: Books): State {
    s.(blocks := books.blocks, plans := books.plans, wallet := s.wallet.(ledger := books.ledger))
  }

  /** The state with the run of allocateMatureBlock at this point. */
  function At(s: State, a: Allocating): State {
    s.(allocating := s.allocating[0 := a])
  }

  lemma NotThere(s: State, a: Allocating, c: Allocating)
    requires 0 !in s.allocating
    ensures s.allocating[0 := a] - {0} == s.allocating && s.allocating[0 := a][0 := c] == s.allocating[0 := c]
  {
  }

  /** ReadReceipt and TakeGuard. */
  lemma GuardLeads(s: State, b: BlockId, reward: nat)
    requires 0 !in s.allocating && RewardFor(s.receipts, b) == Some(reward) && b in s.blocks && s.blocks[b] == Mature
    ensures Leads(s, At(s.(blocks := s.blocks[b := Allocated]), Guarded(b, reward)))
  {
    hide Leads, RewardFor;
    LeadsSelf(s);
    LeadsNext(s, s, ReadReceipt(0, b));
    NotThere(s, Holding(b, reward), Guarded(b, reward));
    LeadsNext(s, At(s, Holding(b, reward)), TakeGuard(0));
    assert Next(At(s, Holding(b, reward)), TakeGuard(0)) == At(s.(blocks := s.blocks[b := Allocated]), Guarded(b, reward));
  }

  lemma {:induction false} PostsLead(s: State, plan: Plan, k: nat)
    requires 0 !in s.allocating && k <= |Entries(plan)|
    ensures Leads(At(s, Posting(plan, 0)),
                  At(s.(wallet := s.wallet.(ledger := PostAll(s.wallet.ledger, Entries(plan)[..k]))), Posting(plan, k)))
  {
    hide Leads, Entries, Post;
    var start := At(s, Posting(plan, 0));
    if k == 0 {
      LeadsSelf(start);
      assert Entries(plan)[..0] == [];
    } else {
      PostsLead(s, plan, k - 1);
      var l := PostAll(s.wallet.ledger, Entries(plan)[..k - 1]);
      var before := At(s.(wallet := s.wallet.(ledger := l)), Posting(plan, k - 1));
      LeadsNext(start, before, PostNext(0));
      assert Entries(plan)[..k] == Entries(plan)[..k - 1] + [Entries(plan)[k - 1]];
      PostLast(s.wallet.ledger, Entries(plan)[..k - 1], Entries(plan)[k - 1]);
      NotThere(s, Posting(plan, k - 1), Posting(plan, k));
    }
  }

  /** All rows and the final state. */
  lemma SettlesLead(s: State, plan: Plan)
    requires 0 !in s.allocating
    ensures Leads(At(s, Posting(plan, 0)),
                  s.(blocks := s.blocks[plan.block := SettledToLedger], wallet := s.wallet.(ledger := PostAll(s.wallet.ledger, Entries(plan)))))
  {
    hide Leads, Entries, PostAll;
    var n := |Entries(plan)|;
    assert Entries(plan)[..n] == Entries(plan);
    PostsLead(s, plan, n);
    var last := At(s.(wallet := s.wallet.(ledger := PostAll(s.wallet.ledger, Entries(plan)))), Posting(plan, n));
    LeadsNext(At(s, Posting(plan, 0)), last, PostNext(0));
    NotThere(s, Posting(plan, n), Posting(plan, n));
  }

  /** Whatever one undisturbed call of allocateMatureBlock does to the tables, steps of the pool do. */
  lemma AllocationIsRun(s: State, after: Books, b: BlockId, inputs: Inputs, r: Done)
    requires 0 !in s.allocating && 0 <= inputs.feeBps <= Pplns.BASIS_POINTS
    requires Allocates(BooksOf(s), after, b, s.receipts, inputs, r)
    ensures Leads(s, WithBooks(s, after))
  {
    hide Leads, RewardFor, Pplns.Allocate, Planned, Entries, PostAll;
    LeadsSelf(s);
    if RewardFor(s.receipts, b).None? || b !in s.blocks || s.blocks[b] != Mature || inputs.networkWork.None? {
      assert WithBooks(s, after) == s;
    } else {
      var reward := RewardFor(s.receipts, b).value;
      var input := InputOf(inputs, reward);
      GuardLeads(s, b, reward);
      var guarded := s.(blocks := s.blocks[b := Allocated]);
      PlanLeads(s, guarded, b, reward, input);
      if Pplns.Allocate(input).Err? || Planned(s.plans, b) {
        assert WithBooks(s, after) == guarded;
      } else {
        var plan := Plan(b, reward, Pplns.Allocate(input).value);
        var planned := guarded.(plans := s.plans + [plan]);
        SettlesLead(planned, plan);
        LeadsOn(s, At(planned, Posting(plan, 0)), planned.(blocks := planned.blocks[b := SettledToLedger], wallet := s.wallet.(ledger := PostAll(s.wallet.ledger, Entries(plan)))));
        assert guarded.blocks[b := SettledToLedger] == s.blocks[b := SettledToLedger];
      }
    }
  }

  lemma PlanLeads(s: State, guarded: State, b: BlockId, reward: nat, input: Pplns.Input)
    requires 0 !in guarded.allocating && input.reward == reward && 0 <= input.feeBps <= Pplns.BASIS_POINTS
    requires Leads(s, At(guarded, Guarded(b, reward)))
    ensures var result := Pplns.Allocate(input);
      if result.Err? || Planned(guarded.plans, b) then Leads(s, guarded)
      else Leads(s, At(guarded.(plans := guarded.plans + [Plan(b, reward, result.value)]), Posting(Plan(b, reward, result.value), 0)))
  {
    hide Leads, Pplns.Allocate, Planned;
    LeadsNext(s, At(guarded, Guarded(b, reward)), SavePlan(0, input));
    var result := Pplns.Allocate(input);
    if result.Err? || Planned(guarded.plans, b) {
      NotThere(guarded, Guarded(b, reward), Guarded(b, reward));
    } else {
      NotThere(guarded, Guarded(b, reward), Posting(Plan(b, reward, result.value), 0));
    }
  }

  // ---------- reconciler passes ----------

  lemma ReconcileLeads(s: State, row: R.BlockRow, tip: nat, mined: Option<Chain.Block>, payout: Option<Chain.Block>, confirmations: nat)
    ensures Leads(s, s.(receipts := R.Reconcile(s.receipts, row, tip, mined, payout, confirmations)))
  {
    hide Leads, R.Finding, R.Read, R.Write, R.Deep;
    LeadsSelf(s);
    var found := R.Finding(row, mined, payout);
    if row.height + R.REWARD_DELAY_BLOCKS > tip || found.None? {
      assert s.(receipts := s.receipts) == s;
    } else {
      var read := R.Read(s.receipts, found.value, R.Deep(row, tip, confirmations));
      LeadsNext(s, s, ReadIncome(row, tip, mined, payout, confirmations));
      var reading := s.(reading := s.reading + [read]);
      LeadsNext(s, reading, WriteIncome(|s.reading|));
      assert reading.reading[..|s.reading|] + reading.reading[|s.reading| + 1..] == s.reading;
    }
  }

  /** An undisturbed tick of the reconciler is a run of reads and writes. */
  lemma {:induction false} PassIsRun(s: State, rows: seq<R.BlockRow>, tip: nat, answers: seq<R.Answer>, confirmations: nat)
    requires |answers| == |rows|
    ensures Leads(s, s.(receipts := R.Pass(s.receipts, rows, tip, answers, confirmations)))
  {
    hide Leads, R.Reconcile;
    if rows == [] {
      LeadsSelf(s);
      assert s.(receipts := s.receipts) == s;
    } else {
      var n := |rows| - 1;
      PassIsRun(s, rows[..n], tip, answers[..n], confirmations);
      var before := s.(receipts := R.Pass(s.receipts, rows[..n], tip, answers[..n], confirmations));
      ReconcileLeads(before, rows[n], tip, answers[n].mined, answers[n].payout, confirmations);
      LeadsOn(s, before, before.(receipts := R.Pass(s.receipts, rows, tip, answers, confirmations)));
    }
  }
}
