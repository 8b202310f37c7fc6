/** What allocation keeps in every reachable state: the posted rows of a block are a prefix of one allocation of its receipt. */
module PoolAllocation {
  import opened Wrappers
  import opened Sums
  import opened Ledger
  import opened Payouts
  import opened PayoutInvariant
  import opened Pool
  import Pplns
  import PplnsProperties
  import R = Reconciler

  // ---------- rows of one block ----------

  function BlockOfKey(k: Key): Option<BlockId> {
    match k
    case AllocCredit(b, _) => Some(b)
    case AllocFee(b) => Some(b)
    case AllocRounding(b) => Some(b)
    case _ => None
  }

  /** The ledger rows booked for a block, in the order they were posted. */
  function RowsOf(l: seq<Entry>, b: BlockId): seq<Entry> {
    if l == [] then []
    else RowsOf(l[..|l| - 1], b) + if BlockOfKey(l[|l| - 1].key) == Some(b) then [l[|l| - 1]] else []
  }

  /** Rows appended for other purposes only. */
  predicate AppendsOther(l: seq<Entry>, l': seq<Entry>) {
    l <= l' && forall k | |l| <= k < |l'| :: BlockOfKey(l'[k].key).None?
  }

  lemma {:induction false} OtherRows(l: seq<Entry>, l': seq<Entry>, b: BlockId)
    requires AppendsOther(l, l')
    ensures RowsOf(l', b) == RowsOf(l, b)
  {
    if |l| == |l'| {
      assert l == l';
    } else {
      OtherRows(l, l'[..|l'| - 1], b);
    }
  }

  lemma {:induction false} PostAllOther(l: seq<Entry>, es: seq<Entry>)
    requires forall e | e in es :: BlockOfKey(e.key).None?
    ensures AppendsOther(l, PostAll(l, es))
  {
    if es != [] {
      PostAllOther(l, es[..|es| - 1]);
    }
  }

  lemma {:induction false} RowsPosted(l: seq<Entry>, b: BlockId)
    ensures forall e :: e in RowsOf(l, b) <==> e in l && BlockOfKey(e.key) == Some(b)
  {
    if l != [] {
      RowsPosted(l[..|l| - 1], b);
      assert l == l[..|l| - 1] + [l[|l| - 1]];
    }
  }

  // ---------- the rows of one allocation ----------

  /** Row amounts, and what a plan has to satisfy for them to be proper. */
  ghost predicate Proper(p: Plan) {
    && p.result.rounding == 0 && p.result.fee >= 0
    && PplnsProperties.NonNegativeLines(p.result.lines) && PplnsProperties.OneLineEach(p.result.lines)
    && Sum(p.result.lines, Pplns.Credit()) + p.result.fee == p.reward
  }

  ghost predicate AllocRow(e: Entry, b: BlockId) {
    && e.amount >= 0 && BlockOfKey(e.key) == Some(b)
    && (e.key.AllocCredit? ==> e.account == MinerConfirmed && e.miner == Some(e.key.miner))
    && (e.key.AllocFee? ==> e.account == PoolFee && e.miner == None)
    && !e.key.AllocRounding?
  }

  function EntryAmount(): Entry -> int {
    (e: Entry) => e.amount
  }

  lemma {:induction false} CreditRows(b: BlockId, lines: seq<Pplns.Line>)
    requires PplnsProperties.NonNegativeLines(lines) && PplnsProperties.OneLineEach(lines)
    ensures KeysUnique(CreditEntries(b, lines))
    ensures Sum(CreditEntries(b, lines), EntryAmount()) == Sum(lines, Pplns.Credit())
    ensures forall e | e in CreditEntries(b, lines) ::
      AllocRow(e, b) && e.key.AllocCredit? && exists l | l in lines :: l.miner == e.key.miner
  {
    if lines != [] {
      var n := |lines| - 1;
      CreditRows(b, lines[..n]);
      var es, e := CreditEntries(b, lines[..n]), Entry(MinerConfirmed, Some(lines[n].miner), lines[n].credit, AllocCredit(b, lines[n].miner));
      assert CreditEntries(b, lines) == es + [e];
      SumSnoc(es, e, EntryAmount());
      assert (es + [e])[..|es|] == es;
      assert lines[n] in lines;
      assert forall l | l in lines[..n] :: l in lines;
    }
  }

  ghost function FeeRow(p: Plan): Entry {
    Entry(PoolFee, None, p.result.fee, AllocFee(p.block))
  }

  /** A proper plan's rows have different keys and add up to the receipt. */
  lemma PlanRows(p: Plan)
    requires Proper(p)
    ensures KeysUnique(Entries(p)) && Sum(Entries(p), EntryAmount()) == p.reward
    ensures forall e | e in Entries(p) :: AllocRow(e, p.block)
  {
    hide *;
    var es, fee := CreditEntries(p.block, p.result.lines), FeeRow(p);
    ProperParts(p);
    CreditRows(p.block, p.result.lines);
    SumSnoc(es, fee, EntryAmount());
    FeeComesLast(es, fee);
  }

  lemma ProperParts(p: Plan)
    requires Proper(p)
    ensures PplnsProperties.NonNegativeLines(p.result.lines) && PplnsProperties.OneLineEach(p.result.lines)
    ensures Entries(p) == CreditEntries(p.block, p.result.lines) + [FeeRow(p)]
    ensures Sum(p.result.lines, Pplns.Credit()) + EntryAmount()(FeeRow(p)) == p.reward
    ensures FeeRow(p).key.AllocFee? && AllocRow(FeeRow(p), p.block)
  {
    hide CreditEntries, PplnsProperties.NonNegativeLines, PplnsProperties.OneLineEach, Sum;
  }

  lemma FeeComesLast(es: seq<Entry>, fee: Entry)
    requires KeysUnique(es) && fee.key.AllocFee? && forall e | e in es :: e.key.AllocCredit?
    ensures KeysUnique(es + [fee])
  {
    assert (es + [fee])[..|es|] == es;
  }

  lemma {:induction false} UniqueAt(l: seq<Entry>, i: nat, j: nat)
    requires KeysUnique(l) && i < j < |l|
    ensures l[i].key != l[j].key
  {
    if j < |l| - 1 {
      UniqueAt(l[..|l| - 1], i, j);
    } else {
      assert l[i] in l[..|l| - 1];
    }
  }

  lemma RowsNonNegative(es: seq<Entry>, b: BlockId)
    requires forall e | e in es :: AllocRow(e, b)
    ensures Sum(es, EntryAmount()) >= 0
  {
    forall i | 0 <= i < |es| ensures EntryAmount()(es[i]) >= 0 {
      assert es[i] in es;
    }
    SumNonNegative(es, EntryAmount());
  }

  lemma PrefixAmount(es: seq<Entry>, k: nat, b: BlockId)
    requires k <= |es| && forall e | e in es :: AllocRow(e, b)
    ensures 0 <= Sum(es[..k], EntryAmount()) <= Sum(es, EntryAmount())
  {
    assert es == es[..k] + es[k..];
    SumAppend(es[..k], es[k..], EntryAmount());
    RowsNonNegative(es[..k], b);
    RowsNonNegative(es[k..], b);
  }

  // ---------- receipts ----------

  /** A confirmed, live receipt over the amount. */
  predicate Backed(rs: seq<R.Receipt>, b: BlockId, reward: nat) {
    exists r | r in rs :: r.block == b && r.confirmed && !r.voided && r.amount == reward
  }

  /** A confirmed receipt over the amount, voided since or not. */
  predicate Recorded(rs: seq<R.Receipt>, b: BlockId, reward: nat) {
    exists r | r in rs :: r.block == b && r.confirmed && r.amount == reward
  }

  lemma {:induction false} RewardIsBacked(rs: seq<R.Receipt>, b: BlockId)
    ensures RewardFor(rs, b).Some? ==> Backed(rs, b, RewardFor(rs, b).value) && Recorded(rs, b, RewardFor(rs, b).value)
  {
    if rs != [] {
      RewardIsBacked(rs[..|rs| - 1], b);
      assert rs == rs[..|rs| - 1] + [rs[|rs| - 1]];
    }
  }

  lemma WriteKeepsRecorded(rs: seq<R.Receipt>, p: R.Pending, b: BlockId, reward: nat)
    requires Recorded(rs, b, reward)
    ensures Recorded(R.Write(rs, p), b, reward)
  {
    R.WriteKeepsRows(rs, p);
    hide R.Write;
    var r :| r in rs && r.block == b && r.confirmed && r.amount == reward;
    var k :| 0 <= k < |rs| && rs[k] == r;
    assert R.Write(rs, p)[k] in R.Write(rs, p);
  }

  // ---------- the invariant ----------

  predicate PlanBlocksUnique(plans: seq<Plan>) {
    plans == [] || (PlanBlocksUnique(plans[..|plans| - 1]) && !Planned(plans[..|plans| - 1], plans[|plans| - 1].block))
  }

  ghost predicate PlanOk(p: Plan, rs: seq<R.Receipt>) {
    Proper(p) && Recorded(rs, p.block, p.reward)
  }

  ghost predicate PlansOk(plans: seq<Plan>, rs: seq<R.Receipt>) {
    PlanBlocksUnique(plans) && forall p | p in plans :: PlanOk(p, rs)
  }

  ghost predicate ProcOk(a: Allocating, plans: seq<Plan>, l: seq<Entry>, rs: seq<R.Receipt>) {
    match a
    case Holding(b, reward) => Recorded(rs, b, reward)
    case Guarded(b, reward) => Recorded(rs, b, reward)
    case Posting(plan, done) => plan in plans && done <= |Entries(plan)| && RowsOf(l, plan.block) == Entries(plan)[..done]
  }

  predicate PostsFor(a: Allocating, b: BlockId) {
    a.Posting? && a.plan.block == b
  }

  ghost predicate ProcsOk(procs: map<nat, Allocating>, plans: seq<Plan>, l: seq<Entry>, rs: seq<R.Receipt>) {
    && (forall p | p in procs :: ProcOk(procs[p], plans, l, rs))
    && (forall p, q, b | p in procs && q in procs && PostsFor(procs[p], b) && PostsFor(procs[q], b) :: p == q)
  }

  ghost predicate PrefixOf(l: seq<Entry>, p: Plan) {
    RowsOf(l, p.block) <= Entries(p)
  }

  ghost predicate NoRows(l: seq<Entry>, b: BlockId) {
    RowsOf(l, b) == []
  }

  ghost predicate RowsOk(l: seq<Entry>, plans: seq<Plan>) {
    && (forall p | p in plans :: PrefixOf(l, p))
    && (forall b | !Planned(plans, b) :: NoRows(l, b))
  }

  ghost predicate Complete(l: seq<Entry>, plans: seq<Plan>, b: BlockId) {
    exists p | p in plans :: p.block == b && RowsOf(l, b) == Entries(p)
  }

  ghost predicate SettledOk(blocks: map<BlockId, BlockState>, l: seq<Entry>, plans: seq<Plan>) {
    forall b | b in blocks && blocks[b] == SettledToLedger :: Complete(l, plans, b)
  }

  ghost predicate AllocInv(s: State) {
    && R.KeysOk(s.receipts)
    && PlansOk(s.plans, s.receipts)
    && ProcsOk(s.allocating, s.plans, s.wallet.ledger, s.receipts)
    && RowsOk(s.wallet.ledger, s.plans)
    && SettledOk(s.blocks, s.wallet.ledger, s.plans)
  }

  // ---------- what leaves it alone ----------

  /** Steps that post no allocation row and touch none of its tables. */
  lemma OtherKeepsAlloc(s: State, s': State)
    requires AllocInv(s) && AppendsOther(s.wallet.ledger, s'.wallet.ledger)
    requires s'.blocks == s.blocks && s'.receipts == s.receipts && s'.plans == s.plans && s'.allocating == s.allocating
    ensures AllocInv(s')
  {
    var l, l' := s.wallet.ledger, s'.wallet.ledger;
    forall b: BlockId ensures RowsOf(l', b) == RowsOf(l, b) {
      OtherRows(l, l', b);
    }
    SameRows(s, s');
  }

  lemma SameRows(s: State, s': State)
    requires AllocInv(s) && forall b: BlockId :: RowsOf(s'.wallet.ledger, b) == RowsOf(s.wallet.ledger, b)
    requires s'.blocks == s.blocks && s'.receipts == s.receipts && s'.plans == s.plans && s'.allocating == s.allocating
    ensures AllocInv(s')
  {
    hide RowsOf, Entries, PlansOk, R.KeysOk, PostsFor;
    var l, l' := s.wallet.ledger, s'.wallet.ledger;
    forall p | p in s.allocating ensures ProcOk(s.allocating[p], s.plans, l', s.receipts) {
      assert ProcOk(s.allocating[p], s.plans, l, s.receipts);
    }
    forall p | p in s.plans ensures PrefixOf(l', p) {
      assert PrefixOf(l, p);
    }
    forall b | !Planned(s.plans, b) ensures NoRows(l', b) {
      assert NoRows(l, b);
    }
    forall b | b in s.blocks && s.blocks[b] == SettledToLedger ensures Complete(l', s.plans, b) {
      assert Complete(l, s.plans, b);
    }
  }

  /** Setting a block to anything but SETTLED_TO_LEDGER, and ending a run. */
  lemma FewerKeepAlloc(s: State, s': State)
    requires AllocInv(s) && s'.wallet == s.wallet && s'.receipts == s.receipts && s'.plans == s.plans
    requires forall b | b in s'.blocks && s'.blocks[b] == SettledToLedger :: b in s.blocks && s.blocks[b] == SettledToLedger
    requires forall p | p in s'.allocating :: p in s.allocating && s'.allocating[p] == s.allocating[p]
    ensures AllocInv(s')
  {
    hide Complete, ProcOk, PostsFor, PlansOk, RowsOk, R.KeysOk;
  }

  /** One run moving on without posting. */
  lemma MoveKeepsAlloc(s: State, s': State, p: nat, a: Allocating)
    requires AllocInv(s) && s'.wallet == s.wallet && s'.receipts == s.receipts && s'.plans == s.plans
    requires forall b | b in s'.blocks && s'.blocks[b] == SettledToLedger :: b in s.blocks && s.blocks[b] == SettledToLedger
    requires s'.allocating == s.allocating[p := a] && !a.Posting? && ProcOk(a, s.plans, s.wallet.ledger, s.receipts)
    ensures AllocInv(s')
  {
    hide Complete, ProcOk, PlansOk, RowsOk, R.KeysOk;
  }

  /** Whatever a reconciler pass writes, however stale, allocations keep dividing a receipt that was confirmed once. */
  lemma IncomeKeepsAlloc(s: State, i: nat)
    requires AllocInv(s) && i < |s.reading|
    ensures AllocInv(Next(s, WriteIncome(i)))
  {
    var rs := R.Write(s.receipts, s.reading[i]);
    R.WriteKeepsKeys(s.receipts, s.reading[i]);
    hide RowsOk, SettledOk, PostsFor, Proper, RowsOf, Entries, R.KeysOk, R.Write, Recorded;
    forall p | p in s.plans ensures PlanOk(p, rs) {
      assert PlanOk(p, s.receipts);
      WriteKeepsRecorded(s.receipts, s.reading[i], p.block, p.reward);
    }
    forall p | p in s.allocating ensures ProcOk(s.allocating[p], s.plans, s.wallet.ledger, rs) {
      var a := s.allocating[p];
      assert ProcOk(a, s.plans, s.wallet.ledger, s.receipts);
      if !a.Posting? {
        WriteKeepsRecorded(s.receipts, s.reading[i], a.block, a.reward);
      }
    }
  }

  // ---------- saving a plan ----------

  lemma PlanIsProper(p: Plan, input: Pplns.Input)
    requires Pplns.Allocate(input) == Ok(p.result) && input.reward == p.reward && 0 <= input.feeBps <= Pplns.BASIS_POINTS
    ensures Proper(p)
  {
    PplnsProperties.ProperAllocation(input);
  }

  lemma PlannedMore(plans: seq<Plan>, p: Plan, b: BlockId)
    ensures Planned(plans + [p], b) <==> Planned(plans, b) || p.block == b
  {
    if Planned(plans, b) {
      var q :| q in plans && q.block == b;
      assert q in plans + [p];
    }
    if p.block == b {
      assert p in plans + [p];
    }
  }

  lemma SaveKeepsPlans(plans: seq<Plan>, p: Plan, rs: seq<R.Receipt>)
    requires PlansOk(plans, rs) && !Planned(plans, p.block) && PlanOk(p, rs)
    ensures PlansOk(plans + [p], rs)
  {
    assert (plans + [p])[..|plans|] == plans;
  }

  lemma SaveKeepsProcs(s: State, pid: nat, p: Plan)
    requires AllocInv(s) && !Planned(s.plans, p.block)
    ensures ProcsOk(s.allocating[pid := Posting(p, 0)], s.plans + [p], s.wallet.ledger, s.receipts)
  {
    hide PlansOk, SettledOk, R.KeysOk, Entries;
    var l, procs' := s.wallet.ledger, s.allocating[pid := Posting(p, 0)];
    assert NoRows(l, p.block);
    assert Entries(p)[..0] == [];
    forall q | q in procs' ensures ProcOk(procs'[q], s.plans + [p], l, s.receipts) {
      if q != pid {
        assert ProcOk(s.allocating[q], s.plans, l, s.receipts);
      }
    }
    forall q | q in s.allocating ensures !PostsFor(s.allocating[q], p.block) {
      assert ProcOk(s.allocating[q], s.plans, l, s.receipts);
    }
  }

  lemma SaveKeepsRows(l: seq<Entry>, plans: seq<Plan>, p: Plan)
    requires RowsOk(l, plans) && !Planned(plans, p.block)
    ensures RowsOk(l, plans + [p])
  {
    hide Entries, RowsOf, Planned;
    assert NoRows(l, p.block);
    forall b | !Planned(plans + [p], b) ensures NoRows(l, b) {
      PlannedMore(plans, p, b);
    }
    forall q | q in plans + [p] ensures PrefixOf(l, q) {
      if q in plans {
        assert PrefixOf(l, q);
      }
    }
  }

  lemma SaveKeepsSettled(blocks: map<BlockId, BlockState>, l: seq<Entry>, plans: seq<Plan>, p: Plan)
    requires SettledOk(blocks, l, plans)
    ensures SettledOk(blocks, l, plans + [p])
  {
    hide Entries, RowsOf;
    forall b | b in blocks && blocks[b] == SettledToLedger ensures Complete(l, plans + [p], b) {
      assert Complete(l, plans, b);
      var q :| q in plans && q.block == b && RowsOf(l, b) == Entries(q);
      assert q in plans + [p];
    }
  }

  lemma SavePlanKeepsAlloc(s: State, pid: nat, input: Pplns.Input)
    requires AllocInv(s) && Enabled(s, SavePlan(pid, input))
    ensures AllocInv(PlanSaved(s, pid, input))
  {
    var Guarded(b, reward) := s.allocating[pid];
    var result := Pplns.Allocate(input);
    if result.Err? || Planned(s.plans, b) {
      FewerKeepAlloc(s, s.(allocating := s.allocating - {pid}));
    } else {
      var p := Plan(b, reward, result.value);
      assert ProcOk(s.allocating[pid], s.plans, s.wallet.ledger, s.receipts);
      PlanIsProper(p, input);
      hide Proper, Recorded, Planned, Entries;
      SaveKeepsPlans(s.plans, p, s.receipts);
      SaveKeepsProcs(s, pid, p);
      SaveKeepsRows(s.wallet.ledger, s.plans, p);
      SaveKeepsSettled(s.blocks, s.wallet.ledger, s.plans, p);
      hide *;
      AllocConclude(s.(plans := s.plans + [p], allocating := s.allocating[pid := Posting(p, 0)]));
      PlanSavedIs(s, pid, input, p);
    }
  }

  lemma PlanSavedIs(s: State, pid: nat, input: Pplns.Input, p: Plan)
    requires Enabled(s, SavePlan(pid, input)) && Pplns.Allocate(input) == Ok(p.result) && s.allocating[pid] == Guarded(p.block, p.reward)
    requires !Planned(s.plans, p.block)
    ensures PlanSaved(s, pid, input) == s.(plans := s.plans + [p], allocating := s.allocating[pid := Posting(p, 0)])
  {
  }

  lemma AllocConclude(s: State)
    requires R.KeysOk(s.receipts) && PlansOk(s.plans, s.receipts)
    requires ProcsOk(s.allocating, s.plans, s.wallet.ledger, s.receipts)
    requires RowsOk(s.wallet.ledger, s.plans) && SettledOk(s.blocks, s.wallet.ledger, s.plans)
    ensures AllocInv(s)
  {
  }

  // ---------- posting a row ----------

  /** The next row of a plan is never in the ledger yet. */
  lemma NextIsNew(l: seq<Entry>, p: Plan, done: nat)
    requires Proper(p) && done < |Entries(p)| && RowsOf(l, p.block) == Entries(p)[..done]
    ensures Post(l, Entries(p)[done]) == l + [Entries(p)[done]]
    ensures AllocRow(Entries(p)[done], p.block)
  {
    PlanRows(p);
    var es := Entries(p);
    assert es[done] in es;
    hide Entries, Proper;
    RowsPosted(l, p.block);
    if Posted(l, es[done].key) {
      var e :| e in l && e.key == es[done].key;
      assert e in es[..done];
      var i :| 0 <= i < done && es[i] == e;
      UniqueAt(es, i, done);
      assert false;
    }
  }

  lemma RowsAfter(l: seq<Entry>, e: Entry, b: BlockId)
    ensures RowsOf(l + [e], b) == RowsOf(l, b) + if BlockOfKey(e.key) == Some(b) then [e] else []
  {
    assert (l + [e])[..|l|] == l;
  }

  lemma SamePlan(plans: seq<Plan>, p: Plan, q: Plan)
    requires PlanBlocksUnique(plans) && p in plans && q in plans && p.block == q.block
    ensures p == q
  {
    if p in plans[..|plans| - 1] && q in plans[..|plans| - 1] {
      SamePlan(plans[..|plans| - 1], p, q);
    } else {
      assert plans == plans[..|plans| - 1] + [plans[|plans| - 1]];
      assert !Planned(plans[..|plans| - 1], p.block);
    }
  }

  lemma Extends(es: seq<Entry>, k: nat)
    requires k < |es|
    ensures es[..k] + [es[k]] == es[..k + 1] && es[..k + 1] <= es
  {
  }

  lemma PostKeepsRows(l: seq<Entry>, plans: seq<Plan>, p: Plan, done: nat)
    requires RowsOk(l, plans) && PlanBlocksUnique(plans) && p in plans
    requires done < |Entries(p)| && RowsOf(l, p.block) == Entries(p)[..done] && BlockOfKey(Entries(p)[done].key) == Some(p.block)
    ensures RowsOk(l + [Entries(p)[done]], plans)
  {
    var e := Entries(p)[done];
    hide Entries, RowsOf;
    Extends(Entries(p), done);
    forall q | q in plans ensures PrefixOf(l + [e], q) {
      RowsAfter(l, e, q.block);
      assert PrefixOf(l, q);
      if q.block == p.block {
        SamePlan(plans, p, q);
      }
    }
    forall b | !Planned(plans, b) ensures NoRows(l + [e], b) {
      RowsAfter(l, e, b);
      assert NoRows(l, b);
    }
  }

  lemma PostKeepsSettled(s: State, p: Plan, done: nat)
    requires SettledOk(s.blocks, s.wallet.ledger, s.plans) && PlanBlocksUnique(s.plans) && p in s.plans
    requires done < |Entries(p)| && RowsOf(s.wallet.ledger, p.block) == Entries(p)[..done]
    requires BlockOfKey(Entries(p)[done].key) == Some(p.block)
    ensures SettledOk(s.blocks, s.wallet.ledger + [Entries(p)[done]], s.plans)
  {
    var l, e := s.wallet.ledger, Entries(p)[done];
    hide Entries, RowsOf;
    forall b | b in s.blocks && s.blocks[b] == SettledToLedger ensures Complete(l + [e], s.plans, b) {
      assert Complete(l, s.plans, b);
      var q :| q in s.plans && q.block == b && RowsOf(l, b) == Entries(q);
      RowsAfter(l, e, b);
      if b == p.block {
        SamePlan(s.plans, p, q);
        assert false;
      }
    }
  }

  /** Another run's standing after one row was posted for a plan it does not post for. */
  lemma OtherProcOk(a: Allocating, plans: seq<Plan>, l: seq<Entry>, rs: seq<R.Receipt>, p: Plan, done: nat)
    requires ProcOk(a, plans, l, rs) && !PostsFor(a, p.block)
    requires done < |Entries(p)| && BlockOfKey(Entries(p)[done].key) == Some(p.block)
    ensures ProcOk(a, plans, l + [Entries(p)[done]], rs)
  {
    hide Entries, RowsOf, Recorded;
    if a.Posting? {
      RowsAfter(l, Entries(p)[done], a.plan.block);
    }
  }

  lemma OwnProcOk(plans: seq<Plan>, l: seq<Entry>, rs: seq<R.Receipt>, p: Plan, done: nat)
    requires done < |Entries(p)| && ProcOk(Posting(p, done), plans, l, rs)
    requires BlockOfKey(Entries(p)[done].key) == Some(p.block)
    ensures ProcOk(Posting(p, done + 1), plans, l + [Entries(p)[done]], rs)
  {
    hide Entries, RowsOf;
    Extends(Entries(p), done);
    RowsAfter(l, Entries(p)[done], p.block);
  }

  lemma PostKeepsProcs(s: State, pid: nat, p: Plan, done: nat)
    requires AllocInv(s) && pid in s.allocating && s.allocating[pid] == Posting(p, done) && done < |Entries(p)|
    requires BlockOfKey(Entries(p)[done].key) == Some(p.block)
    ensures ProcsOk(s.allocating[pid := Posting(p, done + 1)], s.plans, s.wallet.ledger + [Entries(p)[done]], s.receipts)
  {
    var l, e := s.wallet.ledger, Entries(p)[done];
    var procs' := s.allocating[pid := Posting(p, done + 1)];
    assert PostsFor(s.allocating[pid], p.block);
    assert ProcsOk(s.allocating, s.plans, l, s.receipts);
    hide Entries, ProcOk, AllocInv, BlockOfKey;
    OwnProcOk(s.plans, l, s.receipts, p, done);
    forall q | q in s.allocating && q != pid ensures ProcOk(s.allocating[q], s.plans, l + [e], s.receipts) {
      OtherProcOk(s.allocating[q], s.plans, l, s.receipts, p, done);
    }
    forall q, r, b | q in procs' && r in procs' && PostsFor(procs'[q], b) && PostsFor(procs'[r], b) ensures q == r {
      assert PostsFor(s.allocating[q], b) && PostsFor(s.allocating[r], b);
    }
  }

  ghost predicate ReadyToPost(s: State, pid: nat, p: Plan, done: nat) {
    && pid in s.allocating && s.allocating[pid] == Posting(p, done)
    && p in s.plans && PlanOk(p, s.receipts)
    && done <= |Entries(p)| && RowsOf(s.wallet.ledger, p.block) == Entries(p)[..done]
  }

  lemma Ready(s: State, pid: nat)
    requires AllocInv(s) && pid in s.allocating && s.allocating[pid].Posting?
    ensures ReadyToPost(s, pid, s.allocating[pid].plan, s.allocating[pid].done)
  {
    assert ProcOk(s.allocating[pid], s.plans, s.wallet.ledger, s.receipts);
  }

  lemma PostNextKeepsAlloc(s: State, pid: nat)
    requires AllocInv(s) && pid in s.allocating && s.allocating[pid].Posting?
    ensures AllocInv(NextPosted(s, pid))
  {
    var Posting(p, done) := s.allocating[pid];
    Ready(s, pid);
    hide RowsOf, Entries, Proper, Recorded, PostsFor, R.KeysOk, ProcOk;
    if done < |Entries(p)| {
      NextIsNew(s.wallet.ledger, p, done);
      PostKeepsRows(s.wallet.ledger, s.plans, p, done);
      PostKeepsSettled(s, p, done);
      PostKeepsProcs(s, pid, p, done);
      assert AllocInv(NextPosted(s, pid));
    } else {
      FinishKeepsAlloc(s, pid, p);
    }
  }

  lemma FinishKeepsAlloc(s: State, pid: nat, p: Plan)
    requires AllocInv(s) && ReadyToPost(s, pid, p, |Entries(p)|)
    ensures AllocInv(s.(blocks := s.blocks[p.block := SettledToLedger], allocating := s.allocating - {pid}))
  {
    var middle := s.(allocating := s.allocating - {pid});
    FewerKeepAlloc(s, middle);
    hide RowsOf, Entries, Proper, Recorded, PostsFor, R.KeysOk, ProcOk, PlansOk, RowsOk, ProcsOk;
    assert Entries(p)[..|Entries(p)|] == Entries(p);
    assert Complete(s.wallet.ledger, s.plans, p.block);
    hide Complete;
  }

  // ---------- the rows of an allocation, one by one ----------

  lemma {:induction false} CreditRowAt(b: BlockId, lines: seq<Pplns.Line>, k: nat)
    requires k < |lines|
    ensures |CreditEntries(b, lines)| == |lines|
    ensures CreditEntries(b, lines)[k] == Entry(MinerConfirmed, Some(lines[k].miner), lines[k].credit, AllocCredit(b, lines[k].miner))
  {
    var n := |lines| - 1;
    if n > 0 {
      CreditRowAt(b, lines[..n], if k < n then k else 0);
    } else {
      assert lines[..n] == [] && CreditEntries(b, []) == [];
    }
  }

  /** Each miner's own credit, in the order of the lines, then the fee, and a rounding row only if something was rounded away. */
  lemma EntriesAre(p: Plan)
    ensures |Entries(p)| == |p.result.lines| + if p.result.rounding > 0 then 2 else 1
    ensures forall k | 0 <= k < |p.result.lines| ::
      Entries(p)[k] == Entry(MinerConfirmed, Some(p.result.lines[k].miner), p.result.lines[k].credit, AllocCredit(p.block, p.result.lines[k].miner))
    ensures Entries(p)[|p.result.lines|] == Entry(PoolFee, None, p.result.fee, AllocFee(p.block))
    ensures p.result.rounding > 0 ==> Entries(p)[|p.result.lines| + 1] == Entry(Rounding, None, p.result.rounding, AllocRounding(p.block))
  {
    var lines := p.result.lines;
    if lines == [] {
      assert CreditEntries(p.block, lines) == [];
    } else {
      CreditRowAt(p.block, lines, 0);
    }
    forall k | 0 <= k < |lines|
      ensures CreditEntries(p.block, lines)[k] == Entry(MinerConfirmed, Some(lines[k].miner), lines[k].credit, AllocCredit(p.block, lines[k].miner))
    {
      CreditRowAt(p.block, lines, k);
    }
    hide CreditEntries;
  }

  // ---------- receipts read ----------

  /** A confirmed receipt of the block that is not voided. */
  ghost predicate ReceiptOf(r: R.Receipt, b: BlockId) {
    r.block == b && r.confirmed && !r.voided
  }

  /** A reward is read exactly when such a receipt exists, and it is the amount of one of them. */
  lemma {:induction false} RewardIff(rs: seq<R.Receipt>, b: BlockId)
    ensures RewardFor(rs, b).Some? <==> exists r | r in rs :: ReceiptOf(r, b)
    ensures RewardFor(rs, b).Some? ==> exists r | r in rs :: ReceiptOf(r, b) && RewardFor(rs, b).value == r.amount
  {
    if rs != [] {
      var n := |rs| - 1;
      RewardIff(rs[..n], b);
      assert rs[n] in rs && forall r | r in rs[..n] :: r in rs;
      if !ReceiptOf(rs[n], b) {
        assert RewardFor(rs, b) == RewardFor(rs[..n], b);
        forall r | r in rs && ReceiptOf(r, b) ensures r in rs[..n] {
          assert rs == rs[..n] + [rs[n]];
        }
      }
    }
  }

  /** The gate counts each confirmed receipt that is not voided, and nothing else. */
  lemma IncomeCounts(rs: seq<R.Receipt>, r: R.Receipt)
    ensures Received([]) == 0
    ensures Received(rs + [r]) == Received(rs) + if r.confirmed && !r.voided then r.amount else 0
  {
    SumSnoc(rs, r, ConfirmedAmount());
  }
}
