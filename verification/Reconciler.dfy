/** Income reconciliation: src/wallet/reconciler.js over the live-only keys of db/migrations/005-receipt-supersede.sql. */
module Reconciler {
  import opened Wrappers
  import opened Sums
  import opened CellbaseWitness
  import opened Chain

  const REWARD_DELAY_BLOCKS: nat := 11

  type BlockId = string

  /** A row of `blocks`: the height and hash the pool recorded for a block it mined. */
  datatype BlockRow = BlockRow(id: BlockId, height: nat, hash: Option<Hash>)

  datatype Receipt = Receipt(
    block: BlockId, height: nat, payoutHeight: nat, payoutTx: Hash, outputIndex: nat,
    lockArgs: seq<Molecule.Byte>, amount: nat, matureAtEpoch: nat, confirmed: bool, voided: bool)

  // ---------- matchReceipt ----------

  function Paying(lock: Script): Output -> int {
    (o: Output) => if o.lock == lock then o.capacity else 0
  }

  predicate Pays(b: Block, lock: Script) {
    exists o | o in b.outputs :: o.lock == lock
  }

  function FirstPaying(outputs: seq<Output>, lock: Script): (k: nat)
    requires exists o | o in outputs :: o.lock == lock
    ensures k < |outputs| && outputs[k].lock == lock && forall j | 0 <= j < k :: outputs[j].lock != lock
  {
    if outputs[0].lock == lock then 0 else 1 + FirstPaying(outputs[1..], lock)
  }

  function MatureAt(e: Epoch): nat {
    e.number + (if e.index > 0 then 1 else 0) + CELLBASE_MATURITY_EPOCHS
  }

  /** None: an unreadable witness, the wrong payout block, or no output paying the witness's lock. */
  function MatchReceipt(row: BlockRow, rewardWitness: string, payout: Block): Option<Receipt> {
    var parsed := ParseCellbaseWitness(rewardWitness);
    if parsed.Err? || payout.number != row.height + REWARD_DELAY_BLOCKS then None
    else
      var lock := parsed.value.lock;
      if !Pays(payout, lock) then None
      else
        SumNonNegative(payout.outputs, Paying(lock));
        Some(Receipt(row.id, row.height, payout.number, payout.cellbaseHash, FirstPaying(payout.outputs, lock),
                     lock.args, Sum(payout.outputs, Paying(lock)), MatureAt(payout.epoch), false, false))
  }

  /** What one pass concludes from its three node reads, before it looks at the table. */
  function Finding(row: BlockRow, mined: Option<Block>, payout: Option<Block>): Option<Receipt> {
    if row.hash.Some? && (mined.None? || mined.value.hash != row.hash.value) then None
    else if mined.None? || payout.None? then None
    else MatchReceipt(row, mined.value.rewardWitness, payout.value)
  }

  // ---------- the receipts table ----------

  predicate LiveFor(r: Receipt, block: BlockId) {
    !r.voided && r.block == block
  }

  predicate LiveOutput(r: Receipt, tx: Hash, index: nat) {
    !r.voided && r.payoutTx == tx && r.outputIndex == index
  }

  /** SELECT .. WHERE block_id = block AND voided_at IS NULL. */
  function Existing(rs: seq<Receipt>, block: BlockId): (k: Option<nat>)
    ensures k.Some? ==> k.value < |rs| && LiveFor(rs[k.value], block)
    ensures k.None? ==> forall r | r in rs :: !LiveFor(r, block)
  {
    if rs == [] then None
    else
      var n := |rs| - 1;
      if LiveFor(rs[n], block) then Some(n) else Existing(rs[..n], block)
  }

  /** INSERT .. ON CONFLICT DO NOTHING; a clash on the live output key is swallowed as well. */
  function Insert(rs: seq<Receipt>, r: Receipt): seq<Receipt> {
    if (exists x | x in rs :: LiveFor(x, r.block)) || (exists x | x in rs :: LiveOutput(x, r.payoutTx, r.outputIndex))
    then rs else rs + [r]
  }

  /** A pass between its SELECT and its write. */
  datatype Pending = Pending(found: Receipt, deep: bool, existing: Option<Seen>)

  /** The row its SELECT returned. */
  datatype Seen = Seen(id: nat, was: Receipt)

  function Read(rs: seq<Receipt>, found: Receipt, deep: bool): Pending {
    var k := Existing(rs, found.block);
    Pending(found, deep, if k.None? then None else Some(Seen(k.value, rs[k.value])))
  }

  /** UPDATE .. WHERE id = k. */
  function Update(rs: seq<Receipt>, k: nat, confirmed: bool, voided: bool): seq<Receipt> {
    if k < |rs| then rs[k := rs[k].(confirmed := rs[k].confirmed || confirmed, voided := rs[k].voided || voided)] else rs
  }

  /** The single statement the pass ends with. */
  function Write(rs: seq<Receipt>, p: Pending): seq<Receipt> {
    if p.existing.None? then Insert(rs, p.found.(confirmed := p.deep))
    else
      var Seen(id, was) := p.existing.value;
      if was.confirmed then rs
      else if was.payoutTx != p.found.payoutTx then Update(rs, id, false, true)
      else if p.deep then Update(rs, id, true, false)
      else rs
  }

  function Deep(row: BlockRow, tip: nat, confirmations: nat): bool {
    tip >= row.height + REWARD_DELAY_BLOCKS + confirmations
  }

  /** One undisturbed pass over one block. */
  function Reconcile(rs: seq<Receipt>, row: BlockRow, tip: nat, mined: Option<Block>, payout: Option<Block>, confirmations: nat): seq<Receipt> {
    var found := Finding(row, mined, payout);
    if row.height + REWARD_DELAY_BLOCKS > tip || found.None? then rs
    else Write(rs, Read(rs, found.value, Deep(row, tip, confirmations)))
  }

  datatype Answer = Answer(mined: Option<Block>, payout: Option<Block>)

  /** One tick: every row without a confirmed live receipt, in the order the work set was read. */
  function Pass(rs: seq<Receipt>, rows: seq<BlockRow>, tip: nat, answers: seq<Answer>, confirmations: nat): seq<Receipt>
    requires |answers| == |rows|
  {
    if rows == [] then rs
    else
      var n := |rows| - 1;
      Reconcile(Pass(rs, rows[..n], tip, answers[..n], confirmations), rows[n], tip, answers[n].mined, answers[n].payout, confirmations)
  }

  class Table {
    var receipts: seq<Receipt>
    const confirmations: nat

    constructor (confirmations: nat)
      ensures receipts == [] && this.confirmations == confirmations
    {
      receipts := [];
      this.confirmations := confirmations;
    }

    method ReconcileBlock(row: BlockRow, tip: nat, mined: Option<Block>, payout: Option<Block>)
      modifies this
      ensures receipts == Reconcile(old(receipts), row, tip, mined, payout, confirmations)
    {
      hide ParseCellbaseWitness, Pays, FirstPaying, Sum, MatureAt;
      var payoutHeight := row.height + REWARD_DELAY_BLOCKS;
      if payoutHeight > tip {
        return;
      }
      if row.hash.Some? && (mined.None? || mined.value.hash != row.hash.value) {
        return;
      }
      if mined.None? || payout.None? {
        return;
      }
      var receipt := MatchReceipt(row, mined.value.rewardWitness, payout.value);
      if receipt.None? {
        return;
      }
      var deep := tip - payoutHeight >= confirmations;
      var existing := Existing(receipts, row.id);
      if existing.None? {
        receipts := Insert(receipts, receipt.value.(confirmed := deep));
        return;
      }
      var k := existing.value;
      if receipts[k].confirmed {
        return;
      }
      if receipts[k].payoutTx != receipt.value.payoutTx {
        receipts := receipts[k := receipts[k].(voided := true)];
        return;
      }
      if deep {
        receipts := receipts[k := receipts[k].(confirmed := true)];
      }
    }

    method Tick(rows: seq<BlockRow>, tip: nat, answers: seq<Answer>)
      requires |answers| == |rows|
      modifies this
      ensures receipts == Pass(old(receipts), rows, tip, answers, confirmations)
    {
      for i := 0 to |rows|
        invariant receipts == Pass(old(receipts), rows[..i], tip, answers[..i], confirmations)
      {
        ReconcileBlock(rows[i], tip, answers[i].mined, answers[i].payout);
        assert rows[..i + 1][..i] == rows[..i] && answers[..i + 1][..i] == answers[..i];
      }
      assert rows[..|rows|] == rows && answers[..|rows|] == answers;
    }
  }

  // ---------- unique keys ----------

  ghost predicate KeysOk(rs: seq<Receipt>) {
    forall i, j | 0 <= i < j < |rs| && !rs[i].voided && !rs[j].voided ::
      rs[i].block != rs[j].block && (rs[i].payoutTx != rs[j].payoutTx || rs[i].outputIndex != rs[j].outputIndex)
  }

  /** Both live-only keys survive every write, stale or not. */
  lemma WriteKeepsKeys(rs: seq<Receipt>, p: Pending)
    requires KeysOk(rs)
    ensures KeysOk(Write(rs, p))
  {
    if p.existing.None? {
      assert forall i | 0 <= i < |rs| :: rs[i] in rs;
    } else if p.existing.value.was.confirmed {
    } else if p.existing.value.was.payoutTx != p.found.payoutTx {
      assert Write(rs, p) == Update(rs, p.existing.value.id, false, true);
    } else if p.deep {
      assert Write(rs, p) == Update(rs, p.existing.value.id, true, false);
    }
  }

  // ---------- runs of possibly overlapping passes ----------

  /** A pass: the row it works on and the moments of its three node reads; a failed read answers nothing. */
  datatype Reads = Reads(row: BlockRow, tipTime: nat, minedTime: nat, payoutTime: nat, minedOk: bool, payoutOk: bool)

  ghost function BlockAt(chain: History, t: nat, h: nat): Option<Block> {
    if h < |chain(t)| then Some(chain(t)[h]) else None
  }

  ghost function FindingOf(chain: History, p: Reads): Option<Receipt> {
    Finding(p.row,
            if p.minedOk then BlockAt(chain, p.minedTime, p.row.height) else None,
            if p.payoutOk then BlockAt(chain, p.payoutTime, p.row.height + REWARD_DELAY_BLOCKS) else None)
  }

  datatype State = State(receipts: seq<Receipt>, pending: seq<Pending>)

  datatype Step = Begin(looks: Reads) | Finish(which: nat)

  /** The rows, the chain and the confirmation depth a run works with. */
  datatype World = World(chain: History, rows: map<BlockId, BlockRow>, confirmations: nat)

  ghost predicate Enabled(w: World, s: State, step: Step) {
    match step
    case Begin(p) =>
      && p.row.id in w.rows && w.rows[p.row.id] == p.row
      && p.tipTime <= p.minedTime <= p.payoutTime
      && |w.chain(p.tipTime)| > p.row.height + REWARD_DELAY_BLOCKS
      && FindingOf(w.chain, p).Some?
    case Finish(i) => i < |s.pending|
  }

  ghost function Next(w: World, s: State, step: Step): State
    requires Enabled(w, s, step)
  {
    match step
    case Begin(p) =>
      State(s.receipts, s.pending + [Read(s.receipts, FindingOf(w.chain, p).value,
                                          Deep(p.row, |w.chain(p.tipTime)| - 1, w.confirmations))])
    case Finish(i) =>
      State(Write(s.receipts, s.pending[i]), s.pending[..i] + s.pending[i + 1..])
  }

  ghost predicate Assumptions(w: World) {
    && Numbered(w.chain) && HashesBind(w.chain) && Final(w.chain, w.confirmations)
    && forall id | id in w.rows :: w.rows[id].id == id && w.rows[id].hash.Some?
  }

  // ---------- what a receipt rests on ----------

  /** The block at H was the recorded one when it was read, and the payout block then paid this amount to its lock. */
  ghost predicate Witnessed(w: World, r: Receipt, t: nat, u: nat) {
    && r.block in w.rows && r.height == w.rows[r.block].height && r.payoutHeight == r.height + REWARD_DELAY_BLOCKS
    && r.height < |w.chain(t)| && r.payoutHeight < |w.chain(u)|
    && Some(w.chain(t)[r.height].hash) == w.rows[r.block].hash
    && ParseCellbaseWitness(w.chain(t)[r.height].rewardWitness).Ok?
    && w.chain(u)[r.payoutHeight].cellbaseHash == r.payoutTx
    && r.amount == Sum(w.chain(u)[r.payoutHeight].outputs, Paying(ParseCellbaseWitness(w.chain(t)[r.height].rewardWitness).value.lock))
  }

  ghost predicate Evidence(w: World, r: Receipt) {
    exists t, u :: Witnessed(w, r, t, u)
  }

  /** At moment t the payout block was buried, was the one the receipt names, and sat above the recorded block. */
  ghost predicate BuriedAt(w: World, r: Receipt, t: nat) {
    && r.block in w.rows && r.height < r.payoutHeight && Buried(w.chain, t, r.payoutHeight, w.confirmations)
    && w.chain(t)[r.payoutHeight].cellbaseHash == r.payoutTx
    && Some(w.chain(t)[r.height].hash) == w.rows[r.block].hash
  }

  /** One of the passes so far worked on the receipt's block and had read the tip at such a moment. */
  ghost predicate SeenBuried(w: World, seen: set<Reads>, r: Receipt) {
    exists p | p in seen :: p.row.id == r.block && BuriedAt(w, r, p.tipTime)
  }

  ghost predicate Sound(w: World, seen: set<Reads>, r: Receipt) {
    Evidence(w, r) && (r.confirmed ==> SeenBuried(w, seen, r))
  }

  ghost predicate PendingSound(w: World, seen: set<Reads>, rs: seq<Receipt>, p: Pending) {
    && Evidence(w, p.found)
    && (p.deep ==> SeenBuried(w, seen, p.found))
    && (p.existing.Some? ==>
          var Seen(k, was) := p.existing.value;
          k < |rs| && was.block == p.found.block && rs[k].(confirmed := was.confirmed, voided := was.voided) == was)
  }

  ghost predicate Inv(w: World, seen: set<Reads>, s: State) {
    && KeysOk(s.receipts)
    && (forall r | r in s.receipts :: Sound(w, seen, r))
    && (forall p | p in s.pending :: PendingSound(w, seen, s.receipts, p))
  }

  lemma FoundIsSound(w: World, p: Reads)
    requires Assumptions(w) && Enabled(w, State([], []), Begin(p))
    ensures var found := FindingOf(w.chain, p).value;
      && Evidence(w, found) && found.block == p.row.id && !found.confirmed && !found.voided
      && (Deep(p.row, |w.chain(p.tipTime)| - 1, w.confirmations) ==> BuriedAt(w, found, p.tipTime))
  {
    hide HashesBind, ParseCellbaseWitness, Sum, FirstPaying, MatureAt;
    var found := FindingOf(w.chain, p).value;
    var h, g := p.row.height, p.row.height + REWARD_DELAY_BLOCKS;
    assert Witnessed(w, found, p.minedTime, p.payoutTime);
    if Deep(p.row, |w.chain(p.tipTime)| - 1, w.confirmations) {
      assert Buried(w.chain, p.tipTime, g, w.confirmations) && Buried(w.chain, p.tipTime, h, w.confirmations);
      assert BuriedAt(w, found, p.tipTime);
    }
  }

  lemma MoreSeen(w: World, seen: set<Reads>, p: Reads, s: State)
    requires Inv(w, seen, s)
    ensures Inv(w, seen + {p}, s)
  {
    hide KeysOk, Evidence, BuriedAt;
  }

  lemma BeginKeepsInv(w: World, seen: set<Reads>, s: State, p: Reads)
    requires Assumptions(w) && Inv(w, seen, s) && Enabled(w, s, Begin(p))
    ensures Inv(w, seen + {p}, Next(w, s, Begin(p)))
  {
    FoundIsSound(w, p);
    hide Assumptions, FindingOf, BuriedAt, KeysOk, Deep;
    MoreSeen(w, seen, p, s);
    var found, deep := FindingOf(w.chain, p).value, Deep(p.row, |w.chain(p.tipTime)| - 1, w.confirmations);
    hide Assumptions, Enabled, FindingOf, Evidence, BuriedAt, KeysOk, Deep;
    ReadIsSound(w, seen + {p}, s.receipts, found, deep);
    hide PendingSound, Sound, Read;
  }

  lemma ReadIsSound(w: World, seen: set<Reads>, rs: seq<Receipt>, found: Receipt, deep: bool)
    requires Evidence(w, found) && (deep ==> SeenBuried(w, seen, found))
    ensures PendingSound(w, seen, rs, Read(rs, found, deep))
  {
  }

  lemma FlagsKeepEvidence(w: World, r: Receipt, confirmed: bool, voided: bool)
    requires Evidence(w, r)
    ensures Evidence(w, r.(confirmed := confirmed, voided := voided))
  {
    hide ParseCellbaseWitness, Sum;
    var t, u :| Witnessed(w, r, t, u);
    assert Witnessed(w, r.(confirmed := confirmed, voided := voided), t, u);
  }

  lemma FlagsKeepBuried(w: World, r: Receipt, like: Receipt, t: nat)
    requires BuriedAt(w, like, t)
    requires r.block == like.block && r.height == like.height && r.payoutHeight == like.payoutHeight && r.payoutTx == like.payoutTx
    ensures BuriedAt(w, r, t)
  {
  }

  lemma FlagsKeepSeen(w: World, seen: set<Reads>, r: Receipt, like: Receipt)
    requires SeenBuried(w, seen, like)
    requires r.block == like.block && r.height == like.height && r.payoutHeight == like.payoutHeight && r.payoutTx == like.payoutTx
    ensures SeenBuried(w, seen, r)
  {
    var p :| p in seen && p.row.id == like.block && BuriedAt(w, like, p.tipTime);
    FlagsKeepBuried(w, r, like, p.tipTime);
  }

  lemma FlaggedSound(w: World, seen: set<Reads>, r: Receipt, confirmed: bool, voided: bool)
    requires Sound(w, seen, r) && (confirmed && !r.confirmed ==> SeenBuried(w, seen, r))
    ensures Sound(w, seen, r.(confirmed := confirmed, voided := voided))
  {
    FlagsKeepEvidence(w, r, confirmed, voided);
    if confirmed {
      FlagsKeepSeen(w, seen, r.(confirmed := confirmed, voided := voided), r);
    }
  }

  /** Confirming or voiding an existing row, and inserting a new one, all leave every row sound. */
  lemma WriteKeepsSound(w: World, seen: set<Reads>, rs: seq<Receipt>, p: Pending)
    requires (forall r | r in rs :: Sound(w, seen, r)) && PendingSound(w, seen, rs, p)
    ensures forall r | r in Write(rs, p) :: Sound(w, seen, r)
  {
    if p.existing.Some? {
      RowStaysSound(w, seen, rs, p);
    } else {
      NewRowSound(w, seen, p);
    }
    hide Sound, PendingSound;
  }

  lemma RowStaysSound(w: World, seen: set<Reads>, rs: seq<Receipt>, p: Pending)
    requires (forall r | r in rs :: Sound(w, seen, r)) && PendingSound(w, seen, rs, p) && p.existing.Some?
    ensures p.existing.value.id < |rs|
    ensures var r, was := rs[p.existing.value.id], p.existing.value.was;
      && Sound(w, seen, r.(voided := true))
      && (p.deep && was.payoutTx == p.found.payoutTx ==> Sound(w, seen, r.(confirmed := true)))
  {
    var Seen(k, was) := p.existing.value;
    assert rs[k] in rs;
    hide Sound, Evidence, SeenBuried;
    DeepSound(w, seen, rs[k], p, was);
    FlaggedSound(w, seen, rs[k], rs[k].confirmed, true);
  }

  lemma NewRowSound(w: World, seen: set<Reads>, p: Pending)
    requires Evidence(w, p.found) && (p.deep ==> SeenBuried(w, seen, p.found))
    ensures Sound(w, seen, p.found.(confirmed := p.deep))
  {
    FlagsKeepEvidence(w, p.found, p.deep, p.found.voided);
    if p.deep {
      FlagsKeepSeen(w, seen, p.found.(confirmed := true), p.found);
    }
    hide Evidence, SeenBuried;
  }

  lemma DeepSound(w: World, seen: set<Reads>, r: Receipt, p: Pending, was: Receipt)
    requires Sound(w, seen, r) && Evidence(w, p.found) && (p.deep ==> SeenBuried(w, seen, p.found))
    requires was.block == p.found.block && r.(confirmed := was.confirmed, voided := was.voided) == was
    ensures p.deep && was.payoutTx == p.found.payoutTx ==> Sound(w, seen, r.(confirmed := true))
  {
    if p.deep && was.payoutTx == p.found.payoutTx {
      SamePlace(w, r, p.found);
      FlagsKeepSeen(w, seen, r, p.found);
      FlaggedSound(w, seen, r, true, r.voided);
    }
  }

  lemma SamePlace(w: World, a: Receipt, b: Receipt)
    requires Evidence(w, a) && Evidence(w, b) && a.block == b.block
    ensures a.height == b.height && a.payoutHeight == b.payoutHeight
  {
  }

  lemma UpdateKeepsRest(rs: seq<Receipt>, id: nat, confirmed: bool, voided: bool, k: nat, x: bool, y: bool)
    requires k < |rs|
    ensures |Update(rs, id, confirmed, voided)| == |rs|
    ensures Update(rs, id, confirmed, voided)[k].(confirmed := x, voided := y) == rs[k].(confirmed := x, voided := y)
  {
  }

  /** A row's identity and evidence never change, so other passes' reads of it stay meaningful. */
  lemma WriteKeepsPending(w: World, seen: set<Reads>, rs: seq<Receipt>, p: Pending, q: Pending)
    requires PendingSound(w, seen, rs, q)
    ensures PendingSound(w, seen, Write(rs, p), q)
  {
    if q.existing.Some? && p.existing.Some? {
      var Seen(k, was) := q.existing.value;
      UpdateKeepsRest(rs, p.existing.value.id, false, true, k, was.confirmed, was.voided);
      UpdateKeepsRest(rs, p.existing.value.id, true, false, k, was.confirmed, was.voided);
    }
  }

  lemma FinishKeepsInv(w: World, seen: set<Reads>, s: State, i: nat)
    requires Inv(w, seen, s) && i < |s.pending|
    ensures Inv(w, seen, Next(w, s, Finish(i)))
  {
    var p := s.pending[i];
    assert p in s.pending;
    WriteKeepsSound(w, seen, s.receipts, p);
    WriteKeepsKeys(s.receipts, p);
    forall q | q in s.pending[..i] + s.pending[i + 1..] ensures PendingSound(w, seen, Write(s.receipts, p), q) {
      WriteKeepsPending(w, seen, s.receipts, p, q);
    }
  }

  // ---------- theorems over every run ----------

  ghost predicate Run(w: World, states: seq<State>, steps: seq<Step>) {
    && |states| == |steps| + 1 && states[0] == State([], [])
    && forall i | 0 <= i < |steps| :: Enabled(w, states[i], steps[i]) && states[i + 1] == Next(w, states[i], steps[i])
  }

  /** The passes begun so far. */
  ghost function Begun(steps: seq<Step>): set<Reads> {
    set k | 0 <= k < |steps| && steps[k].Begin? :: steps[k].looks
  }

  lemma BegunMore(steps: seq<Step>, n: nat)
    requires n < |steps|
    ensures Begun(steps[..n + 1]) == if steps[n].Begin? then Begun(steps[..n]) + {steps[n].looks} else Begun(steps[..n])
  {
    var now, before := steps[..n + 1], steps[..n];
    assert forall k | 0 <= k < n :: now[k] == before[k];
    assert now[n] == steps[n];
  }

  lemma StepKeepsInv(w: World, seen: set<Reads>, s: State, step: Step)
    requires Assumptions(w) && Inv(w, seen, s) && Enabled(w, s, step)
    ensures Inv(w, if step.Begin? then seen + {step.looks} else seen, Next(w, s, step))
  {
    if step.Begin? {
      BeginKeepsInv(w, seen, s, step.looks);
    } else {
      FinishKeepsInv(w, seen, s, step.which);
    }
    hide *;
  }

  lemma {:induction false} RunKeepsInv(w: World, states: seq<State>, steps: seq<Step>, i: nat)
    requires Assumptions(w) && Run(w, states, steps) && i < |states|
    ensures Inv(w, Begun(steps[..i]), states[i])
  {
    hide Assumptions, Inv, Begun, Enabled, Next;
    if i == 0 {
      NothingYet(w, steps);
    } else {
      RunKeepsInv(w, states, steps, i - 1);
      BegunMore(steps, i - 1);
      StepKeepsInv(w, Begun(steps[..i - 1]), states[i - 1], steps[i - 1]);
    }
  }

  lemma NothingYet(w: World, steps: seq<Step>)
    ensures Inv(w, Begun(steps[..0]), State([], []))
  {
  }

  /** The block at H is the recorded one and the payout block gives exactly this amount to its reward lock. */
  ghost predicate TrueAt(w: World, r: Receipt, u: nat) {
    && r.block in w.rows && r.height == w.rows[r.block].height && r.payoutHeight == r.height + REWARD_DELAY_BLOCKS < |w.chain(u)|
    && Some(w.chain(u)[r.height].hash) == w.rows[r.block].hash
    && ParseCellbaseWitness(w.chain(u)[r.height].rewardWitness).Ok?
    && r.amount == Sum(w.chain(u)[r.payoutHeight].outputs, Paying(ParseCellbaseWitness(w.chain(u)[r.height].rewardWitness).value.lock))
  }

  lemma BuriedIsTrue(w: World, r: Receipt, t: nat, u: nat)
    requires Assumptions(w) && Evidence(w, r) && BuriedAt(w, r, t) && t <= u
    ensures TrueAt(w, r, u)
  {
    var a, b :| Witnessed(w, r, a, b);
    var mined, paid := w.chain(a)[r.height], w.chain(b)[r.payoutHeight];
    assert Buried(w.chain, t, r.height, w.confirmations);
    var h, p := w.chain(u)[r.height], w.chain(u)[r.payoutHeight];
    assert Served(w.chain, mined) && Served(w.chain, paid) && Served(w.chain, h) && Served(w.chain, p);
    assert h.hash == mined.hash && p.cellbaseHash == paid.cellbaseHash;
  }

  ghost predicate TrueFrom(w: World, r: Receipt, t: nat) {
    forall u: nat | t <= u :: TrueAt(w, r, u)
  }

  /** Step k began a pass over the receipt's block, and the receipt is true from the moment that pass read the tip. */
  ghost predicate ProvenBy(w: World, r: Receipt, step: Step) {
    step.Begin? && step.looks.row.id == r.block && TrueFrom(w, r, step.looks.tipTime)
  }

  /**
   In every run, overlapping passes included, a confirmed receipt is true for ever from a moment before its
   confirmation: the one at which an earlier pass over its block read the tip.
   */
  lemma ConfirmedIsTrue(w: World, states: seq<State>, steps: seq<Step>, i: nat, r: Receipt)
    requires Assumptions(w) && Run(w, states, steps) && i < |states| && r in states[i].receipts && r.confirmed
    ensures exists k | 0 <= k < i :: ProvenBy(w, r, steps[k])
  {
    hide Assumptions, KeysOk, Evidence, BuriedAt, Enabled, Next, PendingSound, TrueFrom;
    RunKeepsInv(w, states, steps, i);
    assert Sound(w, Begun(steps[..i]), r);
    var p :| p in Begun(steps[..i]) && p.row.id == r.block && BuriedAt(w, r, p.tipTime);
    var k :| 0 <= k < i && steps[..i][k].Begin? && steps[..i][k].looks == p;
    SoundIsTrue(w, r, p.tipTime);
    assert ProvenBy(w, r, steps[k]);
  }

  lemma SoundIsTrue(w: World, r: Receipt, t: nat)
    requires Assumptions(w) && Evidence(w, r) && BuriedAt(w, r, t)
    ensures TrueFrom(w, r, t)
  {
    hide *;
    forall u: nat | t <= u ensures TrueAt(w, r, u) {
      BuriedIsTrue(w, r, t, u);
    }
    FromThen(w, r, t);
  }

  lemma FromThen(w: World, r: Receipt, t: nat)
    requires forall u: nat | t <= u :: TrueAt(w, r, u)
    ensures TrueFrom(w, r, t)
  {
  }

  /** blocks.block_hash is unique. */
  ghost predicate HashesUnique(w: World) {
    forall a, b | a in w.rows && b in w.rows && w.rows[a].hash == w.rows[b].hash :: a == b
  }

  /** Two confirmed receipts never claim the income of one height: block_hash is unique and so is the live receipt of a block. */
  lemma OneClaimPerHeight(w: World, states: seq<State>, steps: seq<Step>, i: nat, j: nat, k: nat)
    requires Assumptions(w) && Run(w, states, steps) && i < |states| && j < k < |states[i].receipts|
    requires HashesUnique(w)
    requires var rs := states[i].receipts;
      rs[j].confirmed && rs[k].confirmed && !rs[j].voided && !rs[k].voided
    ensures states[i].receipts[j].height != states[i].receipts[k].height
  {
    assert |states| == |steps| + 1;
    hide Run, Assumptions, TrueAt, TrueFrom, HashesUnique, ProvenBy;
    var rs := states[i].receipts;
    assert rs[j] in rs && rs[k] in rs;
    ConfirmedIsTrue(w, states, steps, i, rs[j]);
    ConfirmedIsTrue(w, states, steps, i, rs[k]);
    LiveApart(w, states, steps, i, j, k);
    var x :| 0 <= x < i && ProvenBy(w, rs[j], steps[x]);
    var y :| 0 <= y < i && ProvenBy(w, rs[k], steps[y]);
    ProvenApart(w, rs[j], rs[k], steps[x], steps[y]);
  }

  lemma ProvenApart(w: World, a: Receipt, b: Receipt, x: Step, y: Step)
    requires ProvenBy(w, a, x) && ProvenBy(w, b, y) && a.block != b.block && HashesUnique(w)
    ensures a.height != b.height
  {
    hide TrueAt, HashesUnique;
    var t, t' := x.looks.tipTime, y.looks.tipTime;
    TrueTogether(w, a, b, if t <= t' then t' else t);
  }

  lemma LiveApart(w: World, states: seq<State>, steps: seq<Step>, i: nat, j: nat, k: nat)
    requires Assumptions(w) && Run(w, states, steps) && i < |states| && j < k < |states[i].receipts|
    requires !states[i].receipts[j].voided && !states[i].receipts[k].voided
    ensures states[i].receipts[j].block != states[i].receipts[k].block
  {
    RunKeepsInv(w, states, steps, i);
    hide Run, Assumptions, Sound, PendingSound, Begun;
  }

  lemma TrueTogether(w: World, a: Receipt, b: Receipt, u: nat)
    requires TrueAt(w, a, u) && TrueAt(w, b, u) && a.block != b.block
    requires HashesUnique(w)
    ensures a.height != b.height
  {
    hide ParseCellbaseWitness, Sum;
  }

  // ---------- confirmed receipts and undisturbed passes ----------

  /** Whatever the node answers, a pass that nobody disturbs neither changes nor voids a confirmed receipt. */
  lemma ReconcileKeepsConfirmed(rs: seq<Receipt>, row: BlockRow, tip: nat, mined: Option<Block>, payout: Option<Block>, confirmations: nat)
    ensures var rs' := Reconcile(rs, row, tip, mined, payout, confirmations);
      |rs| <= |rs'| && forall k | 0 <= k < |rs| && rs[k].confirmed :: rs'[k] == rs[k]
  {
  }

  lemma {:induction false} PassKeepsConfirmed(rs: seq<Receipt>, rows: seq<BlockRow>, tip: nat, answers: seq<Answer>, confirmations: nat)
    requires |answers| == |rows|
    ensures var rs' := Pass(rs, rows, tip, answers, confirmations);
      |rs| <= |rs'| && forall k | 0 <= k < |rs| && rs[k].confirmed :: rs'[k] == rs[k]
  {
    if rows != [] {
      var n := |rows| - 1;
      PassKeepsConfirmed(rs, rows[..n], tip, answers[..n], confirmations);
      ReconcileKeepsConfirmed(Pass(rs, rows[..n], tip, answers[..n], confirmations), rows[n], tip,
                              answers[n].mined, answers[n].payout, confirmations);
    }
  }

  /** The pass had read row k unconfirmed, under another payout transaction. */
  predicate Withdraws(p: Pending, k: nat) {
    p.existing.Some? && p.existing.value.id == k && !p.existing.value.was.confirmed && p.existing.value.was.payoutTx != p.found.payoutTx
  }

  /** Confirmed rows keep all but their voided mark, whatever is written. */
  lemma WriteKeepsRows(rs: seq<Receipt>, p: Pending)
    ensures |rs| <= |Write(rs, p)|
    ensures forall k | 0 <= k < |rs| ::
      Write(rs, p)[k] == rs[k].(confirmed := Write(rs, p)[k].confirmed, voided := Write(rs, p)[k].voided)
      && (rs[k].confirmed ==> Write(rs, p)[k].confirmed) && (rs[k].voided ==> Write(rs, p)[k].voided)
  {
    if p.existing.None? || p.existing.value.was.confirmed {
    } else if p.existing.value.was.payoutTx != p.found.payoutTx {
      assert Write(rs, p) == Update(rs, p.existing.value.id, false, true);
    } else if p.deep {
      assert Write(rs, p) == Update(rs, p.existing.value.id, true, false);
    }
  }

  /** A confirmed live receipt is voided by a write exactly when its pass withdraws it. */
  lemma VoidsConfirmedIff(rs: seq<Receipt>, p: Pending, k: nat)
    requires k < |rs| && rs[k].confirmed && !rs[k].voided
    ensures |Write(rs, p)| >= |rs|
    ensures Write(rs, p)[k].voided <==> Withdraws(p, k)
  {
    if p.existing.None? {
    } else if p.existing.value.was.confirmed {
    } else if p.existing.value.was.payoutTx != p.found.payoutTx {
      assert Write(rs, p) == Update(rs, p.existing.value.id, false, true);
    } else if p.deep {
      assert Write(rs, p) == Update(rs, p.existing.value.id, true, false);
    }
  }

  // ---------- what a pass finds and does, said once more ----------

  ghost function WorthTo(lock: Script): Output -> int {
    (o: Output) => if o.lock == lock then o.capacity else 0
  }

  /** The first whole epoch number that is four epochs after the block, its fraction included. */
  ghost predicate MaturesIn(e: Epoch, epoch: nat)
    requires e.length > 0
  {
    epoch as real - 1.0 < Fraction(e) + 4.0 <= epoch as real
  }

  lemma MatureAtIs(e: Epoch)
    requires e.index < e.length
    ensures MaturesIn(e, MatureAt(e))
  {
    assert 0.0 <= e.index as real / e.length as real < 1.0;
    assert e.index > 0 ==> e.index as real / e.length as real > 0.0;
  }

  /** A receipt over all a payout block gives one lock, found at the first output that pays it. */
  ghost predicate ReceiptFor(r: Receipt, row: BlockRow, payout: Block, lock: Script)
    requires payout.epoch.length > 0
  {
    && r.block == row.id && r.height == row.height && r.payoutHeight == row.height + 11 == payout.number
    && r.payoutTx == payout.cellbaseHash && r.lockArgs == lock.args && !r.confirmed && !r.voided
    && r.outputIndex < |payout.outputs| && payout.outputs[r.outputIndex].lock == lock
    && (forall j | 0 <= j < r.outputIndex :: payout.outputs[j].lock != lock)
    && r.amount == Sum(payout.outputs, WorthTo(lock)) && MaturesIn(payout.epoch, r.matureAtEpoch)
  }

  /** The lock whose reward the block's witness names, if this is the recorded block, and the payout block pays it. */
  ghost predicate Rewards(row: BlockRow, mined: Block, payout: Block, lock: Script) {
    && (row.hash.Some? ==> mined.hash == row.hash.value) && payout.number == row.height + 11
    && ParseCellbaseWitness(mined.rewardWitness).Ok? && lock == ParseCellbaseWitness(mined.rewardWitness).value.lock
    && exists o | o in payout.outputs :: o.lock == lock
  }

  /** A pass finds something exactly when both blocks are served, the first is the recorded one, and the second pays its lock. */
  lemma FindingMeans(row: BlockRow, mined: Option<Block>, payout: Option<Block>)
    requires payout.Some? ==> payout.value.epoch.index < payout.value.epoch.length
    ensures Finding(row, mined, payout).Some? <==>
      mined.Some? && payout.Some? && exists lock :: Rewards(row, mined.value, payout.value, lock)
    ensures Finding(row, mined, payout).Some? ==>
      exists lock :: Rewards(row, mined.value, payout.value, lock) && ReceiptFor(Finding(row, mined, payout).value, row, payout.value, lock)
  {
    hide ParseCellbaseWitness, Sum, MatureAt, Fraction;
    if mined.Some? && payout.Some? && ParseCellbaseWitness(mined.value.rewardWitness).Ok? {
      var lock := ParseCellbaseWitness(mined.value.rewardWitness).value.lock;
      SumSame(payout.value.outputs, Paying(lock), payout.value.outputs, WorthTo(lock));
      MatureAtIs(payout.value.epoch);
      assert Finding(row, mined, payout).Some? <==> Rewards(row, mined.value, payout.value, lock);
    }
  }

  /** Row k is the block's live receipt. */
  ghost predicate LiveRow(rs: seq<Receipt>, k: nat, block: BlockId) {
    k < |rs| && rs[k].block == block && !rs[k].voided
  }

  /**
   An undisturbed pass that found something: without a live receipt it records one, confirmed if deep enough, unless
   that output is claimed already; it voids an unconfirmed one of another transaction and confirms one that is deep
   enough; a confirmed one it leaves alone.
   */
  ghost predicate PassDone(rs: seq<Receipt>, rs': seq<Receipt>, found: Receipt, deep: bool) {
    && ((exists k: nat :: LiveRow(rs, k, found.block)) ==>
          forall k: nat | LiveRow(rs, k, found.block) ::
            rs' == if rs[k].confirmed then rs
                   else if rs[k].payoutTx != found.payoutTx then rs[k := rs[k].(voided := true)]
                   else if deep then rs[k := rs[k].(confirmed := true)] else rs)
    && ((forall k: nat :: !LiveRow(rs, k, found.block)) ==>
          rs' == if exists x | x in rs :: !x.voided && x.payoutTx == found.payoutTx && x.outputIndex == found.outputIndex
                 then rs else rs + [found.(confirmed := deep)])
  }

  lemma PassMeans(rs: seq<Receipt>, row: BlockRow, tip: nat, mined: Option<Block>, payout: Option<Block>, confirmations: nat)
    requires KeysOk(rs)
    ensures var rs', found := Reconcile(rs, row, tip, mined, payout, confirmations), Finding(row, mined, payout);
      if tip < row.height + 11 || found.None? then rs' == rs
      else PassDone(rs, rs', found.value, tip - (row.height + 11) >= confirmations)
  {
    hide Finding;
    var found := Finding(row, mined, payout);
    if tip >= row.height + 11 && found.Some? {
      var deep := Deep(row, tip, confirmations);
      hide Deep;
      if k: nat :| LiveRow(rs, k, found.value.block) {
        LiveIsExisting(rs, k, found.value.block);
        hide Existing;
        forall j: nat | LiveRow(rs, j, found.value.block) ensures j == k {
          LiveIsExisting(rs, j, found.value.block);
        }
      } else {
        NoneLive(rs, found.value.block);
        hide Existing;
      }
    }
  }

  lemma LiveIsExisting(rs: seq<Receipt>, k: nat, block: BlockId)
    requires KeysOk(rs) && LiveRow(rs, k, block)
    ensures Existing(rs, block) == Some(k)
  {
    var j := Existing(rs, block);
    assert rs[k] in rs;
    hide Existing;
    if j.value < k || k < j.value {
      assert false;
    }
  }

  lemma NoneLive(rs: seq<Receipt>, block: BlockId)
    requires forall k: nat :: !LiveRow(rs, k, block)
    ensures Existing(rs, block).None? && forall r | r in rs :: !LiveFor(r, block)
  {
    var k := Existing(rs, block);
    hide Existing;
    assert k.Some? ==> LiveRow(rs, k.value, block);
    forall r | r in rs ensures !LiveFor(r, block) {
      var j: nat :| j < |rs| && rs[j] == r;
      assert !LiveRow(rs, j, block);
    }
  }

  // ---------- no row is passed over ----------

  /** The table has a receipt for what was found: confirmed or voided if it was deep, or else another block's claim on that output. */
  ghost predicate Covers(r: Receipt, found: Receipt, deep: bool) {
    (r.block == found.block && (!deep || r.confirmed || r.voided))
    || (r.block != found.block && r.payoutTx == found.payoutTx && r.outputIndex == found.outputIndex)
  }

  ghost predicate Covered(rs: seq<Receipt>, found: Receipt, deep: bool) {
    exists k: nat :: k < |rs| && Covers(rs[k], found, deep)
  }

  lemma CoveredNow(rs: seq<Receipt>, found: Receipt, deep: bool)
    ensures Covered(Write(rs, Read(rs, found, deep)), found, deep)
  {
    var k, rs' := Existing(rs, found.block), Write(rs, Read(rs, found, deep));
    hide Existing;
    if k.Some? {
      assert Covers(rs'[k.value], found, deep);
    } else if x :| x in rs && LiveOutput(x, found.payoutTx, found.outputIndex) {
      var i: nat :| i < |rs| && rs[i] == x;
      assert !LiveFor(x, found.block);
      assert rs' == rs;
      assert Covers(rs'[i], found, deep);
    } else {
      assert rs' == rs + [found.(confirmed := deep)];
      assert Covers(rs'[|rs|], found, deep);
    }
  }

  lemma CoveredLater(rs: seq<Receipt>, p: Pending, found: Receipt, deep: bool)
    requires Covered(rs, found, deep)
    ensures Covered(Write(rs, p), found, deep)
  {
    WriteKeepsRows(rs, p);
    var k: nat :| k < |rs| && Covers(rs[k], found, deep);
    hide Write;
    assert Covers(Write(rs, p)[k], found, deep);
  }

  /** After an undisturbed tick, whatever any of its rows was found to have earned is covered. */
  lemma {:induction false} PassCovers(rs: seq<Receipt>, rows: seq<BlockRow>, tip: nat, answers: seq<Answer>, confirmations: nat, k: nat)
    requires |answers| == |rows| && k < |rows| && rows[k].height + 11 <= tip
    ensures var found := Finding(rows[k], answers[k].mined, answers[k].payout);
      found.Some? ==> Covered(Pass(rs, rows, tip, answers, confirmations), found.value, tip >= rows[k].height + 11 + confirmations)
  {
    var n := |rows| - 1;
    var found := Finding(rows[k], answers[k].mined, answers[k].payout);
    var last := Finding(rows[n], answers[n].mined, answers[n].payout);
    var before := Pass(rs, rows[..n], tip, answers[..n], confirmations);
    if found.Some? {
      hide Finding, Write, Read, Covered;
      if k == n {
        CoveredNow(before, found.value, Deep(rows[k], tip, confirmations));
      } else {
        PassCovers(rs, rows[..n], tip, answers[..n], confirmations, k);
        if last.Some? {
          CoveredLater(before, Read(before, last.value, Deep(rows[n], tip, confirmations)), found.value, tip >= rows[k].height + 11 + confirmations);
        }
      }
    }
  }
}
