/**
 Canonical, orphan and maturity verdicts: src/accounting/block-tracker.js. Whether a lookup succeeds, and when
 each one happens, is up to the environment; the hash of the pool's own header is a field of the row.
 */
module BlockTracker {
  import opened Wrappers
  import opened Chain

  /** blocks.state; every state the tracker does not select is Beyond. */
  datatype RowState = NodeAccepted | Immature | Orphaned | Mature | Beyond

  /** candidate is None when the row carries no submitted header, so that its hash cannot be recomputed. */
  datatype Row = Row(height: nat, candidate: Option<Hash>, state: RowState, hash: Option<Hash>, foundEpoch: Option<nat>)

  datatype Settings = Settings(maturityEpochs: nat, orphanConfirmations: nat, orphanRecheckDepth: nat)

  datatype Tip = Tip(height: nat, epochNumber: nat)

  /** What one lookup by height returned; None when it failed or found no block. */
  type Lookup = Option<Block>

  predicate Selected(r: Row) {
    r.state in {NodeAccepted, Immature, Orphaned}
  }

  /** The single UPDATE a row's turn ends with, naming the columns it sets; Leave writes nothing. */
  datatype Verdict = Leave | SetCanonical(mature: bool, hash: Hash, epoch: nat) | SetOrphaned | SetMature

  /** What a tick concludes about a row it read as r. */
  function Judge(r: Row, tip: Tip, found: Lookup, s: Settings): Verdict {
    if !Selected(r) || r.height > tip.height then Leave
    else
      var depth := tip.height - r.height;
      if r.state == Orphaned && depth > s.orphanRecheckDepth then Leave
      else if found.None? then Leave
      else if r.state == Immature then
        var blockEpoch := if r.foundEpoch.Some? then r.foundEpoch.value else 0;
        if tip.epochNumber >= blockEpoch + s.maturityEpochs then SetMature else Leave
      else if r.candidate.None? then Leave
      else if r.candidate == Some(found.value.hash) then
        SetCanonical(tip.epochNumber >= found.value.epoch.number + s.maturityEpochs, found.value.hash, found.value.epoch.number)
      else if r.state == NodeAccepted && depth >= s.orphanConfirmations then SetOrphaned
      else Leave
  }

  /** UPDATE blocks SET .. WHERE id = the row's id: whatever state the row is in by now. */
  function Apply(r: Row, v: Verdict): Row {
    match v
    case Leave => r
    case SetCanonical(mature, hash, epoch) =>
      r.(state := if mature then Mature else Immature, hash := Some(hash), foundEpoch := Some(epoch))
    case SetOrphaned => r.(state := Orphaned)
    case SetMature => r.(state := Mature)
  }

  function JudgeAll(rows: seq<Row>, tip: Tip, found: seq<Lookup>, s: Settings): (after: seq<Row>)
    requires |found| == |rows|
    ensures |after| == |rows|
  {
    seq(|rows|, i requires 0 <= i < |rows| => Apply(rows[i], Judge(rows[i], tip, found[i], s)))
  }

  class Tracker {
    var rows: seq<Row>
    const settings: Settings

    constructor (settings: Settings)
      ensures rows == [] && this.settings == settings
    {
      rows := [];
      this.settings := settings;
    }

    method Tick(tip: Tip, found: seq<Lookup>)
      requires |found| == |rows|
      modifies this
      ensures rows == JudgeAll(old(rows), tip, found, settings)
    {
      var selected := rows;
      for i := 0 to |selected|
        invariant |rows| == |selected|
        invariant forall k | 0 <= k < i :: rows[k] == Apply(selected[k], Judge(selected[k], tip, found[k], settings))
        invariant forall k | i <= k < |rows| :: rows[k] == selected[k]
      {
        var b := selected[i];
        if !Selected(b) || b.height > tip.height {
          continue;
        }
        var depth := tip.height - b.height;
        if b.state == Orphaned && depth > settings.orphanRecheckDepth {
          continue;
        }
        if found[i].None? {
          continue;
        }
        var canonical := found[i].value;
        if b.state == NodeAccepted || b.state == Orphaned {
          if b.candidate.None? {
            continue;
          }
          if b.candidate.value == canonical.hash {
            var mature := tip.epochNumber >= canonical.epoch.number + settings.maturityEpochs;
            rows := rows[i := b.(state := if mature then Mature else Immature, hash := Some(canonical.hash),
                                 foundEpoch := Some(canonical.epoch.number))];
          } else if b.state == NodeAccepted && depth >= settings.orphanConfirmations {
            rows := rows[i := b.(state := Orphaned)];
          }
        } else {
          var blockEpoch := if b.foundEpoch.Some? then b.foundEpoch.value else 0;
          if tip.epochNumber >= blockEpoch + settings.maturityEpochs {
            rows := rows[i := b.(state := Mature)];
          }
        }
      }
    }
  }

  // ---------- runs of overlapping ticks ----------

  /** One row's turn in a tick: what was read of it, and when the tip and its height were asked for. */
  datatype Looks = Looks(row: nat, was: Row, tipTime: nat, lookTime: nat, answered: bool)

  datatype State = State(rows: seq<Row>, pending: map<nat, Looks>)

  datatype Step =
    | Begin(turn: nat, looks: Looks)             // a tick has read a row and asked the node about it
    | Finish(turn: nat)                          // and now writes its verdict, whatever has happened since
    | Elsewhere(row: nat, state: RowState)       // another service sets a state, never ORPHANED
    | Arrive(found: Row)                          // a submitted block arrives

  ghost function TipAt(chain: History, t: nat): Tip
    requires chain(t) != []
  {
    var tip := chain(t)[|chain(t)| - 1];
    Tip(|chain(t)| - 1, tip.epoch.number)
  }

  ghost function Answer(chain: History, p: Looks): Lookup {
    if p.answered && p.was.height < |chain(p.lookTime)| then Some(chain(p.lookTime)[p.was.height]) else None
  }

  ghost function VerdictOf(chain: History, s: Settings, p: Looks): Verdict
    requires chain(p.tipTime) != []
  {
    Judge(p.was, TipAt(chain, p.tipTime), Answer(chain, p), s)
  }

  ghost predicate Enabled(chain: History, s: State, step: Step) {
    match step
    case Begin(id, p) =>
      id !in s.pending && p.row < |s.rows| && p.was == s.rows[p.row] && chain(p.tipTime) != [] && p.tipTime <= p.lookTime
    case Finish(id) => id in s.pending && s.pending[id].row < |s.rows| && chain(s.pending[id].tipTime) != []
    case Elsewhere(k, st) => k < |s.rows| && st != Orphaned
    case Arrive(r) => r.state == NodeAccepted
  }

  ghost function Next(chain: History, settings: Settings, s: State, step: Step): State
    requires Enabled(chain, s, step)
  {
    match step
    case Begin(id, p) => s.(pending := s.pending[id := p])
    case Finish(id) =>
      var p := s.pending[id];
      State(s.rows[p.row := Apply(s.rows[p.row], VerdictOf(chain, settings, p))], s.pending - {id})
    case Elsewhere(k, st) => s.(rows := s.rows[k := s.rows[k].(state := st)])
    case Arrive(r) => s.(rows := s.rows + [r])
  }

  ghost predicate Run(chain: History, settings: Settings, states: seq<State>, steps: seq<Step>) {
    && |states| == |steps| + 1 && states[0] == State([], map[])
    && forall i | 0 <= i < |steps| :: Enabled(chain, states[i], steps[i]) && states[i + 1] == Next(chain, settings, states[i], steps[i])
  }

  /** At some moment the block stood at its height with enough blocks on top. */
  ghost predicate FinallyCanonical(chain: History, r: Row, depth: nat) {
    exists t: nat :: CanonicalAt(chain, r, depth, t)
  }

  ghost predicate CanonicalAt(chain: History, r: Row, depth: nat, t: nat) {
    Buried(chain, t, r.height, depth) && r.candidate == Some(chain(t)[r.height].hash)
  }

  ghost predicate Justified(chain: History, r: Row, depth: nat) {
    r.state == Orphaned ==> !FinallyCanonical(chain, r, depth)
  }

  ghost predicate TurnOk(s: State, p: Looks) {
    p.row < |s.rows| && p.was.height == s.rows[p.row].height && p.was.candidate == s.rows[p.row].candidate && p.tipTime <= p.lookTime
  }

  ghost predicate Inv(chain: History, settings: Settings, s: State) {
    && (forall r | r in s.rows :: Justified(chain, r, settings.orphanConfirmations))
    && (forall id | id in s.pending :: TurnOk(s, s.pending[id]))
  }

  /** A mismatch seen below enough blocks is a mismatch at every moment at which the height is that deep. */
  lemma MismatchIsFinal(chain: History, r: Row, depth: nat, t: nat, u: nat)
    requires Final(chain, depth) && t <= u && Buried(chain, t, r.height, depth)
    requires r.height < |chain(u)| && r.candidate != Some(chain(u)[r.height].hash)
    ensures !FinallyCanonical(chain, r, depth)
  {
    forall v: nat ensures !CanonicalAt(chain, r, depth, v) {
    }
  }

  /** Whatever has become of the row, an orphan verdict written into it is justified. */
  lemma VerdictJustified(chain: History, settings: Settings, p: Looks, r: Row)
    requires Final(chain, settings.orphanConfirmations) && chain(p.tipTime) != [] && p.tipTime <= p.lookTime
    requires r.height == p.was.height && r.candidate == p.was.candidate && Justified(chain, r, settings.orphanConfirmations)
    ensures Justified(chain, Apply(r, VerdictOf(chain, settings, p)), settings.orphanConfirmations)
  {
    var v := VerdictOf(chain, settings, p);
    if v.SetOrphaned? {
      assert Buried(chain, p.tipTime, p.was.height, settings.orphanConfirmations);
      MismatchIsFinal(chain, Apply(r, v), settings.orphanConfirmations, p.tipTime, p.lookTime);
    }
  }

  lemma StepKeepsInv(chain: History, settings: Settings, s: State, step: Step)
    requires Final(chain, settings.orphanConfirmations) && Inv(chain, settings, s) && Enabled(chain, s, step)
    ensures Inv(chain, settings, Next(chain, settings, s, step))
  {
    match step
    case Begin(id, p) =>
    case Finish(id) =>
      var p := s.pending[id];
      assert TurnOk(s, p) && s.rows[p.row] in s.rows;
      VerdictJustified(chain, settings, p, s.rows[p.row]);
      hide Final, VerdictOf, Justified;
    case Elsewhere(k, st) =>
      assert s.rows[k] in s.rows && Justified(chain, s.rows[k].(state := st), settings.orphanConfirmations);
      hide Justified, Final;
    case Arrive(r) =>
      assert Justified(chain, r, settings.orphanConfirmations);
      hide Justified, Final;
  }

  /** In no run of ticks, overlapping ones and failed lookups included, is a finally canonical block ORPHANED. */
  lemma {:induction false} NeverOrphaned(chain: History, settings: Settings, states: seq<State>, steps: seq<Step>, i: nat)
    requires Final(chain, settings.orphanConfirmations) && Run(chain, settings, states, steps) && i < |states|
    ensures Inv(chain, settings, states[i])
    ensures forall r | r in states[i].rows && FinallyCanonical(chain, r, settings.orphanConfirmations) :: r.state != Orphaned
  {
    if i > 0 {
      NeverOrphaned(chain, settings, states, steps, i - 1);
      StepKeepsInv(chain, settings, states[i - 1], steps[i - 1]);
    }
    hide Final, Enabled, Next;
  }

  // ---------- rows in other states ----------

  /** A verdict other than Leave is given only on rows read in a selected state, and changes them. */
  lemma VerdictChanges(r: Row, tip: Tip, found: Lookup, s: Settings)
    ensures Judge(r, tip, found, s) != Leave <==> Selected(r) && Apply(r, Judge(r, tip, found, s)) != r
  {
  }

  /**
   A tick changes a row that is ALLOCATED or beyond exactly when it had read the row earlier, in a selected
   state, and its verdict changes what it had read.
   */
  lemma OverwritesIff(chain: History, settings: Settings, s: State, id: nat)
    requires Enabled(chain, s, Finish(id)) && s.rows[s.pending[id].row].state == Beyond
    ensures var p, v := s.pending[id], VerdictOf(chain, settings, s.pending[id]);
      && (Next(chain, settings, s, Finish(id)).rows[p.row] != s.rows[p.row] <==> Selected(p.was) && Apply(p.was, v) != p.was)
      && (forall k | 0 <= k < |s.rows| && k != p.row :: Next(chain, settings, s, Finish(id)).rows[k] == s.rows[k])
  {
    var p := s.pending[id];
    VerdictChanges(p.was, TipAt(chain, p.tipTime), Answer(chain, p), settings);
  }

  ghost predicate Writes(chain: History, settings: Settings, s: State, step: Step, row: nat) {
    match step
    case Elsewhere(k, _) => k == row
    case Finish(id) =>
      id in s.pending && s.pending[id].row == row && chain(s.pending[id].tipTime) != [] && VerdictOf(chain, settings, s.pending[id]) != Leave
    case _ => false
  }

  /** The turn that ends at step k began at step j, and nobody else wrote its row in between. */
  ghost predicate Alone(chain: History, settings: Settings, states: seq<State>, steps: seq<Step>, j: nat, k: nat)
    requires |states| == |steps| + 1
  {
    && j < k < |steps| && steps[j].Begin? && steps[k] == Finish(steps[j].turn)
    && forall n | j < n < k ::
         && (steps[n].Begin? || steps[n].Finish? ==> steps[n].turn != steps[j].turn)
         && !Writes(chain, settings, states[n], steps[n], steps[j].looks.row)
  }

  ghost predicate AllAlone(chain: History, settings: Settings, states: seq<State>, steps: seq<Step>)
    requires |states| == |steps| + 1
  {
    forall k | 0 <= k < |steps| && steps[k].Finish? :: exists j :: Alone(chain, settings, states, steps, j, k)
  }

  lemma QuietStep(chain: History, settings: Settings, s: State, step: Step, id: nat, row: nat)
    requires Enabled(chain, s, step) && row < |s.rows|
    ensures var s' := Next(chain, settings, s, step);
      && |s'.rows| >= |s.rows|
      && (!Writes(chain, settings, s, step, row) ==> s'.rows[row] == s.rows[row])
      && (id in s.pending && (step.Finish? ==> step.turn != id) ==> id in s'.pending && s'.pending[id] == s.pending[id])
  {
    hide Judge, Answer;
  }

  /** What a turn alone on its row writes to is what it read. */
  lemma {:induction false} StillAsRead(chain: History, settings: Settings, states: seq<State>, steps: seq<Step>, j: nat, k: nat, n: nat)
    requires Run(chain, settings, states, steps) && Alone(chain, settings, states, steps, j, k) && j < n <= k
    ensures var p, s := steps[j].looks, states[n];
      && steps[j].turn in s.pending && s.pending[steps[j].turn] == p && p.row < |s.rows| && s.rows[p.row] == p.was
  {
    if n == j + 1 {
      hide Alone, VerdictOf;
    } else {
      StillAsRead(chain, settings, states, steps, j, k, n - 1);
      hide Next, Enabled, Writes, VerdictOf;
      QuietStep(chain, settings, states[n - 1], steps[n - 1], steps[j].turn, steps[j].looks.row);
    }
  }

  /** If turns are alone on their rows, ticks never change a row that is MATURE, ALLOCATED or beyond. */
  lemma OthersUntouched(chain: History, settings: Settings, states: seq<State>, steps: seq<Step>, i: nat, row: nat)
    requires Run(chain, settings, states, steps) && AllAlone(chain, settings, states, steps) && i < |steps|
    requires row < |states[i].rows| && !Selected(states[i].rows[row])
    ensures row < |states[i + 1].rows|
    ensures states[i + 1].rows[row] != states[i].rows[row] ==> steps[i].Elsewhere? && steps[i].row == row
  {
    var s, step := states[i], steps[i];
    QuietStep(chain, settings, s, step, 0, row);
    if step.Finish? {
      var j :| Alone(chain, settings, states, steps, j, i);
      StillAsRead(chain, settings, states, steps, j, i, i);
      var p := s.pending[step.turn];
      VerdictChanges(p.was, TipAt(chain, p.tipTime), Answer(chain, p), settings);
    }
    hide Judge, Alone, AllAlone, Next;
  }

  /** Over any stretch of such a run in which no other service sets the row, it stays as it was. */
  lemma {:induction false} StaysSettled(chain: History, settings: Settings, states: seq<State>, steps: seq<Step>, i: nat, j: nat, row: nat)
    requires Run(chain, settings, states, steps) && AllAlone(chain, settings, states, steps) && i <= j < |states|
    requires row < |states[i].rows| && !Selected(states[i].rows[row])
    requires forall k | i <= k < j && steps[k].Elsewhere? :: steps[k].row != row
    ensures row < |states[j].rows| && states[j].rows[row] == states[i].rows[row]
  {
    assert |states| == |steps| + 1;
    hide Run, AllAlone;
    if i < j {
      StaysSettled(chain, settings, states, steps, i, j - 1, row);
      OthersUntouched(chain, settings, states, steps, j - 1, row);
    }
  }

  /**
   A turn alone on its ORPHANED row restores it exactly when its lookup, within the recheck depth, serves the
   pool's own block; then the row is MATURE or CANONICAL_IMMATURE again.
   */
  lemma Restored(chain: History, settings: Settings, states: seq<State>, steps: seq<Step>, j: nat, k: nat)
    requires Run(chain, settings, states, steps) && Alone(chain, settings, states, steps, j, k) && steps[j].looks.was.state == Orphaned
    ensures var p, tip := steps[j].looks, |chain(steps[j].looks.tipTime)| - 1;
      && p.row < |states[k + 1].rows|
      && (states[k + 1].rows[p.row].state in {Immature, Mature} <==>
            && p.was.height <= tip <= p.was.height + settings.orphanRecheckDepth && p.answered
            && p.was.height < |chain(p.lookTime)| && p.was.candidate == Some(chain(p.lookTime)[p.was.height].hash))
      && (states[k + 1].rows[p.row].state == Orphaned || states[k + 1].rows[p.row].state in {Immature, Mature})
  {
    StillAsRead(chain, settings, states, steps, j, k, k);
    assert Enabled(chain, states[k], steps[k]) && states[k + 1] == Next(chain, settings, states[k], steps[k]);
    hide Alone, Run;
  }

  // ---------- the verdicts ----------

  /** The lookup got an answer, at or below the tip, and this is the block it was. */
  ghost predicate Looked(chain: History, p: Looks, found: Block)
    requires chain(p.tipTime) != []
  {
    && p.answered && p.was.height < |chain(p.tipTime)| && p.was.height < |chain(p.lookTime)|
    && found == chain(p.lookTime)[p.was.height]
  }

  /** The tip's epoch is at least so many epochs after the given one. */
  ghost predicate EpochsPassed(chain: History, t: nat, epoch: nat, epochs: nat)
    requires chain(t) != []
  {
    chain(t)[|chain(t)| - 1].epoch.number >= epoch + epochs
  }

  /** A row found on the chain: MATURE or CANONICAL_IMMATURE by the epochs passed, with the block's hash and epoch. */
  ghost predicate FoundOnChain(chain: History, settings: Settings, p: Looks, found: Block, after: Row)
    requires chain(p.tipTime) != []
  {
    && after.state == (if EpochsPassed(chain, p.tipTime, found.epoch.number, settings.maturityEpochs) then Mature else Immature)
    && after.hash == Some(found.hash) && after.foundEpoch == Some(found.epoch.number)
    && after.height == p.was.height && after.candidate == p.was.candidate
  }

  /**
   What a turn alone on its row makes of it. CANONICAL_IMMATURE becomes MATURE exactly when the lookup answered and
   enough epochs have passed since the recorded one. NODE_ACCEPTED is found on the chain exactly when the lookup gave
   the pool's own block, and is ORPHANED exactly when it gave another one below enough blocks. ORPHANED is found again
   exactly within the recheck depth. Otherwise the row stays as it was.
   */
  lemma TurnsDecide(chain: History, settings: Settings, states: seq<State>, steps: seq<Step>, j: nat, k: nat, found: Block)
    requires Run(chain, settings, states, steps) && Alone(chain, settings, states, steps, j, k)
    ensures chain(steps[j].looks.tipTime) != [] && steps[j].looks.row < |states[k + 1].rows|
    ensures var p, after := steps[j].looks, states[k + 1].rows[steps[j].looks.row];
      var tip := |chain(p.tipTime)| - 1;
      Looked(chain, p, found) ==>
        match p.was.state
        case Immature =>
          after == if EpochsPassed(chain, p.tipTime, if p.was.foundEpoch.Some? then p.was.foundEpoch.value else 0, settings.maturityEpochs)
            then p.was.(state := Mature) else p.was
        case NodeAccepted =>
          if p.was.candidate == Some(found.hash) then FoundOnChain(chain, settings, p, found, after)
          else after == if p.was.candidate.Some? && tip - p.was.height >= settings.orphanConfirmations then p.was.(state := Orphaned) else p.was
        case Orphaned =>
          if p.was.candidate == Some(found.hash) && tip - p.was.height <= settings.orphanRecheckDepth
          then FoundOnChain(chain, settings, p, found, after) else after == p.was
        case _ => after == p.was
    ensures var p := steps[j].looks;
      (forall b :: !Looked(chain, p, b)) ==> states[k + 1].rows[p.row] == p.was
  {
    StillAsRead(chain, settings, states, steps, j, k, k);
    assert Enabled(chain, states[k], steps[k]) && states[k + 1] == Next(chain, settings, states[k], steps[k]);
    var p := steps[j].looks;
    hide Alone, Run;
    if p.answered && p.was.height < |chain(p.tipTime)| && p.was.height < |chain(p.lookTime)| {
      assert Looked(chain, p, chain(p.lookTime)[p.was.height]);
    }
  }

  /** With the source's four epochs, a row found at an epoch turns MATURE exactly when the tracker's comparison says so. */
  lemma MaturesAsCompared(chain: History, settings: Settings, states: seq<State>, steps: seq<Step>, j: nat, k: nat, found: Block, at: Epoch)
    requires Run(chain, settings, states, steps) && Alone(chain, settings, states, steps, j, k) && settings.maturityEpochs == CELLBASE_MATURITY_EPOCHS
    requires steps[j].looks.was.state == Immature && steps[j].looks.was.foundEpoch == Some(at.number)
    requires chain(steps[j].looks.tipTime) != [] && Looked(chain, steps[j].looks, found)
    ensures steps[j].looks.row < |states[k + 1].rows|
    ensures var p := steps[j].looks;
      states[k + 1].rows[p.row].state == Mature <==> TrackerMature(at, chain(p.tipTime)[|chain(p.tipTime)| - 1].epoch)
  {
    TurnsDecide(chain, settings, states, steps, j, k, found);
    hide Run, Alone, Looked;
  }

  // ---------- a row overwritten ----------

  function OwnBlock(): Block {
    Block("own", 0, Epoch(0, 0, 1), "own", [], "")
  }

  function MatureTip(): Block {
    Block("tip", 1, Epoch(CELLBASE_MATURITY_EPOCHS, 0, 1), "tip", [], "")
  }

  /** A chain that never changes. */
  function StillChain(): History {
    (t: nat) => [OwnBlock(), MatureTip()]
  }

  function Submitted(): Row {
    Row(0, Some("own"), NodeAccepted, None, None)
  }

  function Turn(): Looks {
    Looks(0, Submitted(), 0, 0, true)
  }

  function OverlapSteps(): seq<Step> {
    [Arrive(Submitted()), Begin(0, Turn()), Begin(1, Turn()), Finish(0), Elsewhere(0, Beyond), Finish(1)]
  }

  function Found(st: RowState): Row {
    Row(0, Some("own"), st, Some("own"), Some(0))
  }

  function OverlapStates(): seq<State> {
    [State([], map[]), State([Submitted()], map[]), State([Submitted()], map[0 := Turn()]), State([Submitted()], map[0 := Turn(), 1 := Turn()]),
     State([Found(Mature)], map[1 := Turn()]), State([Found(Beyond)], map[1 := Turn()]), State([Found(Mature)], map[])]
  }

  /** Two ticks that overlap, on a chain that never changes: the second takes an allocated row back to MATURE. */
  lemma AllocatedTakenBack(settings: Settings)
    requires settings.maturityEpochs == CELLBASE_MATURITY_EPOCHS
    ensures Run(StillChain(), settings, OverlapStates(), OverlapSteps())
    ensures OverlapStates()[5].rows[0].state == Beyond && OverlapStates()[6].rows[0].state == Mature
  {
    var chain, s, st := StillChain(), OverlapStates(), OverlapSteps();
    assert VerdictOf(chain, settings, Turn()) == SetCanonical(true, "own", 0);
    hide VerdictOf, Judge;
    assert s[3] == Next(chain, settings, s[2], st[2]);
    assert s[4] == Next(chain, settings, s[3], st[3]) by {
      assert map[0 := Turn(), 1 := Turn()] - {0} == map[1 := Turn()];
    }
    assert s[6] == Next(chain, settings, s[5], st[5]) by {
      assert map[1 := Turn()] - {1} == map[];
    }
  }

  // ---------- maturity ----------

  /** Cellbase maturity as consensus measures it, on the full fraction. */
  ghost predicate ConsensusMature(found: Epoch, tip: Epoch)
    requires found.length > 0 && tip.length > 0
  {
    Fraction(tip) >= Fraction(found) + CELLBASE_MATURITY_EPOCHS as real
  }

  predicate TrackerMature(found: Epoch, tip: Epoch) {
    tip.number >= found.number + CELLBASE_MATURITY_EPOCHS
  }

  lemma FractionRange(e: Epoch)
    requires e.index < e.length
    ensures e.number as real <= Fraction(e) < e.number as real + 1.0
  {
    assert e.index as real / e.length as real < 1.0;
  }

  /** Comparing epoch numbers is never later than consensus, and earlier exactly in the epoch where the fraction decides. */
  lemma MatureEarlyIff(found: Epoch, tip: Epoch)
    requires found.index < found.length && tip.index < tip.length
    ensures ConsensusMature(found, tip) ==> TrackerMature(found, tip)
    ensures TrackerMature(found, tip) && !ConsensusMature(found, tip) <==>
      tip.number == found.number + CELLBASE_MATURITY_EPOCHS && tip.index as real / tip.length as real < found.index as real / found.length as real
  {
    FractionRange(found);
    FractionRange(tip);
  }

  /** A tick that nothing disturbs leaves every row as a turn of its own would, taken at the times the tick asked the node. */
  lemma TickTakesTurns(chain: History, settings: Settings, rows: seq<Row>, found: seq<Lookup>, k: nat, p: Looks)
    requires |found| == |rows| && k < |rows| && chain(p.tipTime) != [] && p.tipTime <= p.lookTime
    requires p.row == k && p.was == rows[k] && found[k] == Answer(chain, p)
    ensures var before := State(rows, map[]);
      && Enabled(chain, before, Begin(0, p)) && Enabled(chain, Next(chain, settings, before, Begin(0, p)), Finish(0))
      && Next(chain, settings, Next(chain, settings, before, Begin(0, p)), Finish(0)).rows ==
         rows[k := JudgeAll(rows, TipAt(chain, p.tipTime), found, settings)[k]]
  {
    hide Judge;
  }
}
