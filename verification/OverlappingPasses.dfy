/** Two passes that overlap can withdraw a confirmed receipt although no buried block ever changes. */
module OverlappingPasses {
  import opened Wrappers
  import opened CellbaseWitness
  import opened Chain
  import opened Reconciler

  function Name(n: nat, v: char): string {
    seq(n, _ => 'h') + [v]
  }

  /** The block with a given height in branch v; every cellbase pays the same lock. */
  function BlockOf(n: nat, v: char, lock: Script, witnessHex: string): Block {
    Block(Name(n, v), n, Epoch(0, 0, 1), Name(n, v), [Output(lock, 1)], witnessHex)
  }

  function Branch(t: nat, h: nat): char {
    if t == 1 && h == 11 then 'y' else 'x'
  }

  function Length(t: nat): nat {
    if t < 2 then 12 else 13
  }

  /** At moment 1 the tip, height 11, is briefly replaced; at moment 2 it is back with one block on top. */
  function BestChain(t: nat, lock: Script, witnessHex: string): (r: seq<Block>)
    ensures |r| == Length(t)
    ensures forall h | 0 <= h < |r| :: r[h] == BlockOf(h, Branch(t, h), lock, witnessHex)
  {
    seq(Length(t), h requires 0 <= h => BlockOf(h, Branch(t, h), lock, witnessHex))
  }

  function Row(): BlockRow {
    BlockRow("block", 0, Some(Name(0, 'x')))
  }

  function Reorganised(lock: Script, witnessHex: string): World {
    World((t: nat) => BestChain(t, lock, witnessHex), map["block" := Row()], 1)
  }

  function Looks(t: nat): Reads {
    Reads(Row(), t, t, t, true, true)
  }

  function Found(v: char, lock: Script): Receipt {
    Receipt("block", 0, 11, Name(11, v), 0, lock.args, 1, 4, false, false)
  }

  lemma NamesDiffer(m: nat, v: char, n: nat, u: char)
    requires Name(m, v) == Name(n, u)
    ensures m == n && v == u
  {
    assert |Name(m, v)| == m + 1 && |Name(n, u)| == n + 1;
    assert Name(m, v)[m] == v && Name(n, u)[n] == u;
  }

  lemma HashesHold(lock: Script, witnessHex: string)
    ensures HashesBind(Reorganised(lock, witnessHex).chain)
  {
    hide BestChain;
    var chain := Reorganised(lock, witnessHex).chain;
    forall a, b | Served(chain, a) && Served(chain, b)
      ensures (a.hash == b.hash ==> a == b) && (a.cellbaseHash == b.cellbaseHash ==> a.outputs == b.outputs)
    {
      var t: nat, h: nat :| 0 <= h < |chain(t)| && chain(t)[h] == a;
      var u: nat, k: nat :| 0 <= k < |chain(u)| && chain(u)[k] == b;
      assert a == BlockOf(h, Branch(t, h), lock, witnessHex) && b == BlockOf(k, Branch(u, k), lock, witnessHex);
      if a.hash == b.hash {
        NamesDiffer(h, Branch(t, h), k, Branch(u, k));
      }
    }
  }

  lemma FinalHolds(lock: Script, witnessHex: string)
    ensures Numbered(Reorganised(lock, witnessHex).chain) && Final(Reorganised(lock, witnessHex).chain, 1)
  {
    hide BestChain;
    var chain := Reorganised(lock, witnessHex).chain;
    forall t: nat, u: nat, h: nat | t <= u && Buried(chain, t, h, 1) ensures h < |chain(u)| && chain(u)[h] == chain(t)[h] {
      assert Branch(t, h) == Branch(u, h);
    }
  }

  lemma Matches(lock: Script, witnessHex: string, v: char)
    requires ParseCellbaseWitness(witnessHex).Ok? && ParseCellbaseWitness(witnessHex).value.lock == lock
    ensures MatchReceipt(Row(), witnessHex, BlockOf(11, v, lock, witnessHex)) == Some(Found(v, lock))
  {
    hide ParseCellbaseWitness;
    var paid := BlockOf(11, v, lock, witnessHex);
    assert paid.outputs[0] in paid.outputs && paid.outputs[..0] == [];
    assert Sums.Sum(paid.outputs[..0], Paying(lock)) == 0;
    assert Sums.Sum(paid.outputs, Paying(lock)) == 1;
    assert FirstPaying(paid.outputs, lock) == 0;
  }

  lemma PassFinds(lock: Script, witnessHex: string, t: nat)
    requires ParseCellbaseWitness(witnessHex).Ok? && ParseCellbaseWitness(witnessHex).value.lock == lock
    ensures FindingOf(Reorganised(lock, witnessHex).chain, Looks(t)) == Some(Found(Branch(t, 11), lock))
  {
    Matches(lock, witnessHex, Branch(t, 11));
    hide MatchReceipt, ParseCellbaseWitness, BestChain;
    var chain := Reorganised(lock, witnessHex).chain;
    assert BlockAt(chain, t, 0) == Some(BlockOf(0, 'x', lock, witnessHex));
    assert BlockAt(chain, t, 11) == Some(BlockOf(11, Branch(t, 11), lock, witnessHex));
  }

  lemma Begins(lock: Script, witnessHex: string, rs: seq<Receipt>, pending: seq<Pending>, t: nat)
    requires ParseCellbaseWitness(witnessHex).Ok? && ParseCellbaseWitness(witnessHex).value.lock == lock
    ensures Enabled(Reorganised(lock, witnessHex), State(rs, pending), Begin(Looks(t)))
    ensures Next(Reorganised(lock, witnessHex), State(rs, pending), Begin(Looks(t))) ==
      State(rs, pending + [Read(rs, Found(Branch(t, 11), lock), t >= 2)])
  {
    PassFinds(lock, witnessHex, t);
    hide FindingOf, BestChain, Read;
  }

  ghost predicate VoidedAlthoughConfirmed(a: State, b: State, k: nat) {
    && k < |a.receipts| && k < |b.receipts|
    && a.receipts[k].confirmed && !a.receipts[k].voided && b.receipts[k].voided
  }

  function Steps(): seq<Step> {
    [Begin(Looks(0)), Finish(0), Begin(Looks(1)), Begin(Looks(2)), Finish(1), Finish(0)]
  }

  function Stage(lock: Script, i: nat): State {
    var x, y := Found('x', lock), Found('y', lock);
    var first, stale, deep := Pending(x, false, None), Pending(y, false, Some(Seen(0, x))), Pending(x, true, Some(Seen(0, x)));
    if i == 0 then State([], [])
    else if i == 1 then State([], [first])
    else if i == 2 then State([x], [])
    else if i == 3 then State([x], [stale])
    else if i == 4 then State([x], [stale, deep])
    else if i == 5 then State([x.(confirmed := true)], [stale])
    else State([x.(confirmed := true, voided := true)], [])
  }

  function States(lock: Script): (s: seq<State>)
    ensures |s| == 7 && forall i | 0 <= i < 7 :: s[i] == Stage(lock, i)
  {
    seq(7, i requires 0 <= i => Stage(lock, i))
  }

  lemma Finishes(w: World, rs: seq<Receipt>, pending: seq<Pending>, i: nat)
    requires i < |pending|
    ensures Enabled(w, State(rs, pending), Finish(i))
    ensures Next(w, State(rs, pending), Finish(i)) == State(Write(rs, pending[i]), pending[..i] + pending[i + 1..])
  {
  }

  lemma ReadsNothing(found: Receipt)
    ensures Read([], found, false) == Pending(found, false, None)
  {
  }

  lemma FirstWrite(lock: Script)
    ensures Write([], Pending(Found('x', lock), false, None)) == [Found('x', lock)]
  {
  }

  lemma FirstPass(lock: Script, witnessHex: string)
    requires ParseCellbaseWitness(witnessHex).Ok? && ParseCellbaseWitness(witnessHex).value.lock == lock
    ensures var w := Reorganised(lock, witnessHex);
      && Enabled(w, Stage(lock, 0), Begin(Looks(0))) && Stage(lock, 1) == Next(w, Stage(lock, 0), Begin(Looks(0)))
      && Enabled(w, Stage(lock, 1), Finish(0)) && Stage(lock, 2) == Next(w, Stage(lock, 1), Finish(0))
  {
    Begins(lock, witnessHex, [], [], 0);
    FirstWrite(lock);
    hide BestChain, Name, Write, ParseCellbaseWitness, Enabled, Next, Read, Found;
    var p := Pending(Found('x', lock), false, None);
    ReadsNothing(Found('x', lock));
    Finishes(Reorganised(lock, witnessHex), [], [p], 0);
  }

  lemma ReadsX(lock: Script, found: Receipt, deep: bool)
    requires found.block == "block"
    ensures Read([Found('x', lock)], found, deep) == Pending(found, deep, Some(Seen(0, Found('x', lock))))
  {
  }

  lemma TwoPassesRead(lock: Script, witnessHex: string)
    requires ParseCellbaseWitness(witnessHex).Ok? && ParseCellbaseWitness(witnessHex).value.lock == lock
    ensures var w := Reorganised(lock, witnessHex);
      && Enabled(w, Stage(lock, 2), Begin(Looks(1))) && Stage(lock, 3) == Next(w, Stage(lock, 2), Begin(Looks(1)))
      && Enabled(w, Stage(lock, 3), Begin(Looks(2))) && Stage(lock, 4) == Next(w, Stage(lock, 3), Begin(Looks(2)))
  {
    var x, y := Found('x', lock), Found('y', lock);
    ReadsX(lock, y, false);
    ReadsX(lock, x, true);
    Begins(lock, witnessHex, [x], [], 1);
    Begins(lock, witnessHex, [x], [Pending(y, false, Some(Seen(0, x)))], 2);
    hide Enabled, Next, Read, BestChain, Name;
  }

  lemma BothWrite(lock: Script, witnessHex: string)
    ensures var w := Reorganised(lock, witnessHex);
      && Enabled(w, Stage(lock, 4), Finish(1)) && Stage(lock, 5) == Next(w, Stage(lock, 4), Finish(1))
      && Enabled(w, Stage(lock, 5), Finish(0)) && Stage(lock, 6) == Next(w, Stage(lock, 5), Finish(0))
  {
    DeepWrites(lock);
    StaleWrites(lock);
    hide Write, Found;
  }

  lemma DeepWrites(lock: Script)
    ensures var x := Found('x', lock);
      Write([x], Pending(x, true, Some(Seen(0, x)))) == [x.(confirmed := true)]
  {
  }

  lemma StaleWrites(lock: Script)
    ensures var x, y := Found('x', lock), Found('y', lock);
      Write([x.(confirmed := true)], Pending(y, false, Some(Seen(0, x)))) == [x.(confirmed := true, voided := true)]
  {
    NamesAreTwo();
  }

  lemma NamesAreTwo()
    ensures Name(11, 'x') != Name(11, 'y')
  {
    if Name(11, 'x') == Name(11, 'y') {
      NamesDiffer(11, 'x', 11, 'y');
    }
  }

  /** A run within every assumption in which the pass that read the replaced tip voids what another pass has since confirmed. */
  lemma OverlapVoidsConfirmed(lock: Script, witnessHex: string)
    requires ParseCellbaseWitness(witnessHex).Ok? && ParseCellbaseWitness(witnessHex).value.lock == lock
    ensures var w := Reorganised(lock, witnessHex);
      && Assumptions(w) && Run(w, States(lock), Steps())
      && VoidedAlthoughConfirmed(Stage(lock, 5), Stage(lock, 6), 0)
  {
    hide *;
    HashesHold(lock, witnessHex);
    FinalHolds(lock, witnessHex);
    AllAssumed(lock, witnessHex);
    FirstPass(lock, witnessHex);
    TwoPassesRead(lock, witnessHex);
    BothWrite(lock, witnessHex);
    Ends(lock);
    StepList();
    SixSteps(Reorganised(lock, witnessHex), States(lock), Steps());
  }

  lemma AllAssumed(lock: Script, witnessHex: string)
    requires var chain := Reorganised(lock, witnessHex).chain; Numbered(chain) && HashesBind(chain) && Final(chain, 1)
    ensures Assumptions(Reorganised(lock, witnessHex))
  {
    hide Numbered, HashesBind, Final, BestChain;
  }

  lemma Ends(lock: Script)
    ensures Stage(lock, 0) == State([], []) && VoidedAlthoughConfirmed(Stage(lock, 5), Stage(lock, 6), 0)
  {
  }

  lemma StepList()
    ensures var st := Steps();
      && |st| == 6 && st[0] == Begin(Looks(0)) && st[1] == Finish(0) && st[2] == Begin(Looks(1)) && st[3] == Begin(Looks(2))
      && st[4] == Finish(1) && st[5] == Finish(0)
  {
  }

  lemma SixSteps(w: World, s: seq<State>, st: seq<Step>)
    requires |s| == 7 && |st| == 6 && s[0] == State([], [])
    requires Enabled(w, s[0], st[0]) && s[1] == Next(w, s[0], st[0])
    requires Enabled(w, s[1], st[1]) && s[2] == Next(w, s[1], st[1])
    requires Enabled(w, s[2], st[2]) && s[3] == Next(w, s[2], st[2])
    requires Enabled(w, s[3], st[3]) && s[4] == Next(w, s[3], st[3])
    requires Enabled(w, s[4], st[4]) && s[5] == Next(w, s[4], st[4])
    requires Enabled(w, s[5], st[5]) && s[6] == Next(w, s[5], st[5])
    ensures Run(w, s, st)
  {
    hide Enabled, Next;
    forall i | 0 <= i < 6 ensures Enabled(w, s[i], st[i]) && s[i + 1] == Next(w, s[i], st[i]) {
    }
  }
}
