/** The key of a forfeiture names the largest row id seen, and row ids are random: a later credit need not change it. */
module ForfeitKeys {
  import opened Wrappers
  import opened Sums
  import opened Ledger
  import opened Payouts

  predicate Confirms(e: Entry, m: Miner) {
    e.account == MinerConfirmed && e.miner == Some(m)
  }

  /** Among the rows from `from` on, one of the miner's has a larger id than `seen`. */
  ghost predicate LargerId(l: seq<Entry>, from: nat, m: Miner, rowId: nat -> nat, seen: nat) {
    exists k: nat | from <= k < |l| :: Confirms(l[k], m) && rowId(k) > seen
  }

  /** New rows give a new key exactly when one of them has an id above all earlier ones. */
  lemma {:induction false} NewKeyIff(l: seq<Entry>, l': seq<Entry>, m: Miner, rowId: nat -> nat)
    requires l <= l'
    ensures LastSeen(l', m, rowId) >= LastSeen(l, m, rowId)
    ensures LastSeen(l', m, rowId) != LastSeen(l, m, rowId) <==> LargerId(l', |l|, m, rowId, LastSeen(l, m, rowId))
  {
    if |l'| == |l| {
      assert l' == l;
    } else {
      var n := |l'| - 1;
      NewKeyIff(l, l'[..n], m, rowId);
      var seen := LastSeen(l, m, rowId);
      if LargerId(l'[..n], |l|, m, rowId, seen) {
        var k: nat :| |l| <= k < n && Confirms(l'[..n][k], m) && rowId(k) > seen;
        assert Confirms(l'[k], m);
      }
      if LargerId(l', |l|, m, rowId, seen) {
        var k: nat :| |l| <= k <= n && Confirms(l'[k], m) && rowId(k) > seen;
        assert k < n ==> Confirms(l'[..n][k], m);
        assert k == n ==> LastSeen(l', m, rowId) >= rowId(n);
      }
      if LastSeen(l', m, rowId) != LastSeen(l'[..n], m, rowId) {
        assert Confirms(l'[n], m) && rowId(n) > seen;
      }
    }
  }

  function Credit(b: BlockId, amount: int): Entry {
    Entry(MinerConfirmed, Some("m"), amount, AllocCredit(b, "m"))
  }

  function SomeIds(): nat -> nat {
    k => if k == 0 then 5 else if k == 1 then 3 else if k == 2 then 4 else 2
  }

  lemma FirstForfeit()
    ensures var w := Wallet([Credit("a", 10)], map[], []);
      ForfeitOne(w, "m", SomeIds()).ledger == [Credit("a", 10)] + ForfeitEntries("m", 10, 5)
  {
    var l := [Credit("a", 10)];
    assert l[..0] == [];
    assert Sum(l[..0], Of(MinerConfirmed, "m")) == 0;
    assert Balance(l, MinerConfirmed, "m") == 10;
    assert LastSeen(l[..0], "m", SomeIds()) == 0 && LastSeen(l, "m", SomeIds()) == 5;
    var es := ForfeitEntries("m", 10, 5);
    var one := [es[0]];
    assert one[..|one| - 1] == [] && KeysUnique([]) && KeysUnique(one);
    assert es[..|es| - 1] == one;
    PostAllFresh(l, es);
  }

  lemma Larger(l: seq<Entry>, e: Entry, m: Miner, rowId: nat -> nat)
    requires rowId(|l|) <= LastSeen(l, m, rowId)
    ensures LastSeen(l + [e], m, rowId) == LastSeen(l, m, rowId)
  {
    assert (l + [e])[..|l|] == l;
  }

  /** A miner forfeits 10, is credited 7 again and goes dormant again: the second forfeiture is refused although 7 are there. */
  lemma LaterCreditStranded()
    ensures var w := ForfeitOne(Wallet([Credit("a", 10)], map[], []), "m", SomeIds());
      var w' := w.(ledger := w.ledger + [Credit("b", 7)]);
      Balance(w'.ledger, MinerConfirmed, "m") == 7 && ForfeitOne(w', "m", SomeIds()) == w'
  {
    FirstForfeit();
    StillFive();
    SevenLeft();
    var l, es := [Credit("a", 10)], ForfeitEntries("m", 10, 5);
    var w' := l + [es[0]] + [es[1]] + [Credit("b", 7)];
    assert l + es == l + [es[0]] + [es[1]];
    assert w'[1] == es[0] && es[0] in w';
    assert Posted(w', Forfeit("m", 5));
    hide LastSeen, Balance, PostAll;
  }

  /** The later credit's row id is smaller than the first one's, so the largest is unchanged. */
  lemma StillFive()
    ensures var es := ForfeitEntries("m", 10, 5);
      LastSeen([Credit("a", 10)] + [es[0]] + [es[1]] + [Credit("b", 7)], "m", SomeIds()) == 5
  {
    var l, es := [Credit("a", 10)], ForfeitEntries("m", 10, 5);
    assert l[..0] == [];
    assert LastSeen(l[..0], "m", SomeIds()) == 0 && LastSeen(l, "m", SomeIds()) == 5;
    hide LastSeen;
    Larger(l, es[0], "m", SomeIds());
    Larger(l + [es[0]], es[1], "m", SomeIds());
    Larger(l + [es[0]] + [es[1]], Credit("b", 7), "m", SomeIds());
  }

  lemma SevenLeft()
    ensures var es := ForfeitEntries("m", 10, 5);
      Balance([Credit("a", 10)] + [es[0]] + [es[1]] + [Credit("b", 7)], MinerConfirmed, "m") == 7
  {
    var l, es, f := [Credit("a", 10)], ForfeitEntries("m", 10, 5), Of(MinerConfirmed, "m");
    SumSnoc([], l[0], f);
    SumSnoc(l, es[0], f);
    SumSnoc(l + [es[0]], es[1], f);
    SumSnoc(l + [es[0]] + [es[1]], Credit("b", 7), f);
    assert [] + l == l;
    hide Sum;
  }
}
