/**
 The append-only ledger of src/accounting/ledger.js. A row is posted at most once per idempotency
 key; every balance is a sum over the rows.
 */
module Ledger {
  import opened Wrappers
  import opened Sums

  // Row ids are uuids; the model only compares them.
  type Miner = string
  type BlockId = string
  type BatchId = string

  datatype Account = MinerConfirmed | MinerPending | MinerPaid | PoolFee | TxFee | Rounding

  /** Idempotency keys. In the source a key is text; every id in it is a uuid, so no two keys below share a text. */
  datatype Key =
    | AllocCredit(block: BlockId, miner: Miner)     // alloc:<block>:<miner>
    | AllocFee(block: BlockId)                      // alloc:<block>:pool-fee
    | AllocRounding(block: BlockId)                 // alloc:<block>:rounding
    | ReserveConfirmed(batch: BatchId, miner: Miner) // payout:reserve:<batch>:<miner>:confirmed
    | ReservePending(batch: BatchId, miner: Miner)  // payout:reserve:<batch>:<miner>:pending
    | PaidCredit(batch: BatchId, miner: Miner)      // payout:paid:<batch>:<miner>
    | PaidPending(batch: BatchId, miner: Miner)     // payout:paid:<batch>:<miner>:pending
    | BatchFee(batch: BatchId)                      // payout:fee:<batch>
    | Forfeit(miner: Miner, seen: nat)           // forfeit:<miner>:<entry id>
    | ForfeitFee(miner: Miner, seen: nat)        // forfeit:<miner>:<entry id>:fee

  datatype Entry = Entry(account: Account, miner: Option<Miner>, amount: int, key: Key)

  predicate Posted(l: seq<Entry>, k: Key) {
    exists e | e in l :: e.key == k
  }

  /** INSERT .. ON CONFLICT (idempotency_key) DO NOTHING. */
  function Post(l: seq<Entry>, e: Entry): seq<Entry> {
    if Posted(l, e.key) then l else l + [e]
  }

  function PostAll(l: seq<Entry>, es: seq<Entry>): seq<Entry> {
    if es == [] then l else Post(PostAll(l, es[..|es| - 1]), es[|es| - 1])
  }

  /** UNIQUE (idempotency_key). */
  predicate KeysUnique(l: seq<Entry>) {
    l == [] || (KeysUnique(l[..|l| - 1]) && !Posted(l[..|l| - 1], l[|l| - 1].key))
  }

  predicate Fresh(l: seq<Entry>, es: seq<Entry>) {
    KeysUnique(es) && forall e | e in es :: !Posted(l, e.key)
  }

  lemma {:induction false} PostAllFresh(l: seq<Entry>, es: seq<Entry>)
    requires Fresh(l, es)
    ensures PostAll(l, es) == l + es
  {
    if es == [] {
      assert l + es == l;
    } else {
      var n := |es| - 1;
      assert es == es[..n] + [es[n]];
      PostAllFresh(l, es[..n]);
      assert !Posted(l + es[..n], es[n].key);
      assert l + es == (l + es[..n]) + [es[n]];
    }
  }

  lemma PostLast(l: seq<Entry>, es: seq<Entry>, x: Entry)
    ensures PostAll(l, es + [x]) == Post(PostAll(l, es), x)
  {
    assert (es + [x])[..|es|] == es;
  }

  /** Whatever is posted, no key ever occurs twice and nothing is removed or changed. */
  lemma {:induction false} PostAllAppends(l: seq<Entry>, es: seq<Entry>)
    ensures l <= PostAll(l, es)
    ensures KeysUnique(l) ==> KeysUnique(PostAll(l, es))
    ensures forall e | e in es :: Posted(PostAll(l, es), e.key)
  {
    if es != [] {
      var n := |es| - 1;
      PostAllAppends(l, es[..n]);
      var before, after := PostAll(l, es[..n]), PostAll(l, es);
      assert after == before || after[..|after| - 1] == before;
      assert es == es[..n] + [es[n]];
      forall e | e in es ensures Posted(after, e.key) {
        if e in es[..n] {
          var f :| f in before && f.key == e.key;
          assert f in after;
        } else if !Posted(before, e.key) {
          assert e in after;
        }
      }
    }
  }

  function Of(account: Account, m: Miner): Entry -> int {
    (e: Entry) => if e.account == account && e.miner == Some(m) then e.amount else 0
  }

  function In(accounts: set<Account>): Entry -> int {
    (e: Entry) => if e.account in accounts then e.amount else 0
  }

  /** balanceFor over one account type. */
  function Balance(l: seq<Entry>, account: Account, m: Miner): int {
    Sum(l, Of(account, m))
  }
}
