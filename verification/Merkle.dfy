/**
 The complete binary Merkle tree of Nervos RFC 0006 as src/mining/ckb-merkle.js computes it in place.
 The hash of two concatenated nodes is an arbitrary function, merge.
 */
module Merkle {
  import opened Wrappers

  type Hash = string

  const ZERO32: Hash := ""

  type Merge = (Hash, Hash) -> Hash

  /** Node i of the tree: 2n - 1 nodes, the leaves last, the children of i at 2i + 1 and 2i + 2. */
  function Node(leaves: seq<Hash>, merge: Merge, i: nat): Hash
    requires i < 2 * |leaves| - 1
    decreases 2 * |leaves| - i
  {
    var n := |leaves|;
    if i >= n - 1 then leaves[i - (n - 1)] else merge(Node(leaves, merge, 2 * i + 1), Node(leaves, merge, 2 * i + 2))
  }

  function Root(leaves: seq<Hash>, merge: Merge): Hash {
    if leaves == [] then ZERO32 else Node(leaves, merge, 0)
  }

  lemma InnerNode(leaves: seq<Hash>, merge: Merge, i: nat)
    requires i < |leaves| - 1
    ensures Node(leaves, merge, i) == merge(Node(leaves, merge, 2 * i + 1), Node(leaves, merge, 2 * i + 2))
  {
  }

  lemma Leaf(leaves: seq<Hash>, merge: Merge, k: nat)
    requires |leaves| - 1 <= k < 2 * |leaves| - 1
    ensures Node(leaves, merge, k) == leaves[k - (|leaves| - 1)]
  {
  }

  method MerkleRoot(leaves: seq<Hash>, merge: Merge) returns (root: Hash)
    ensures root == Root(leaves, merge)
  {
    hide Node;
    if |leaves| == 0 {
      return ZERO32;
    }
    if |leaves| == 1 {
      Leaf(leaves, merge, 0);
      return leaves[0];
    }
    var n := |leaves|;
    var nodes := new Hash[2 * n - 1](k requires 0 <= k < 2 * n - 1 => if k >= n - 1 then leaves[k - (n - 1)] else ZERO32);
    forall k | n - 1 <= k < 2 * n - 1 ensures nodes[k] == Node(leaves, merge, k) {
      Leaf(leaves, merge, k);
    }
    var i := n - 2;
    while i >= 0
      invariant -1 <= i <= n - 2
      invariant forall k | i < k < 2 * n - 1 :: nodes[k] == Node(leaves, merge, k)
    {
      InnerNode(leaves, merge, i);
      nodes[i] := merge(nodes[2 * i + 1], nodes[2 * i + 2]);
      i := i - 1;
    }
    return nodes[0];
  }

  // ---------- the same root by joining the last two nodes again and again ----------

  function Joined(leaves: seq<Hash>, merge: Merge): (s: seq<Hash>)
    requires |leaves| >= 2
    ensures |s| == |leaves| - 1
  {
    var n := |leaves|;
    [merge(leaves[n - 2], leaves[n - 1])] + leaves[..n - 2]
  }

  /** Joining leaves removes the last two nodes of the tree and leaves all others as they were. */
  lemma {:induction false} JoinedNodes(leaves: seq<Hash>, merge: Merge, i: nat)
    requires |leaves| >= 2 && i < 2 * |leaves| - 3
    ensures Node(Joined(leaves, merge), merge, i) == Node(leaves, merge, i)
    decreases 2 * |leaves| - i
  {
    var n := |leaves|;
    if i < n - 2 {
      JoinedNodes(leaves, merge, 2 * i + 1);
      JoinedNodes(leaves, merge, 2 * i + 2);
    }
  }

  lemma JoinedRoot(leaves: seq<Hash>, merge: Merge)
    requires |leaves| >= 2
    ensures Root(Joined(leaves, merge), merge) == Root(leaves, merge)
  {
    JoinedNodes(leaves, merge, 0);
  }

  // ---------- what a root commits to ----------

  datatype Pair = Pair(left: Hash, right: Hash)

  function Of(p: Pair, merge: Merge): Hash {
    merge(p.left, p.right)
  }

  /** Two different pairs with one hash. */
  ghost predicate Collision(p: Pair, q: Pair, merge: Merge) {
    p != q && Of(p, merge) == Of(q, merge)
  }

  /** The pair met while joining both lists that shows a collision, if their roots agree and they do not. */
  function Found(a: seq<Hash>, b: seq<Hash>, merge: Merge): Option<(Pair, Pair)>
    requires |a| == |b|
    decreases |a|
  {
    var n := |a|;
    if n < 2 then None
    else
      var p, q := Pair(a[n - 2], a[n - 1]), Pair(b[n - 2], b[n - 1]);
      if p != q && Of(p, merge) == Of(q, merge) then Some((p, q)) else Found(Joined(a, merge), Joined(b, merge), merge)
  }

  /** Two lists of equal length with the same root are equal, or joining them meets a collision of the hash. */
  lemma {:induction false} RootBinds(a: seq<Hash>, b: seq<Hash>, merge: Merge)
    requires |a| == |b| && Root(a, merge) == Root(b, merge)
    ensures a == b || (Found(a, b, merge).Some? && Collision(Found(a, b, merge).value.0, Found(a, b, merge).value.1, merge))
    decreases |a|
  {
    var n := |a|;
    if n == 1 {
      assert a == [a[0]] && b == [b[0]];
    } else if n >= 2 {
      var p, q := Pair(a[n - 2], a[n - 1]), Pair(b[n - 2], b[n - 1]);
      if !(p != q && Of(p, merge) == Of(q, merge)) {
        JoinedRoot(a, merge);
        JoinedRoot(b, merge);
        var c, d := Joined(a, merge), Joined(b, merge);
        RootBinds(c, d, merge);
        if c == d {
          assert c[0] == d[0];
          assert c[1..] == a[..n - 2] && d[1..] == b[..n - 2];
          assert a == a[..n - 2] + [p.left, p.right] && b == b[..n - 2] + [q.left, q.right];
        }
      }
    }
  }

  ghost predicate Injective(merge: Merge) {
    forall w, x, y, z :: merge(w, x) == merge(y, z) ==> w == y && x == z
  }

  /** With an injective hash, lists of equal length have equal roots only if they are equal. */
  lemma RootInjective(a: seq<Hash>, b: seq<Hash>, merge: Merge)
    requires Injective(merge) && |a| == |b|
    ensures Root(a, merge) == Root(b, merge) <==> a == b
  {
    if Root(a, merge) == Root(b, merge) {
      RootBinds(a, b, merge);
    }
  }

  /** The length matters: a list and its joined form always share their root. */
  lemma LengthsConfused(leaves: seq<Hash>, merge: Merge)
    requires |leaves| >= 2
    ensures Joined(leaves, merge) != leaves && Root(Joined(leaves, merge), merge) == Root(leaves, merge)
  {
    JoinedRoot(leaves, merge);
    assert |Joined(leaves, merge)| != |leaves|;
  }

  /** calcTransactionsRoot over the two lists of transaction and witness hashes. */
  function TransactionsRoot(hashes: seq<Hash>, witnessHashes: seq<Hash>, merge: Merge): Hash {
    Root([Root(hashes, merge), Root(witnessHashes, merge)], merge)
  }

  /** Blocks with as many transactions and the same transactions root carry the same transactions and witnesses. */
  lemma TransactionsRootBinds(a: seq<Hash>, v: seq<Hash>, b: seq<Hash>, w: seq<Hash>, merge: Merge)
    requires Injective(merge) && |a| == |b| && |v| == |w|
    ensures TransactionsRoot(a, v, merge) == TransactionsRoot(b, w, merge) <==> a == b && v == w
  {
    var s, t := [Root(a, merge), Root(v, merge)], [Root(b, merge), Root(w, merge)];
    RootInjective(s, t, merge);
    assert s == t <==> s[0] == t[0] && s[1] == t[1];
    RootInjective(a, b, merge);
    RootInjective(v, w, merge);
  }

  // ---------- the smallest trees ----------

  /** Two nodes are hashed left to right; of three leaves the first joins the hash of the other two from the right. */
  lemma SmallRoots(a: Hash, b: Hash, c: Hash, merge: Merge)
    ensures Root([], merge) == ZERO32 && Root([a], merge) == a && Root([a, b], merge) == merge(a, b)
    ensures Root([a, b, c], merge) == merge(merge(b, c), a)
  {
    JoinedRoot([a, b, c], merge);
    assert Joined([a, b, c], merge) == [merge(b, c), a];
    TwoLeaves(a, b, merge);
    TwoLeaves(merge(b, c), a, merge);
  }

  lemma TwoLeaves(a: Hash, b: Hash, merge: Merge)
    ensures Root([a, b], merge) == merge(a, b)
  {
    Leaf([a, b], merge, 1);
    Leaf([a, b], merge, 2);
  }

  /** The transactions root hashes the root of the transaction hashes, then the root of the witness hashes. */
  lemma TransactionsRootIs(hashes: seq<Hash>, witnessHashes: seq<Hash>, merge: Merge)
    ensures TransactionsRoot(hashes, witnessHashes, merge) == merge(Root(hashes, merge), Root(witnessHashes, merge))
  {
    TwoLeaves(Root(hashes, merge), Root(witnessHashes, merge), merge);
  }
}
