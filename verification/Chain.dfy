/** The chain as the node serves it over time: it grows, and its newest blocks may be replaced. */
module Chain {
  import opened CellbaseWitness

  type Hash = string

  datatype Epoch = Epoch(number: nat, index: nat, length: nat)

  /** A cellbase output is unspendable for this many epochs. */
  const CELLBASE_MATURITY_EPOCHS: nat := 4

  /** An epoch and the part of it that has passed. */
  function Fraction(e: Epoch): real
    requires e.length > 0
  {
    e.number as real + e.index as real / e.length as real
  }

  datatype Output = Output(lock: Script, capacity: nat)

  /** A block as far as accounting looks at it: its header and its first transaction. */
  datatype Block = Block(hash: Hash, number: nat, epoch: Epoch, cellbaseHash: Hash, outputs: seq<Output>, rewardWitness: string)

  /** What the node's best chain is at each moment; position in the sequence is height. */
  type History = nat -> seq<Block>

  ghost predicate Numbered(chain: History) {
    forall t, h | 0 <= h < |chain(t)| :: chain(t)[h].number == h
  }

  ghost predicate Buried(chain: History, t: nat, h: nat, depth: nat) {
    h + depth < |chain(t)|
  }

  /** No block with `depth` blocks on top of it is ever replaced. */
  ghost predicate Final(chain: History, depth: nat) {
    forall t: nat, u: nat, h: nat | t <= u && Buried(chain, t, h, depth) :: h < |chain(u)| && chain(u)[h] == chain(t)[h]
  }

  ghost predicate Served(chain: History, b: Block) {
    exists t, h :: 0 <= h < |chain(t)| && chain(t)[h] == b
  }

  /** Hashes commit to what they hash: a header hash to its block, a transaction hash to its outputs. */
  ghost predicate HashesBind(chain: History) {
    forall a, b | Served(chain, a) && Served(chain, b) ::
      (a.hash == b.hash ==> a == b) && (a.cellbaseHash == b.cellbaseHash ==> a.outputs == b.outputs)
  }
}
