/** Running the checksum over given symbols, one explicit state after the other. */
module ChecksumSteps {
  import opened Checksum

  /** One step of the checksum. */
  predicate Moves(state: bv32, v: bv32, next: bv32) {
    AdvanceWord(state) ^ v == next
  }

  /** The checksum's state after these symbols. */
  predicate Reached(word: seq<Bits>, state: bv32) {
    Poly(Bits(1), word) == Bits(state)
  }

  lemma Added(state: bv32, v: bv32, next: bv32)
    requires Moves(state, v, next)
    ensures Add(Advance(Bits(state)), Bits(v)) == Bits(next)
  {
    AdvanceIs(Bits(state));
    hide Advance, AdvanceWord;
  }

  lemma Begins()
    ensures Reached([], 0x1)
  {
  }

  lemma One(word: seq<Bits>, state: bv32, v: bv32, next: bv32)
    requires Reached(word, state) && Moves(state, v, next)
    ensures Reached(word + [Bits(v)], next)
  {
    Added(state, v, next);
    hide Advance, Add, Moves;
    assert (word + [Bits(v)])[..|word|] == word;
  }

  lemma Three(word: seq<Bits>, state: bv32, v1: bv32, s1: bv32, v2: bv32, s2: bv32, v3: bv32, s3: bv32)
    requires Reached(word, state) && Moves(state, v1, s1) && Moves(s1, v2, s2) && Moves(s2, v3, s3)
    ensures Reached(word + [Bits(v1), Bits(v2), Bits(v3)], s3)
  {
    hide Moves, Reached;
    One(word, state, v1, s1);
    One(word + [Bits(v1)], s1, v2, s2);
    One(word + [Bits(v1)] + [Bits(v2)], s2, v3, s3);
    assert word + [Bits(v1)] + [Bits(v2)] + [Bits(v3)] == word + [Bits(v1), Bits(v2), Bits(v3)];
  }
}
