/**
 Published valid texts: the first two of the shortest kind in BIP-173 and BIP-350, and one of BIP-173 that uses every
 data character. They tie each variant to its constant, and fix the alphabet and the checksum's generators.
 */
module PublishedTexts {
  import opened Wrappers
  import opened Radix
  import opened ConvertBits
  import opened Checksum
  import opened ChecksumSteps
  import opened Bech32
  import opened Bech32Properties

  lemma PlainMoves()
    ensures Moves(0x1, 3, 0x23)
    ensures Moves(0x23, 0, 0x460)
    ensures Moves(0x460, 1, 0x8c01)
    ensures Moves(0x8c01, 10, 0x11802a)
    ensures Moves(0x11802a, 28, 0x230055c)
    ensures Moves(0x230055c, 25, 0x3d6afc2b)
    ensures Moves(0x3d6afc2b, 31, 0x2f84386)
    ensures Moves(0x2f84386, 20, 0x24622766)
    ensures Moves(0x24622766, 31, 0x1)
  {
  }

  lemma PlainState()
    ensures Reached([Bits(3), Bits(0), Bits(1), Bits(10), Bits(28), Bits(25), Bits(31), Bits(20), Bits(31)], 0x1)
  {
    hide Reached, Moves;
    PlainMoves();
    Begins();
    Three([], 0x1, 3, 0x23, 0, 0x460, 1, 0x8c01);
    var now := [] + [Bits(3), Bits(0), Bits(1)];
    Three(now, 0x8c01, 10, 0x11802a, 28, 0x230055c, 25, 0x3d6afc2b);
    now := now + [Bits(10), Bits(28), Bits(25)];
    Three(now, 0x3d6afc2b, 31, 0x2f84386, 20, 0x24622766, 31, 0x1);
    now := now + [Bits(31), Bits(20), Bits(31)];
    assert now == [Bits(3), Bits(0), Bits(1), Bits(10), Bits(28), Bits(25), Bits(31), Bits(20), Bits(31)];
  }

  lemma ModifiedMoves()
    ensures Moves(0x1, 3, 0x23)
    ensures Moves(0x23, 0, 0x460)
    ensures Moves(0x460, 1, 0x8c01)
    ensures Moves(0x8c01, 31, 0x11803f)
    ensures Moves(0x11803f, 0, 0x23007e0)
    ensures Moves(0x23007e0, 9, 0x3d6aabbb)
    ensures Moves(0x3d6aabbb, 19, 0x2f2b18a)
    ensures Moves(0x2f2b18a, 17, 0x253c66e3)
    ensures Moves(0x253c66e3, 29, 0x2bc830a3)
  {
  }

  lemma ModifiedState()
    ensures Reached([Bits(3), Bits(0), Bits(1), Bits(31), Bits(0), Bits(9), Bits(19), Bits(17), Bits(29)], 0x2bc830a3)
  {
    hide Reached, Moves;
    ModifiedMoves();
    Begins();
    Three([], 0x1, 3, 0x23, 0, 0x460, 1, 0x8c01);
    var now := [] + [Bits(3), Bits(0), Bits(1)];
    Three(now, 0x8c01, 31, 0x11803f, 0, 0x23007e0, 9, 0x3d6aabbb);
    now := now + [Bits(31), Bits(0), Bits(9)];
    Three(now, 0x3d6aabbb, 19, 0x2f2b18a, 17, 0x253c66e3, 29, 0x2bc830a3);
    now := now + [Bits(19), Bits(17), Bits(29)];
    assert now == [Bits(3), Bits(0), Bits(1), Bits(31), Bits(0), Bits(9), Bits(19), Bits(17), Bits(29)];
  }

  lemma PrefixMoves()
    ensures Moves(0x1, 3, 0x23)
    ensures Moves(0x23, 3, 0x463)
    ensures Moves(0x463, 3, 0x8c63)
    ensures Moves(0x8c63, 3, 0x118c63)
    ensures Moves(0x118c63, 3, 0x2318c63)
    ensures Moves(0x2318c63, 3, 0x3d5bdbd1)
    ensures Moves(0x3d5bdbd1, 0, 0x4dcbcd9)
    ensures Moves(0x4dcbcd9, 1, 0x3dc7154c)
    ensures Moves(0x3dc7154c, 2, 0x17456f7b)
    ensures Moves(0x17456f7b, 3, 0x8d50561)
    ensures Moves(0x8d50561, 4, 0x401b5de)
    ensures Moves(0x401b5de, 5, 0x266635a8)
    ensures Moves(0x266635a8, 6, 0x3be80e6a)
  {
  }

  lemma PrefixState()
    ensures Reached([Bits(3), Bits(3), Bits(3), Bits(3), Bits(3), Bits(3), Bits(0), Bits(1), Bits(2), Bits(3), Bits(4), Bits(5), Bits(6)], 0x3be80e6a)
  {
    hide Reached, Moves;
    PrefixMoves();
    Begins();
    Three([], 0x1, 3, 0x23, 3, 0x463, 3, 0x8c63);
    var now := [] + [Bits(3), Bits(3), Bits(3)];
    Three(now, 0x8c63, 3, 0x118c63, 3, 0x2318c63, 3, 0x3d5bdbd1);
    now := now + [Bits(3), Bits(3), Bits(3)];
    Three(now, 0x3d5bdbd1, 0, 0x4dcbcd9, 1, 0x3dc7154c, 2, 0x17456f7b);
    now := now + [Bits(0), Bits(1), Bits(2)];
    Three(now, 0x17456f7b, 3, 0x8d50561, 4, 0x401b5de, 5, 0x266635a8);
    now := now + [Bits(3), Bits(4), Bits(5)];
    One(now, 0x266635a8, 6, 0x3be80e6a);
    now := now + [Bits(6)];
    assert now == [Bits(3), Bits(3), Bits(3), Bits(3), Bits(3), Bits(3), Bits(0), Bits(1), Bits(2), Bits(3), Bits(4), Bits(5), Bits(6)];
  }

  lemma FirstMoves()
    ensures Moves(0x3be80e6a, 0, 0xf9cd266)
    ensures Moves(0xf9cd266, 1, 0x30018ce4)
    ensures Moves(0x30018ce4, 2, 0x1767cdec)
    ensures Moves(0x1767cdec, 3, 0xc815781)
    ensures Moves(0xc815781, 4, 0x28db67b3)
    ensures Moves(0x28db67b3, 5, 0x2fd98d2c)
    ensures Moves(0x2fd98d2c, 6, 0x12be0710)
    ensures Moves(0x12be0710, 7, 0x11e88668)
    ensures Moves(0x11e88668, 8, 0x52fed5)
    ensures Moves(0x52fed5, 9, 0xa5fdaa9)
    ensures Moves(0xa5fdaa9, 10, 0x2e301b62)
    ensures Moves(0x2e301b62, 11, 0x2f8ccedd)
  {
  }

  lemma FirstState(word: seq<Bits>)
    requires Reached(word, 0x3be80e6a)
    ensures Reached(word + [Bits(0), Bits(1), Bits(2), Bits(3), Bits(4), Bits(5), Bits(6), Bits(7), Bits(8), Bits(9), Bits(10), Bits(11)], 0x2f8ccedd)
  {
    hide Reached, Moves;
    FirstMoves();
    Three(word, 0x3be80e6a, 0, 0xf9cd266, 1, 0x30018ce4, 2, 0x1767cdec);
    var now := word + [Bits(0), Bits(1), Bits(2)];
    Three(now, 0x1767cdec, 3, 0xc815781, 4, 0x28db67b3, 5, 0x2fd98d2c);
    now := now + [Bits(3), Bits(4), Bits(5)];
    Three(now, 0x2fd98d2c, 6, 0x12be0710, 7, 0x11e88668, 8, 0x52fed5);
    now := now + [Bits(6), Bits(7), Bits(8)];
    Three(now, 0x52fed5, 9, 0xa5fdaa9, 10, 0x2e301b62, 11, 0x2f8ccedd);
    now := now + [Bits(9), Bits(10), Bits(11)];
    assert now == word + [Bits(0), Bits(1), Bits(2), Bits(3), Bits(4), Bits(5), Bits(6), Bits(7), Bits(8), Bits(9), Bits(10), Bits(11)];
  }

  lemma SecondMoves()
    ensures Moves(0x2f8ccedd, 12, 0x1816793a)
    ensures Moves(0x1816793a, 13, 0x212c0d6a)
    ensures Moves(0x212c0d6a, 14, 0xf95cffd)
    ensures Moves(0xf95cffd, 15, 0x31223f8a)
    ensures Moves(0x31223f8a, 16, 0x3311a03e)
    ensures Moves(0x3311a03e, 17, 0xe08010d)
    ensures Moves(0xe08010d, 18, 0x29be197)
    ensures Moves(0x29be197, 19, 0x28166541)
    ensures Moves(0x28166541, 20, 0x3679d37d)
    ensures Moves(0x3679d37d, 21, 0x556e704)
    ensures Moves(0x556e704, 22, 0xc8c6efb)
    ensures Moves(0xc8c6efb, 23, 0x297c48e0)
  {
  }

  lemma SecondState(word: seq<Bits>)
    requires Reached(word, 0x2f8ccedd)
    ensures Reached(word + [Bits(12), Bits(13), Bits(14), Bits(15), Bits(16), Bits(17), Bits(18), Bits(19), Bits(20), Bits(21), Bits(22), Bits(23)], 0x297c48e0)
  {
    hide Reached, Moves;
    SecondMoves();
    Three(word, 0x2f8ccedd, 12, 0x1816793a, 13, 0x212c0d6a, 14, 0xf95cffd);
    var now := word + [Bits(12), Bits(13), Bits(14)];
    Three(now, 0xf95cffd, 15, 0x31223f8a, 16, 0x3311a03e, 17, 0xe08010d);
    now := now + [Bits(15), Bits(16), Bits(17)];
    Three(now, 0xe08010d, 18, 0x29be197, 19, 0x28166541, 20, 0x3679d37d);
    now := now + [Bits(18), Bits(19), Bits(20)];
    Three(now, 0x3679d37d, 21, 0x556e704, 22, 0xc8c6efb, 23, 0x297c48e0);
    now := now + [Bits(21), Bits(22), Bits(23)];
    assert now == word + [Bits(12), Bits(13), Bits(14), Bits(15), Bits(16), Bits(17), Bits(18), Bits(19), Bits(20), Bits(21), Bits(22), Bits(23)];
  }

  lemma LastMoves()
    ensures Moves(0x297c48e0, 24, 0x1b3c6751)
    ensures Moves(0x1b3c6751, 25, 0x3f0597ac)
    ensures Moves(0x3f0597ac, 26, 0x347f64d1)
    ensures Moves(0x347f64d1, 27, 0x3eea4538)
    ensures Moves(0x3eea4538, 28, 0x9853657)
    ensures Moves(0x9853657, 29, 0x2e07d307)
    ensures Moves(0x2e07d307, 30, 0x2975c268)
    ensures Moves(0x2975c268, 31, 0x1a0d3656)
    ensures Moves(0x1a0d3656, 27, 0x192fb74e)
    ensures Moves(0x192fb74e, 0, 0x615c3e7)
    ensures Moves(0x615c3e7, 0, 0x1f82a53f)
    ensures Moves(0x1f82a53f, 0, 0xe8d5418)
    ensures Moves(0xe8d5418, 6, 0x12314323)
    ensures Moves(0x12314323, 14, 0x1)
  {
  }

  lemma LastState(word: seq<Bits>)
    requires Reached(word, 0x297c48e0)
    ensures Reached(word + [Bits(24), Bits(25), Bits(26), Bits(27), Bits(28), Bits(29), Bits(30), Bits(31), Bits(27), Bits(0), Bits(0), Bits(0), Bits(6),
      Bits(14)], 0x1)
  {
    hide Reached, Moves;
    LastMoves();
    Three(word, 0x297c48e0, 24, 0x1b3c6751, 25, 0x3f0597ac, 26, 0x347f64d1);
    var now := word + [Bits(24), Bits(25), Bits(26)];
    Three(now, 0x347f64d1, 27, 0x3eea4538, 28, 0x9853657, 29, 0x2e07d307);
    now := now + [Bits(27), Bits(28), Bits(29)];
    Three(now, 0x2e07d307, 30, 0x2975c268, 31, 0x1a0d3656, 27, 0x192fb74e);
    now := now + [Bits(30), Bits(31), Bits(27)];
    Three(now, 0x192fb74e, 0, 0x615c3e7, 0, 0x1f82a53f, 0, 0xe8d5418);
    now := now + [Bits(0), Bits(0), Bits(0)];
    One(now, 0xe8d5418, 6, 0x12314323);
    now := now + [Bits(6)];
    One(now, 0x12314323, 14, 0x1);
    now := now + [Bits(14)];
    assert now == word + [Bits(24), Bits(25), Bits(26), Bits(27), Bits(28), Bits(29), Bits(30), Bits(31), Bits(27), Bits(0), Bits(0), Bits(0), Bits(6),
      Bits(14)];
  }

  lemma NothingConverts()
    ensures Convert([], 5, 8, false) == Some([])
  {
    assert Pow2(5) == 32 && Pow2(0) == 1 && Times(5, 0) == 0;
    hide Pow2, Num, Digits;
  }

  /** "a12uel5l" is bech32. */
  lemma ShortestPlain()
    ensures Decode([97, 49, 50, 117, 101, 108, 53, 108]) == Some(Decoded([97], [], Plain))
  {
    ShortestPlainWord();
    var hrp, vs := [97], [10, 28, 25, 31, 20, 31];
    assert vs[..0] == [];
    hide Poly, HrpExpand, WordsOf, Values, Chars, DecodeParts, Decode, Convert;
    PlainState();
    NothingConverts();
    DecodesParts(hrp, vs, Plain, []);
    ShortestPlainText();
    ValuesOfChars(vs);
    DecodeAt(hrp, Chars(vs));
  }

  lemma ShortestPlainWord()
    ensures Below([10, 28, 25, 31, 20, 31], 32)
    ensures HrpExpand([97]) + WordsOf([10, 28, 25, 31, 20, 31]) == [Bits(3), Bits(0), Bits(1), Bits(10), Bits(28), Bits(25), Bits(31), Bits(20), Bits(31)]
  {
    LowWords();
    HighWords();
    hide WordOf;
    assert HighParts([97]) == [Bits(3)];
    assert LowParts([97]) == [Bits(1)];
    assert WordsOf([10, 28, 25, 31, 20, 31]) == [Bits(10), Bits(28), Bits(25), Bits(31), Bits(20), Bits(31)];
  }

  lemma ShortestPlainText()
    ensures [97] + [ONE] + Chars([10, 28, 25, 31, 20, 31]) == [97, 49, 50, 117, 101, 108, 53, 108]
  {
  }

  /** "a1lqfn3a" is bech32m. */
  lemma ShortestModified()
    ensures Decode([97, 49, 108, 113, 102, 110, 51, 97]) == Some(Decoded([97], [], Modified))
  {
    ShortestModifiedWord();
    var hrp, vs := [97], [31, 0, 9, 19, 17, 29];
    assert vs[..0] == [];
    hide Poly, HrpExpand, WordsOf, Values, Chars, DecodeParts, Decode, Convert;
    ModifiedState();
    NothingConverts();
    DecodesParts(hrp, vs, Modified, []);
    ShortestModifiedText();
    ValuesOfChars(vs);
    DecodeAt(hrp, Chars(vs));
  }

  lemma ShortestModifiedWord()
    ensures Below([31, 0, 9, 19, 17, 29], 32)
    ensures HrpExpand([97]) + WordsOf([31, 0, 9, 19, 17, 29]) == [Bits(3), Bits(0), Bits(1), Bits(31), Bits(0), Bits(9), Bits(19), Bits(17), Bits(29)]
  {
    LowWords();
    HighWords();
    hide WordOf;
    assert HighParts([97]) == [Bits(3)];
    assert LowParts([97]) == [Bits(1)];
    assert WordsOf([31, 0, 9, 19, 17, 29]) == [Bits(31), Bits(0), Bits(9), Bits(19), Bits(17), Bits(29)];
  }

  lemma ShortestModifiedText()
    ensures [97] + [ONE] + Chars([31, 0, 9, 19, 17, 29]) == [97, 49, 108, 113, 102, 110, 51, 97]
  {
  }

  lemma FirstWord()
    ensures Below([0, 1, 2, 3, 4, 5, 6, 7, 8, 9, 10, 11], 32)
    ensures WordsOf([0, 1, 2, 3, 4, 5, 6, 7, 8, 9, 10, 11]) == [Bits(0), Bits(1), Bits(2), Bits(3), Bits(4), Bits(5), Bits(6), Bits(7), Bits(8), Bits(9), Bits(10), Bits(11)]
    ensures Chars([0, 1, 2, 3, 4, 5, 6, 7, 8, 9, 10, 11]) == [113, 112, 122, 114, 121, 57, 120, 56, 103, 102, 50, 116]
  {
    hide Chars;
    FirstChars();
    LowWords();
    HighWords();
    hide WordOf;
    assert |WordsOf([0, 1, 2, 3, 4, 5, 6, 7, 8, 9, 10, 11])| == |[0, 1, 2, 3, 4, 5, 6, 7, 8, 9, 10, 11]|;
  }

  lemma FirstChars()
    ensures Chars([0, 1, 2, 3, 4, 5, 6, 7, 8, 9, 10, 11]) == [113, 112, 122, 114, 121, 57, 120, 56, 103, 102, 50, 116]
  {
  }

  lemma SecondWord()
    ensures Below([12, 13, 14, 15, 16, 17, 18, 19, 20, 21, 22, 23], 32)
    ensures WordsOf([12, 13, 14, 15, 16, 17, 18, 19, 20, 21, 22, 23]) == [Bits(12), Bits(13), Bits(14), Bits(15), Bits(16), Bits(17), Bits(18), Bits(19), Bits(20), Bits(21), Bits(22), Bits(23)]
    ensures Chars([12, 13, 14, 15, 16, 17, 18, 19, 20, 21, 22, 23]) == [118, 100, 119, 48, 115, 51, 106, 110, 53, 52, 107, 104]
  {
    hide Chars;
    SecondChars();
    LowWords();
    HighWords();
    hide WordOf;
    assert |WordsOf([12, 13, 14, 15, 16, 17, 18, 19, 20, 21, 22, 23])| == |[12, 13, 14, 15, 16, 17, 18, 19, 20, 21, 22, 23]|;
  }

  lemma SecondChars()
    ensures Chars([12, 13, 14, 15, 16, 17, 18, 19, 20, 21, 22, 23]) == [118, 100, 119, 48, 115, 51, 106, 110, 53, 52, 107, 104]
  {
  }

  lemma LastWord()
    ensures Below([24, 25, 26, 27, 28, 29, 30, 31, 27, 0, 0, 0, 6, 14], 32)
    ensures WordsOf([24, 25, 26, 27, 28, 29, 30, 31, 27, 0, 0, 0, 6, 14]) == [Bits(24), Bits(25), Bits(26), Bits(27), Bits(28), Bits(29), Bits(30), Bits(31), Bits(27), Bits(0), Bits(0), Bits(0), Bits(6), Bits(14)]
    ensures Chars([24, 25, 26, 27, 28, 29, 30, 31, 27, 0, 0, 0, 6, 14]) == [99, 101, 54, 109, 117, 97, 55, 108, 109, 113, 113, 113, 120, 119]
  {
    hide Chars;
    LastChars();
    LowWords();
    HighWords();
    hide WordOf;
    assert |WordsOf([24, 25, 26, 27, 28, 29, 30, 31, 27, 0, 0, 0, 6, 14])| == |[24, 25, 26, 27, 28, 29, 30, 31, 27, 0, 0, 0, 6, 14]|;
  }

  lemma LastChars()
    ensures Chars([24, 25, 26, 27, 28, 29, 30, 31, 27, 0, 0, 0, 6, 14]) == [99, 101, 54, 109, 117, 97, 55, 108, 109, 113, 113, 113, 120, 119]
  {
  }

  /** The data values 0 to 31. */
  function Ascending(): (vs: seq<nat>)
    ensures |vs| == 32
  {
    seq(32, i => i)
  }

  lemma AscendingIs()
    ensures Below(Ascending(), 32)
    ensures Ascending() + [27, 0, 0, 0, 6, 14] == [0, 1, 2, 3, 4, 5, 6, 7, 8, 9, 10, 11] + [12, 13, 14, 15, 16, 17, 18, 19, 20, 21, 22, 23] + [24, 25, 26, 27, 28, 29, 30, 31, 27, 0, 0, 0, 6, 14]
  {
    assert Ascending()[..12] == [0, 1, 2, 3, 4, 5, 6, 7, 8, 9, 10, 11];
    assert Ascending()[12..24] == [12, 13, 14, 15, 16, 17, 18, 19, 20, 21, 22, 23];
    assert Ascending()[24..] + [27, 0, 0, 0, 6, 14] == [24, 25, 26, 27, 28, 29, 30, 31, 27, 0, 0, 0, 6, 14];
    assert Ascending() == Ascending()[..12] + Ascending()[12..24] + Ascending()[24..];
  }

  lemma PrefixWord()
    ensures HrpExpand([97, 98, 99, 100, 101, 102]) == [Bits(3), Bits(3), Bits(3), Bits(3), Bits(3), Bits(3), Bits(0), Bits(1), Bits(2), Bits(3), Bits(4), Bits(5), Bits(6)]
  {
    LowWords();
    hide WordOf;
    assert HighParts([97, 98, 99, 100, 101, 102]) == [Bits(3), Bits(3), Bits(3), Bits(3), Bits(3), Bits(3)];
    assert LowParts([97, 98, 99, 100, 101, 102]) == [Bits(1), Bits(2), Bits(3), Bits(4), Bits(5), Bits(6)];
  }

  lemma AscendingState()
    ensures Reached([Bits(3), Bits(3), Bits(3), Bits(3), Bits(3), Bits(3), Bits(0), Bits(1), Bits(2), Bits(3), Bits(4), Bits(5), Bits(6)]
      + [Bits(0), Bits(1), Bits(2), Bits(3), Bits(4), Bits(5), Bits(6), Bits(7), Bits(8), Bits(9), Bits(10), Bits(11)]
      + [Bits(12), Bits(13), Bits(14), Bits(15), Bits(16), Bits(17), Bits(18), Bits(19), Bits(20), Bits(21), Bits(22), Bits(23)]
      + [Bits(24), Bits(25), Bits(26), Bits(27), Bits(28), Bits(29), Bits(30), Bits(31), Bits(27), Bits(0), Bits(0), Bits(0), Bits(6), Bits(14)], 0x1)
  {
    PrefixState();
    FirstState([Bits(3), Bits(3), Bits(3), Bits(3), Bits(3), Bits(3), Bits(0), Bits(1), Bits(2), Bits(3), Bits(4), Bits(5), Bits(6)]);
    SecondState([Bits(3), Bits(3), Bits(3), Bits(3), Bits(3), Bits(3), Bits(0), Bits(1), Bits(2), Bits(3), Bits(4), Bits(5), Bits(6)] + [Bits(0), Bits(1), Bits(2), Bits(3), Bits(4), Bits(5), Bits(6), Bits(7), Bits(8), Bits(9), Bits(10), Bits(11)]);
    LastState([Bits(3), Bits(3), Bits(3), Bits(3), Bits(3), Bits(3), Bits(0), Bits(1), Bits(2), Bits(3), Bits(4), Bits(5), Bits(6)] + [Bits(0), Bits(1), Bits(2), Bits(3), Bits(4), Bits(5), Bits(6), Bits(7), Bits(8), Bits(9), Bits(10), Bits(11)]
      + [Bits(12), Bits(13), Bits(14), Bits(15), Bits(16), Bits(17), Bits(18), Bits(19), Bits(20), Bits(21), Bits(22), Bits(23)]);
    hide Reached;
  }

  lemma AscendingConverts()
    ensures Convert(Ascending(), 5, 8, false).Some?
  {
    AscendingIs();
    assert Pow2(5) == 32 && Pow2(0) == 1;
    TimesIs(5, 32);
    hide Pow2, Num, Digits, Times, Ascending, Below;
  }

  /** Three parts of data, together: their word and their text. */
  lemma Together(a: seq<nat>, b: seq<nat>, c: seq<nat>)
    requires Below(a, 32) && Below(b, 32) && Below(c, 32)
    ensures Below(a + b + c, 32) && WordsOf(a + b + c) == WordsOf(a) + WordsOf(b) + WordsOf(c) && Chars(a + b + c) == Chars(a) + Chars(b) + Chars(c)
  {
    hide WordOf, Char;
    WordsAppend(a, b);
    WordsAppend(a + b, c);
  }

  /** "abcdef1qpzry9x8gf2tvdw0s3jn54khce6mua7lmqqqxw" is bech32, with the data values 0 to 31 in this order. */
  lemma EveryCharacter()
    ensures Convert(Ascending(), 5, 8, false).Some?
    ensures Decode([97, 98, 99, 100, 101, 102] + [ONE] + [113, 112, 122, 114, 121, 57, 120, 56, 103, 102, 50, 116]
      + [118, 100, 119, 48, 115, 51, 106, 110, 53, 52, 107, 104] + [99, 101, 54, 109, 117, 97, 55, 108, 109, 113, 113, 113, 120, 119])
      == Some(Decoded([97, 98, 99, 100, 101, 102], Convert(Ascending(), 5, 8, false).value, Plain))
  {
    hide *;
    var hrp, vs := [97, 98, 99, 100, 101, 102], Ascending() + [27, 0, 0, 0, 6, 14];
    AscendingIs();
    AscendingConverts();
    FirstWord();
    SecondWord();
    LastWord();
    Together([0, 1, 2, 3, 4, 5, 6, 7, 8, 9, 10, 11], [12, 13, 14, 15, 16, 17, 18, 19, 20, 21, 22, 23], [24, 25, 26, 27, 28, 29, 30, 31, 27, 0, 0, 0, 6, 14]);
    PrefixWord();
    AscendingState();
    assert HrpExpand(hrp) + WordsOf(vs) == [Bits(3), Bits(3), Bits(3), Bits(3), Bits(3), Bits(3), Bits(0), Bits(1), Bits(2), Bits(3), Bits(4), Bits(5), Bits(6)]
      + [Bits(0), Bits(1), Bits(2), Bits(3), Bits(4), Bits(5), Bits(6), Bits(7), Bits(8), Bits(9), Bits(10), Bits(11)]
      + [Bits(12), Bits(13), Bits(14), Bits(15), Bits(16), Bits(17), Bits(18), Bits(19), Bits(20), Bits(21), Bits(22), Bits(23)]
      + [Bits(24), Bits(25), Bits(26), Bits(27), Bits(28), Bits(29), Bits(30), Bits(31), Bits(27), Bits(0), Bits(0), Bits(0), Bits(6), Bits(14)];
    AscendingChecksum(HrpExpand(hrp) + WordsOf(vs));
    assert vs[..|vs| - 6] == Ascending();
    DecodesParts(hrp, vs, Plain, Convert(Ascending(), 5, 8, false).value);
    ValuesOfChars(vs);
    DecodeAt(hrp, Chars(vs));
    assert hrp + [ONE] + Chars(vs) == [97, 98, 99, 100, 101, 102] + [ONE] + [113, 112, 122, 114, 121, 57, 120, 56, 103, 102, 50, 116]
      + [118, 100, 119, 48, 115, 51, 106, 110, 53, 52, 107, 104] + [99, 101, 54, 109, 117, 97, 55, 108, 109, 113, 113, 113, 120, 119];
  }

  lemma AscendingChecksum(word: seq<Bits>)
    requires Reached(word, 0x1)
    ensures Poly(Bits(1), word) == Target(Plain)
  {
  }

  // ---------- every text ----------

  /** The encoding spells these values, and the checksum over them is the constant of the variant. */
  ghost predicate Carries(hrp: Text, payload: seq<nat>, v: Variant, vs: seq<nat>) {
    && Below(vs, 32) && Encode(hrp, payload, v) == Some(hrp + [ONE] + Chars(vs))
    && Poly(Bits(1), HrpExpand(hrp) + WordsOf(vs)) == match v case Plain => Bits(1) case Modified => Bits(0x2bc830a3)
  }

  /** The checksum of a bech32 word is 1, that of a bech32m word 0x2bc830a3. */
  lemma EncodedConstant(hrp: Text, payload: seq<nat>, v: Variant)
    requires Below(payload, 256)
    ensures exists vs :: Carries(hrp, payload, v, vs)
  {
    EightBits();
    hide Poly, Check, HrpExpand, WordsOf, NatsOf, Convert, Chars, Encode, Below, Pow2;
    BytesRoundTrip(payload);
    GroupsBelow(payload);
    var five := Convert(payload, 8, 5, true).value;
    EncodeIs(hrp, payload, v);
    EncodedValues(hrp, five, v);
    var vs := five + NatsOf(Check(HrpExpand(hrp) + WordsOf(five), Target(v)));
    assert Carries(hrp, payload, v, vs);
  }

  /** A decoded text is bech32 exactly when its word's checksum is 1, and bech32m exactly when it is 0x2bc830a3. */
  lemma DecodedConstant(hrp: Text, part: Text)
    requires |part| >= 6 && DecodeParts(hrp, part).Some?
    ensures Values(part).Some?
    ensures var checksum := Poly(Bits(1), HrpExpand(hrp) + WordsOf(Values(part).value));
      && (DecodeParts(hrp, part).value.variant == Plain <==> checksum == Bits(1))
      && (DecodeParts(hrp, part).value.variant == Modified <==> checksum == Bits(0x2bc830a3))
  {
    hide Poly, HrpExpand, WordsOf, Values, Convert;
  }
}
