/**
 A text of prefix ckb whose reading changes, and still verifies, when one data character is overwritten by the
 separator: the checksum reaches the same state over either reading of what stands before the last six characters.
 */
module SeparatorCollision {
  import opened Wrappers
  import opened Radix
  import opened ConvertBits
  import opened Checksum
  import opened ChecksumSteps
  import opened Bech32
  import opened Bech32Properties

  /** "ckb" */
  const CKB: Text := [99, 107, 98]

  /** "02vsqqd3" */
  const GROUPS: seq<nat> := [15, 10, 12, 16, 0, 0, 13, 17]

  /** "ckb102vsqqd" */
  const LONGER: Text := [99, 107, 98, 49, 48, 50, 118, 115, 113, 113, 100]

  lemma ShortMoves()
    ensures Moves(0x1, 3, 0x23)
    ensures Moves(0x23, 3, 0x463)
    ensures Moves(0x463, 3, 0x8c63)
    ensures Moves(0x8c63, 0, 0x118c60)
    ensures Moves(0x118c60, 3, 0x2318c03)
    ensures Moves(0x2318c03, 11, 0x3d5bd7d9)
    ensures Moves(0x3d5bd7d9, 2, 0x4dd3ddb)
    ensures Moves(0x4dd3ddb, 15, 0x3df73502)
    ensures Moves(0x3df73502, 10, 0x114166b3)
    ensures Moves(0x114166b3, 12, 0x156ee5b1)
    ensures Moves(0x156ee5b1, 16, 0x36ce0b80)
    ensures Moves(0x36ce0b80, 0, 0x13adf8b1)
    ensures Moves(0x13adf8b1, 0, 0x3397724f)
    ensures Moves(0x3397724f, 13, 0x1ed24f31)
    ensures Moves(0x1ed24f31, 17, 0x249015c9)
  {
  }

  /** The prefix ckb expanded, then the groups. */
  lemma ShortState()
    ensures Reached([Bits(3), Bits(3), Bits(3), Bits(0), Bits(3), Bits(11), Bits(2), Bits(15), Bits(10), Bits(12), Bits(16), Bits(0), Bits(0),
      Bits(13), Bits(17)], 0x249015c9)
  {
    hide Reached, Moves;
    ShortMoves();
    Begins();
    Three([], 0x1, 3, 0x23, 3, 0x463, 3, 0x8c63);
    var now := [] + [Bits(3), Bits(3), Bits(3)];
    Three(now, 0x8c63, 0, 0x118c60, 3, 0x2318c03, 11, 0x3d5bd7d9);
    now := now + [Bits(0), Bits(3), Bits(11)];
    Three(now, 0x3d5bd7d9, 2, 0x4dd3ddb, 15, 0x3df73502, 10, 0x114166b3);
    now := now + [Bits(2), Bits(15), Bits(10)];
    Three(now, 0x114166b3, 12, 0x156ee5b1, 16, 0x36ce0b80, 0, 0x13adf8b1);
    now := now + [Bits(12), Bits(16), Bits(0)];
    Three(now, 0x13adf8b1, 0, 0x3397724f, 13, 0x1ed24f31, 17, 0x249015c9);
    now := now + [Bits(0), Bits(13), Bits(17)];
    assert now == [Bits(3), Bits(3), Bits(3), Bits(0), Bits(3), Bits(11), Bits(2), Bits(15), Bits(10), Bits(12), Bits(16), Bits(0), Bits(0),
      Bits(13), Bits(17)];
  }

  lemma HighMoves()
    ensures Moves(0x1, 3, 0x23)
    ensures Moves(0x23, 3, 0x463)
    ensures Moves(0x463, 3, 0x8c63)
    ensures Moves(0x8c63, 1, 0x118c61)
    ensures Moves(0x118c61, 1, 0x2318c21)
    ensures Moves(0x2318c21, 1, 0x3d5bd393)
    ensures Moves(0x3d5bd393, 3, 0x4ddb49a)
    ensures Moves(0x4ddb49a, 3, 0x3de61d2e)
    ensures Moves(0x3de61d2e, 3, 0x1364633a)
    ensures Moves(0x1364633a, 3, 0x2aa4032c)
    ensures Moves(0x2aa4032c, 3, 0x1b5f4978)
    ensures Moves(0x1b5f4978, 0, 0x33605295)
  {
  }

  /** The longer prefix expanded, in two parts. */
  lemma HighState()
    ensures Reached([Bits(3), Bits(3), Bits(3), Bits(1), Bits(1), Bits(1), Bits(3), Bits(3), Bits(3), Bits(3), Bits(3), Bits(0)], 0x33605295)
  {
    hide Reached, Moves;
    HighMoves();
    Begins();
    Three([], 0x1, 3, 0x23, 3, 0x463, 3, 0x8c63);
    var now := [] + [Bits(3), Bits(3), Bits(3)];
    Three(now, 0x8c63, 1, 0x118c61, 1, 0x2318c21, 1, 0x3d5bd393);
    now := now + [Bits(1), Bits(1), Bits(1)];
    Three(now, 0x3d5bd393, 3, 0x4ddb49a, 3, 0x3de61d2e, 3, 0x1364633a);
    now := now + [Bits(3), Bits(3), Bits(3)];
    Three(now, 0x1364633a, 3, 0x2aa4032c, 3, 0x1b5f4978, 0, 0x33605295);
    now := now + [Bits(3), Bits(3), Bits(0)];
    assert now == [Bits(3), Bits(3), Bits(3), Bits(1), Bits(1), Bits(1), Bits(3), Bits(3), Bits(3), Bits(3), Bits(3), Bits(0)];
  }

  lemma LowMoves()
    ensures Moves(0x33605295, 3, 0x36547f)
    ensures Moves(0x36547f, 11, 0x6ca8feb)
    ensures Moves(0x6ca8feb, 2, 0x46b24bd)
    ensures Moves(0x46b24bd, 17, 0x2b3419dc)
    ensures Moves(0x2b3419dc, 16, 0x295c176b)
    ensures Moves(0x295c176b, 18, 0x1f37963b)
    ensures Moves(0x1f37963b, 22, 0x182b348e)
    ensures Moves(0x182b348e, 19, 0x2685bbf4)
    ensures Moves(0x2685bbf4, 17, 0x2799c5fd)
    ensures Moves(0x2799c5fd, 17, 0x41604dd)
    ensures Moves(0x41604dd, 4, 0x249015c9)
  {
  }

  lemma LowState(word: seq<Bits>)
    requires Reached(word, 0x33605295)
    ensures Reached(word + [Bits(3), Bits(11), Bits(2), Bits(17), Bits(16), Bits(18), Bits(22), Bits(19), Bits(17), Bits(17), Bits(4)], 0x249015c9)
  {
    hide Reached, Moves;
    LowMoves();
    Three(word, 0x33605295, 3, 0x36547f, 11, 0x6ca8feb, 2, 0x46b24bd);
    var now := word + [Bits(3), Bits(11), Bits(2)];
    Three(now, 0x46b24bd, 17, 0x2b3419dc, 16, 0x295c176b, 18, 0x1f37963b);
    now := now + [Bits(17), Bits(16), Bits(18)];
    Three(now, 0x1f37963b, 22, 0x182b348e, 19, 0x2685bbf4, 17, 0x2799c5fd);
    now := now + [Bits(22), Bits(19), Bits(17)];
    One(now, 0x2799c5fd, 17, 0x41604dd);
    now := now + [Bits(17)];
    One(now, 0x41604dd, 4, 0x249015c9);
    now := now + [Bits(4)];
    assert now == word + [Bits(3), Bits(11), Bits(2), Bits(17), Bits(16), Bits(18), Bits(22), Bits(19), Bits(17), Bits(17), Bits(4)];
  }

  lemma ShortWordIs()
    ensures Below(GROUPS, 32)
    ensures HrpExpand(CKB) + WordsOf(GROUPS) == [Bits(3), Bits(3), Bits(3), Bits(0), Bits(3), Bits(11), Bits(2), Bits(15), Bits(10), Bits(12), Bits(16), Bits(0), Bits(0),
      Bits(13), Bits(17)]
  {
    LowWords();
    HighWords();
    hide WordOf;
    assert HighParts(CKB) == [Bits(3), Bits(3), Bits(3)];
    assert LowParts(CKB) == [Bits(3), Bits(11), Bits(2)];
    assert WordsOf(GROUPS) == [Bits(15), Bits(10), Bits(12), Bits(16), Bits(0), Bits(0), Bits(13), Bits(17)];
  }

  lemma LongWordIs()
    ensures HrpExpand(LONGER) == [Bits(3), Bits(3), Bits(3), Bits(1), Bits(1), Bits(1), Bits(3), Bits(3), Bits(3), Bits(3), Bits(3), Bits(0)]
      + [Bits(3), Bits(11), Bits(2), Bits(17), Bits(16), Bits(18), Bits(22), Bits(19), Bits(17), Bits(17), Bits(4)]
  {
    LowWords();
    HighWords();
    hide WordOf;
    assert HighParts(LONGER) == [Bits(3), Bits(3), Bits(3), Bits(1), Bits(1), Bits(1), Bits(3), Bits(3), Bits(3), Bits(3), Bits(3)];
    assert LowParts(LONGER) == [Bits(3), Bits(11), Bits(2), Bits(17), Bits(16), Bits(18), Bits(22), Bits(19), Bits(17), Bits(17), Bits(4)];
  }

  lemma SameState()
    ensures Below(GROUPS, 32)
    ensures Poly(Bits(1), HrpExpand(CKB) + WordsOf(GROUPS)) == Poly(Bits(1), HrpExpand(LONGER))
  {
    ShortWordIs();
    LongWordIs();
    hide Poly, HrpExpand, WordsOf;
    ShortState();
    HighState();
    LowState([Bits(3), Bits(3), Bits(3), Bits(1), Bits(1), Bits(1), Bits(3), Bits(3), Bits(3), Bits(3), Bits(3), Bits(0)]);
  }

  // ---------- the text ----------

  lemma GroupsConvert()
    ensures Convert(GROUPS, 5, 8, false).Some? && Convert([], 5, 8, false) == Some([])
  {
    assert Pow2(5) == 32 && Pow2(0) == 1;
    assert Times(5, 8) == 40 && Times(5, 0) == 0;
    hide Pow2, Num, Digits;
  }

  /** The five bytes whose groups are GROUPS. */
  function Payload(): seq<nat> {
    GroupsConvert();
    Convert(GROUPS, 5, 8, false).value
  }

  lemma PayloadGroups()
    ensures Convert(Payload(), 8, 5, true) == Some(GROUPS) && Below(Payload(), 256)
  {
    GroupsConvert();
    GroupsRoundTrip(GROUPS);
    assert Pow2(8) == 256;
  }

  lemma LongerText()
    ensures |CKB| == 3 && |GROUPS| == 8 && CKB + [ONE] + Chars(GROUPS[..7]) == LONGER && GROUPS == GROUPS[..7] + [17]
    ensures Below(GROUPS, 32) && Below(GROUPS[..7], 32) && LONGER != []
  {
  }

  /**
   Under either variant: the text of prefix ckb and those bytes decodes, and with its twelfth character, the last
   before the check symbols, overwritten by the separator it decodes again under the same variant, to the longer
   prefix and no bytes.
   */
  lemma SeparatorCollides(v: Variant)
    ensures Encode(CKB, Payload(), v).Some? && |Encode(CKB, Payload(), v).value| == 18
    ensures var t := Encode(CKB, Payload(), v).value;
      && Decode(t) == Some(Decoded(CKB, Payload(), v))
      && Decode(t[11 := ONE]) == Some(Decoded(LONGER, [], v))
  {
    PayloadGroups();
    LongerText();
    GroupsConvert();
    SameState();
    hide Poly, Check, HrpExpand, WordsOf, NatsOf, Target, Convert, Chars, DecodeParts, Decode, Payload, Below, LastOne;
    RoundTrip(CKB, Payload(), v);
    EncodedValues(CKB, GROUPS, v);
    var chk := NatsOf(Check(HrpExpand(CKB) + WordsOf(GROUPS), Target(v)));
    CheckBelow(chk);
    SeparatorDetectedIff(CKB, GROUPS[..7], 17, chk);
    assert LONGER == CKB + [ONE] + Chars(GROUPS[..7]);
    assert chk[..|chk| - 6] == [];
    DecodesParts(LONGER, chk, v, []);
    Overwritten(chk);
    ValuesOfChars(chk);
    DecodeAt(LONGER, Chars(chk));
  }

  lemma CheckBelow(chk: seq<nat>)
    requires Below(GROUPS + chk, 32)
    ensures Below(chk, 32)
  {
    assert forall i | 0 <= i < |chk| :: (GROUPS + chk)[|GROUPS| + i] == chk[i];
  }

  lemma Overwritten(chk: seq<nat>)
    requires |chk| == 6
    ensures var t := CKB + [ONE] + Chars(GROUPS + chk);
      |t| == 18 && t[11 := ONE] == LONGER + [ONE] + Chars(chk)
  {
    LongerText();
    hide Char;
    assert Chars(GROUPS + chk) == Chars(GROUPS[..7]) + [Char(17)] + Chars(chk);
  }
}
