/** Decoding undoes encoding, accepted text is canonical up to case, and bursts of errors are detected. */
module Bech32Properties {
  import opened Wrappers
  import opened Radix
  import opened ConvertBits
  import opened Checksum
  import opened Bech32

  // ---------- the alphabet ----------

  ghost predicate AllDifferent(s: Text) {
    forall i, j | 0 <= i < j < |s| :: s[i] != s[j]
  }

  lemma EarlyDistinct()
    ensures |CHARSET| == 32 && forall i, j | 0 <= i < 2 && i < j < 32 :: CHARSET[i] != CHARSET[j]
  {
  }

  lemma MiddleDistinct()
    ensures |CHARSET| == 32 && forall i, j | 2 <= i < 8 && i < j < 32 :: CHARSET[i] != CHARSET[j]
  {
  }

  lemma LateDistinct()
    ensures |CHARSET| == 32 && forall i, j | 8 <= i < 32 && i < j < 32 :: CHARSET[i] != CHARSET[j]
  {
  }

  lemma CharsetDistinct()
    ensures |CHARSET| == 32 && AllDifferent(CHARSET)
  {
    EarlyDistinct();
    MiddleDistinct();
    LateDistinct();
    forall i, j | 0 <= i < j < |CHARSET| ensures CHARSET[i] != CHARSET[j] {
      assert i < 2 || 2 <= i < 8 || 8 <= i;
    }
  }

  lemma CharsetLower()
    ensures forall v | 0 <= v < 32 :: Lower(CHARSET[v]) == CHARSET[v] && CHARSET[v] != ONE
  {
  }

  lemma {:induction false} IndexOfAt(s: Text, k: nat)
    requires AllDifferent(s) && k < |s|
    ensures IndexOf(s, s[k]) == Some(k)
  {
    if k < |s| - 1 {
      IndexOfAt(s[..|s| - 1], k);
    }
  }

  lemma ValueOfChar(v: nat)
    requires v < 32
    ensures Value(Char(v)) == Some(v) && Char(v) != ONE
  {
    CharsetDistinct();
    CharsetLower();
    hide IndexOf, Lower, AllDifferent, CHARSET;
    IndexOfAt(CHARSET, v);
  }

  lemma CharOfValue(u: CodeUnit)
    requires Value(u).Some?
    ensures Value(u).value < 32 && Char(Value(u).value) == Lower(u) && u != ONE
  {
    CharsetDistinct();
    CharsetLower();
    assert Lower(ONE) == ONE;
    hide IndexOf, Lower, AllDifferent, CHARSET;
  }

  lemma {:induction false} ValuesOfChars(vs: seq<nat>)
    requires Below(vs, 32)
    ensures Values(Chars(vs)) == Some(vs) && ONE !in Chars(vs)
  {
    hide Value, Char;
    if vs == [] {
      assert Chars(vs) == [];
    } else {
      var n := |vs| - 1;
      ValuesOfChars(vs[..n]);
      ValueOfChar(vs[n]);
      assert Chars(vs) == Chars(vs[..n]) + [Char(vs[n])];
      assert Chars(vs)[..n] == Chars(vs[..n]) && Chars(vs)[n] == Char(vs[n]);
      assert vs == vs[..n] + [vs[n]];
    }
  }

  lemma {:induction false} CharsOfValues(t: Text)
    requires Values(t).Some?
    ensures Chars(Values(t).value) == Lowered(t) && ONE !in t
  {
    hide Value, Char, Lower;
    if t != [] {
      var n := |t| - 1;
      CharsOfValues(t[..n]);
      CharOfValue(t[n]);
      assert t == t[..n] + [t[n]];
      assert Lowered(t) == Lowered(t[..n]) + [Lower(t[n])];
    }
  }

  lemma {:induction false} LastOneAt(hrp: Text, part: Text)
    requires ONE !in part
    ensures LastOne(hrp + [ONE] + part) == Some(|hrp|)
  {
    var t := hrp + [ONE] + part;
    if part == [] {
      assert t[|t| - 1] == ONE;
    } else {
      var n := |part| - 1;
      assert part[n] in part;
      assert t[..|t| - 1] == hrp + [ONE] + part[..n];
      LastOneAt(hrp, part[..n]);
    }
  }

  // ---------- symbols as words ----------

  lemma LowWords()
    ensures WordOf(0) == Bits(0)
    ensures WordOf(1) == Bits(1)
    ensures WordOf(2) == Bits(2)
    ensures WordOf(3) == Bits(3)
    ensures WordOf(4) == Bits(4)
    ensures WordOf(5) == Bits(5)
    ensures WordOf(6) == Bits(6)
    ensures WordOf(7) == Bits(7)
    ensures WordOf(8) == Bits(8)
    ensures WordOf(9) == Bits(9)
    ensures WordOf(10) == Bits(10)
    ensures WordOf(11) == Bits(11)
    ensures WordOf(12) == Bits(12)
    ensures WordOf(13) == Bits(13)
    ensures WordOf(14) == Bits(14)
    ensures WordOf(15) == Bits(15)
  {
  }

  lemma HighWords()
    ensures WordOf(16) == Bits(16)
    ensures WordOf(17) == Bits(17)
    ensures WordOf(18) == Bits(18)
    ensures WordOf(19) == Bits(19)
    ensures WordOf(20) == Bits(20)
    ensures WordOf(21) == Bits(21)
    ensures WordOf(22) == Bits(22)
    ensures WordOf(23) == Bits(23)
    ensures WordOf(24) == Bits(24)
    ensures WordOf(25) == Bits(25)
    ensures WordOf(26) == Bits(26)
    ensures WordOf(27) == Bits(27)
    ensures WordOf(28) == Bits(28)
    ensures WordOf(29) == Bits(29)
    ensures WordOf(30) == Bits(30)
    ensures WordOf(31) == Bits(31)
  {
  }

  // ---------- the human-readable part ----------

  lemma ExpandBounded(hrp: Text)
    ensures Bounded(HrpExpand(hrp))
  {
    hide WordOf, InState;
    forall i | 0 <= i < |hrp| ensures InState(HighParts(hrp)[i]) && InState(LowParts(hrp)[i]) {
      Parts(hrp[i] as nat);
      WordSmall(hrp[i] as nat / 32);
      WordSmall(hrp[i] as nat % 32);
    }
    StartRange();
  }

  lemma Parts(u: nat)
    requires u < 0x10000
    ensures u / 32 < 2048 && u % 32 < 2048
  {
  }

  lemma WordsAreSymbols(vs: seq<nat>)
    requires Below(vs, 32)
    ensures Symbols(WordsOf(vs)) && Bounded(WordsOf(vs))
  {
    hide WordOf, Symbol, InState;
    forall i | 0 <= i < |vs| ensures Symbol(WordsOf(vs)[i]) && InState(WordsOf(vs)[i]) {
      WordSmall(vs[i]);
    }
  }

  lemma NatsBack(ws: seq<Bits>)
    requires Symbols(ws)
    ensures Below(NatsOf(ws), 32) && WordsOf(NatsOf(ws)) == ws
  {
    hide WordOf, NatOf, Symbol;
    forall i | 0 <= i < |ws| ensures NatOf(ws[i]) < 32 && WordOf(NatOf(ws[i])) == ws[i] {
      SymbolBack(ws[i]);
    }
  }

  lemma WordsBack(vs: seq<nat>)
    requires Below(vs, 32)
    ensures NatsOf(WordsOf(vs)) == vs
  {
    hide WordOf, NatOf;
    forall i | 0 <= i < |vs| ensures NatOf(WordOf(vs[i])) == vs[i] {
      WordBack(vs[i]);
    }
  }

  lemma WordsAppend(a: seq<nat>, b: seq<nat>)
    requires Below(a, 32) && Below(b, 32)
    ensures Below(a + b, 32) && WordsOf(a + b) == WordsOf(a) + WordsOf(b)
  {
    hide WordOf;
  }

  lemma TargetRange(v: Variant)
    ensures InState(Target(v)) && VariantOf(Target(v)) == Some(v)
  {
  }

  // ---------- round trip ----------

  /** The values an encoding carries: the payload's groups and their check symbols, with the variant's checksum. */
  lemma EncodedValues(hrp: Text, five: seq<nat>, variant: Variant)
    requires Below(five, 32)
    ensures var all := five + NatsOf(Check(HrpExpand(hrp) + WordsOf(five), Target(variant)));
      && Below(all, 32) && |all| == |five| + 6
      && Poly(Bits(1), HrpExpand(hrp) + WordsOf(all)) == Target(variant)
  {
    hide Poly, Check, HrpExpand, WordsOf, NatsOf, Target, InState;
    var word := HrpExpand(hrp) + WordsOf(five);
    ExpandBounded(hrp);
    WordsAreSymbols(five);
    BoundedAppend(HrpExpand(hrp), WordsOf(five));
    TargetRange(variant);
    CheckHolds(word, Target(variant));
    var check := Check(word, Target(variant));
    NatsBack(check);
    WordsAppend(five, NatsOf(check));
    assert HrpExpand(hrp) + WordsOf(five + NatsOf(check)) == word + check;
  }

  lemma DecodesParts(hrp: Text, all: seq<nat>, variant: Variant, payload: seq<nat>)
    requires |all| >= 6 && Below(all, 32) && Poly(Bits(1), HrpExpand(hrp) + WordsOf(all)) == Target(variant)
    requires Convert(all[..|all| - 6], 5, 8, false) == Some(payload)
    ensures DecodeParts(hrp, Chars(all)) == Some(Decoded(hrp, payload, variant))
  {
    hide Poly, HrpExpand, WordsOf, Target, Convert, Values, Chars, VariantOf;
    ValuesOfChars(all);
    TargetRange(variant);
  }

  /** bech32Decode gives back prefix, payload and variant of every encoding whose prefix is not empty, and of no other. */
  lemma RoundTrip(hrp: Text, payload: seq<nat>, variant: Variant)
    requires Below(payload, 256)
    ensures Encode(hrp, payload, variant).Some?
    ensures Decode(Encode(hrp, payload, variant).value) == Some(Decoded(hrp, payload, variant)) <==> hrp != []
  {
    EightBits();
    hide *;
    BytesRoundTrip(payload);
    GroupsBelow(payload);
    var five := Convert(payload, 8, 5, true).value;
    EncodeIs(hrp, payload, variant);
    EncodedValues(hrp, five, variant);
    var all := five + NatsOf(Check(HrpExpand(hrp) + WordsOf(five), Target(variant)));
    assert all[..|all| - 6] == five;
    DecodesParts(hrp, all, variant, payload);
    ValuesOfChars(all);
    DecodeAt(hrp, Chars(all));
  }

  lemma EightBits()
    ensures Pow2(8) == 256
  {
  }

  lemma EncodeIs(hrp: Text, payload: seq<nat>, variant: Variant)
    requires Convert(payload, 8, 5, true).Some? && Below(Convert(payload, 8, 5, true).value, 32)
    ensures var five := Convert(payload, 8, 5, true).value;
      Encode(hrp, payload, variant) == Some(hrp + [ONE] + Chars(five + NatsOf(Check(HrpExpand(hrp) + WordsOf(five), Target(variant)))))
  {
    hide Convert, Below, Chars, NatsOf, Check, HrpExpand, WordsOf, Target;
  }

  // ---------- canonical form ----------

  /** The last six values are the check symbols of the others. */
  lemma CheckedValues(hrp: Text, five: seq<nat>, sum: seq<nat>, variant: Variant)
    requires Below(five, 32) && Below(sum, 32) && |sum| == 6
    requires Below(five + sum, 32) && Poly(Bits(1), HrpExpand(hrp) + WordsOf(five + sum)) == Target(variant)
    ensures NatsOf(Check(HrpExpand(hrp) + WordsOf(five), Target(variant))) == sum
  {
    hide *;
    ExpandBounded(hrp);
    WordsAreSymbols(five);
    WordsAreSymbols(sum);
    WordsAppend(five, sum);
    BoundedAppend(HrpExpand(hrp), WordsOf(five));
    TargetRange(variant);
    var word := HrpExpand(hrp) + WordsOf(five);
    assert HrpExpand(hrp) + WordsOf(five + sum) == word + WordsOf(sum);
    LengthOfWords(sum);
    CheckUnique(word, WordsOf(sum), Target(variant));
    WordsBack(sum);
  }

  lemma BelowParts(a: seq<nat>, n: nat, base: nat)
    requires Below(a, base) && n <= |a|
    ensures Below(a[..n], base) && Below(a[n..], base) && a == a[..n] + a[n..]
  {
  }

  lemma PartsCanonical(hrp: Text, part: Text)
    requires |part| >= 6 && DecodeParts(hrp, part).Some?
    ensures var d := DecodeParts(hrp, part).value;
      d.hrp == hrp && Encode(hrp, d.data, d.variant) == Some(hrp + [ONE] + Lowered(part))
  {
    var all, d := Values(part).value, DecodeParts(hrp, part).value;
    SameTarget(hrp, part);
    var n := |all| - 6;
    hide Poly, Check, HrpExpand, WordsOf, NatsOf, Target, Convert, Chars, Values, Lowered, Below;
    var five, sum := all[..n], all[n..];
    BelowParts(all, n, 32);
    CheckedValues(hrp, five, sum, d.variant);
    GroupsRoundTrip(five);
    CharsOfValues(part);
  }

  lemma LengthOfWords(vs: seq<nat>)
    requires Below(vs, 32)
    ensures |WordsOf(vs)| == |vs|
  {
  }

  /** Re-encoding what was decoded gives the text back, its data part in lower case. */
  lemma Canonical(t: Text)
    requires Decode(t).Some?
    ensures var d, sep := Decode(t).value, LastOne(t).value;
      Encode(d.hrp, d.data, d.variant) == Some(t[..sep + 1] + Lowered(t[sep + 1..]))
  {
    var sep := LastOne(t).value;
    hide Encode, DecodeParts, Lowered;
    PartsCanonical(t[..sep], t[sep + 1..]);
    assert t[..sep] + [ONE] == t[..sep + 1];
  }

  // ---------- case ----------

  lemma {:induction false} ValuesFollowCase(a: Text, b: Text)
    requires Lowered(a) == Lowered(b)
    ensures Values(a) == Values(b)
  {
    if a != [] {
      var n := |a| - 1;
      assert Lowered(a)[n] == Lowered(b)[n];
      assert Lowered(a)[..n] == Lowered(a[..n]) && Lowered(b)[..n] == Lowered(b[..n]);
      ValuesFollowCase(a[..n], b[..n]);
    }
  }

  /** Mixed case in the data part is not rejected: whatever the case of each character, the result is the same. */
  lemma CaseIsIgnored(hrp: Text, a: Text, b: Text)
    requires |a| >= 6 && |b| >= 6 && Lowered(a) == Lowered(b)
    ensures DecodeParts(hrp, a) == DecodeParts(hrp, b)
  {
    hide Values, Lowered, Poly, Convert, WordsOf, HrpExpand;
    ValuesFollowCase(a, b);
  }

  /** The Kelvin sign passes for k. */
  lemma KelvinIsK()
    ensures Value(KELVIN) == Value(107) == Some(22)
  {
    CharsetDistinct();
    hide AllDifferent, IndexOf;
    IndexOfAt(CHARSET, 22);
  }

  // ---------- error detection ----------

  lemma WordsDiffer(a: seq<nat>, b: seq<nat>)
    requires Below(a, 32) && Below(b, 32) && |a| == |b| && a != b
    ensures WordsOf(a) != WordsOf(b)
  {
    WordsBack(a);
    WordsBack(b);
    hide WordsOf, NatsOf;
  }

  /** Values that differ only within six consecutive places do not have the same checksum. */
  lemma ValuesDetected(hrp: Text, head: seq<nat>, a: seq<nat>, b: seq<nat>, tail: seq<nat>)
    requires Below(head, 32) && Below(a, 32) && Below(b, 32) && Below(tail, 32) && |a| == |b| <= 6 && a != b
    ensures Below(head + a + tail, 32) && Below(head + b + tail, 32)
    ensures Poly(Bits(1), HrpExpand(hrp) + WordsOf(head + a + tail)) != Poly(Bits(1), HrpExpand(hrp) + WordsOf(head + b + tail))
  {
    hide Poly, HrpExpand, WordsOf, InState, Symbol;
    ExpandBounded(hrp);
    WordsAreSymbols(head);
    WordsAreSymbols(a);
    WordsAreSymbols(b);
    WordsAreSymbols(tail);
    WordsDiffer(a, b);
    WordsAppend(head, a);
    WordsAppend(head, b);
    WordsAppend(head + a, tail);
    WordsAppend(head + b, tail);
    StartRange();
    var front := HrpExpand(hrp) + WordsOf(head);
    BoundedAppend(HrpExpand(hrp), WordsOf(head));
    assert HrpExpand(hrp) + WordsOf(head + a + tail) == front + WordsOf(a) + WordsOf(tail);
    assert HrpExpand(hrp) + WordsOf(head + b + tail) == front + WordsOf(b) + WordsOf(tail);
    LengthOfWords(a);
    LengthOfWords(b);
    ErrorsDetected(Bits(1), front, WordsOf(a), WordsOf(b), WordsOf(tail));
  }

  lemma {:induction false} ValuesConcat(a: Text, b: Text)
    ensures Values(a + b) == if Values(a).None? || Values(b).None? then None else Some(Values(a).value + Values(b).value)
  {
    hide Value;
    if b == [] {
      assert a + b == a && Values(b) == Some([]);
      assert Values(a).Some? ==> Values(a).value + [] == Values(a).value;
    } else {
      var n := |b| - 1;
      assert (a + b)[..|a| + n] == a + b[..n] && (a + b)[|a| + n] == b[n];
      ValuesConcat(a, b[..n]);
      if Values(a).Some? && Values(b).Some? {
        assert Values(b).value == Values(b[..n]).value + [Value(b[n]).value];
        assert Values(a).value + Values(b).value == Values(a).value + Values(b[..n]).value + [Value(b[n]).value];
      }
    }
  }

  /** Replacing at most six consecutive data characters by characters that do not fold to the same ones never verifies under the same constant. */
  lemma BurstsDetected(hrp: Text, head: Text, a: Text, b: Text, tail: Text)
    requires |head + a + tail| >= 6 && |a| == |b| <= 6 && Lowered(a) != Lowered(b)
    requires DecodeParts(hrp, head + a + tail).Some?
    ensures DecodeParts(hrp, head + b + tail).Some? ==>
      DecodeParts(hrp, head + b + tail).value.variant != DecodeParts(hrp, head + a + tail).value.variant
  {
    if DecodeParts(hrp, head + b + tail).Some? {
      SameTarget(hrp, head + a + tail);
      SameTarget(hrp, head + b + tail);
      hide Poly, HrpExpand, WordsOf, Values, Lowered, Target, DecodeParts, Chars;
      Split(head, a, tail);
      Split(head, b, tail);
      CharsOfValues(a);
      CharsOfValues(b);
      ValuesDetected(hrp, Values(head).value, Values(a).value, Values(b).value, Values(tail).value);
    }
  }

  lemma SameTarget(hrp: Text, part: Text)
    requires |part| >= 6 && DecodeParts(hrp, part).Some?
    ensures Values(part).Some?
    ensures Poly(Bits(1), HrpExpand(hrp) + WordsOf(Values(part).value)) == Target(DecodeParts(hrp, part).value.variant)
  {
    hide Poly, HrpExpand, WordsOf, Values, Convert;
  }

  lemma Split(head: Text, a: Text, tail: Text)
    requires Values(head + a + tail).Some?
    ensures Values(head).Some? && Values(a).Some? && Values(tail).Some?
    ensures Values(head + a + tail).value == Values(head).value + Values(a).value + Values(tail).value
  {
    hide Values;
    ValuesConcat(head + a, tail);
    ValuesConcat(head, a);
  }

  lemma Replaced(hrp: Text, part: Text, k: nat, u: CodeUnit)
    requires k < |part| && ONE !in part && u != ONE
    ensures var t, i := hrp + [ONE] + part, |hrp| + 1 + k;
      && t[i] == part[k] && t[i := u] == hrp + [ONE] + (part[..k] + [u] + part[k + 1..])
      && part == part[..k] + [part[k]] + part[k + 1..]
      && ONE !in part[..k] + [u] + part[k + 1..]
  {
  }

  lemma DecodeAt(hrp: Text, part: Text)
    requires ONE !in part
    ensures LastOne(hrp + [ONE] + part) == Some(|hrp|)
    ensures Decode(hrp + [ONE] + part) ==
      if hrp == [] || |part| < 6 then None else DecodeParts(hrp, part)
  {
    LastOneAt(hrp, part);
    var t := hrp + [ONE] + part;
    assert t[..|hrp|] == hrp && t[|hrp| + 1..] == part;
    hide DecodeParts, LastOne;
  }

  lemma OneLowered(u: CodeUnit)
    ensures Lowered([u]) == [Lower(u)]
  {
  }

  /** The same for one character of the data part. */
  lemma OneCharacter(hrp: Text, part: Text, k: nat, u: CodeUnit)
    requires |part| >= 6 && k < |part| && Lower(u) != Lower(part[k]) && DecodeParts(hrp, part).Some?
    ensures var changed := part[..k] + [u] + part[k + 1..];
      DecodeParts(hrp, changed).Some? ==> DecodeParts(hrp, changed).value.variant != DecodeParts(hrp, part).value.variant
  {
    hide *;
    OneLowered(part[k]);
    OneLowered(u);
    assert part == part[..k] + [part[k]] + part[k + 1..];
    BurstsDetected(hrp, part[..k], [part[k]], [u], part[k + 1..]);
  }

  lemma Separated(t: Text)
    requires LastOne(t).Some?
    ensures var sep := LastOne(t).value;
      t == t[..sep] + [ONE] + t[sep + 1..] && ONE !in t[sep + 1..]
  {
  }

  lemma DecodeSplit(t: Text)
    requires Decode(t).Some?
    ensures LastOne(t).Some? && LastOne(t).value >= 1 && |t| - LastOne(t).value >= 7
    ensures Decode(t) == DecodeParts(t[..LastOne(t).value], t[LastOne(t).value + 1..])
  {
    hide DecodeParts;
  }

  /**
   Replacing one data character of a decodable text, of any length, by any other that is not the same letter never
   decodes to the same prefix under the same variant: the separator lengthens the prefix, everything else changes the
   checksum.
   */
  lemma OneErrorDetected(t: Text, i: nat, u: CodeUnit)
    requires Decode(t).Some? && LastOne(t).value < i < |t| && Lower(u) != Lower(t[i])
    ensures Decode(t[i := u]).Some? ==>
      if u == ONE then Decode(t[i := u]).value.hrp == t[..i] && |Decode(t[i := u]).value.hrp| > |Decode(t).value.hrp|
      else Decode(t[i := u]).value.variant != Decode(t).value.variant
  {
    hide *;
    DecodeSplit(t);
    var sep := LastOne(t).value;
    var hrp, part := t[..sep], t[sep + 1..];
    Separated(t);
    var k := i - sep - 1;
    if u == ONE {
      SeparatorLengthens(t, i);
    } else {
      Replaced(hrp, part, k, u);
      var changed := part[..k] + [u] + part[k + 1..];
      assert t[i := u] == hrp + [ONE] + changed && |hrp| >= 1 && |changed| >= 6;
      DecodeAt(hrp, changed);
      OneCharacter(hrp, part, k, u);
    }
  }

  lemma SeparatorLengthens(t: Text, i: nat)
    requires Decode(t).Some? && LastOne(t).value < i < |t|
    ensures Decode(t).value.hrp == t[..LastOne(t).value]
    ensures Decode(t[i := ONE]).Some? ==> Decode(t[i := ONE]).value.hrp == t[..i] && i > LastOne(t).value
  {
    hide DecodeParts, LastOne;
    DecodeSplit(t);
    PrefixKept(t[..LastOne(t).value], t[LastOne(t).value + 1..]);
    var s := t[i := ONE];
    assert ONE !in t[i + 1..];
    assert s == t[..i] + [ONE] + t[i + 1..];
    DecodeAt(t[..i], t[i + 1..]);
    if Decode(s).Some? {
      PrefixKept(t[..i], t[i + 1..]);
    }
  }

  lemma PrefixKept(hrp: Text, part: Text)
    requires |part| >= 6 && DecodeParts(hrp, part).Some?
    ensures DecodeParts(hrp, part).value.hrp == hrp
  {
    hide Values, Poly, Convert, HrpExpand, WordsOf;
  }

  /**
   A data character overwritten by the separator moves the split: what stood before becomes part of the prefix.
   The two readings then have the same checksum exactly when they reach the same state before the rest.
   */
  lemma SeparatorDetectedIff(hrp: Text, head: seq<nat>, x: nat, tail: seq<nat>)
    requires Below(head, 32) && x < 32 && Below(tail, 32)
    ensures Below(head + [x], 32) && Below(head + [x] + tail, 32)
    ensures var longer := hrp + [ONE] + Chars(head);
      Poly(Bits(1), HrpExpand(hrp) + WordsOf(head + [x] + tail)) == Poly(Bits(1), HrpExpand(longer) + WordsOf(tail)) <==>
      Poly(Bits(1), HrpExpand(hrp) + WordsOf(head + [x])) == Poly(Bits(1), HrpExpand(longer))
  {
    var longer := hrp + [ONE] + Chars(head);
    assert Below(head + [x], 32);
    hide Poly, HrpExpand, WordsOf, InState, Symbol, Chars;
    WordsAppend(head + [x], tail);
    ExpandBounded(hrp);
    ExpandBounded(longer);
    WordsAreSymbols(head + [x]);
    WordsAreSymbols(tail);
    var short := HrpExpand(hrp) + WordsOf(head + [x]);
    BoundedAppend(HrpExpand(hrp), WordsOf(head + [x]));
    assert HrpExpand(hrp) + WordsOf(head + [x] + tail) == short + WordsOf(tail);
    PolyAppend(Bits(1), short, WordsOf(tail));
    PolyAppend(Bits(1), HrpExpand(longer), WordsOf(tail));
    StartRange();
    PolyRange(Bits(1), short);
    PolyRange(Bits(1), HrpExpand(longer));
    if Poly(Bits(1), short + WordsOf(tail)) == Poly(Bits(1), HrpExpand(longer) + WordsOf(tail)) {
      TailInjective(Poly(Bits(1), short), Poly(Bits(1), HrpExpand(longer)), WordsOf(tail));
    }
  }

  /** A capital letter has the value of its small letter. */
  lemma CapitalsFold(u: CodeUnit)
    requires 65 <= u <= 90
    ensures Value(u) == Value(u + 32)
  {
    hide IndexOf;
  }
}
