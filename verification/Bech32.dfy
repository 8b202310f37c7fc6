/** Bech32 (BIP-173) and Bech32m (BIP-350) as src/stratum/username.js writes and reads them. */
module Bech32 {
  import opened Wrappers
  import opened Radix
  import opened ConvertBits
  import opened Checksum

  /** A UTF-16 code unit of a JavaScript string. */
  newtype CodeUnit = u: int | 0 <= u < 0x10000

  type Text = seq<CodeUnit>

  datatype Variant = Plain | Modified   // 'bech32' and 'bech32m'

  datatype Decoded = Decoded(hrp: Text, data: seq<nat>, variant: Variant)

  const ONE: CodeUnit := 49       // '1'
  const KELVIN: CodeUnit := 0x212A

  function Target(v: Variant): Bits {
    match v
    case Plain => Bits(1)
    case Modified => Bits(0x2bc830a3)
  }

  // ---------- the alphabet ----------

  /** "qpzry9x8gf2tvdw0s3jn54khce6mua7l" */
  const CHARSET: Text := [
    113, 112, 122, 114, 121, 57, 120, 56, 103, 102, 50, 116, 118, 100, 119, 48,
    115, 51, 106, 110, 53, 52, 107, 104, 99, 101, 54, 109, 117, 97, 55, 108]

  /** toLowerCase, as far as its result can be in the alphabet: ASCII capitals and the Kelvin sign. */
  function Lower(u: CodeUnit): CodeUnit {
    if 65 <= u <= 90 then u + 32 else if u == KELVIN then 107 else u
  }

  function IndexOf(s: Text, u: CodeUnit): (k: Option<nat>)
    ensures k.Some? ==> k.value < |s| && s[k.value] == u
  {
    if s == [] then None
    else if s[|s| - 1] == u then Some(|s| - 1)
    else IndexOf(s[..|s| - 1], u)
  }

  /** CHARSET_REV.get(ch.toLowerCase()). */
  function Value(u: CodeUnit): Option<nat> {
    IndexOf(CHARSET, Lower(u))
  }

  function Char(v: nat): CodeUnit {
    if v < 32 then CHARSET[v] else 0
  }

  function Chars(vs: seq<nat>): (t: Text)
    ensures |t| == |vs|
  {
    seq(|vs|, i requires 0 <= i < |vs| => Char(vs[i]))
  }

  function Lowered(t: Text): (l: Text)
    ensures |l| == |t|
  {
    seq(|t|, i requires 0 <= i < |t| => Lower(t[i]))
  }

  /** None as soon as one character is not in the alphabet. */
  function Values(t: Text): (vs: Option<seq<nat>>)
    ensures vs.Some? ==> |vs.value| == |t| && Below(vs.value, 32)
  {
    if t == [] then Some([])
    else
      var before, last := Values(t[..|t| - 1]), Value(t[|t| - 1]);
      if before.None? || last.None? then None else Some(before.value + [last.value])
  }

  // ---------- words of the checksum ----------

  function WordOf(v: nat): Bits
    requires v < 0x1_0000_0000
  {
    Bits(v as bv32)
  }

  function NatOf(b: Bits): nat {
    b.w as nat
  }

  function WordsOf(vs: seq<nat>): (ws: seq<Bits>)
    requires Below(vs, 32)
    ensures |ws| == |vs|
  {
    seq(|vs|, i requires 0 <= i < |vs| => WordOf(vs[i]))
  }

  function NatsOf(ws: seq<Bits>): (vs: seq<nat>)
    ensures |vs| == |ws|
  {
    seq(|ws|, i requires 0 <= i < |ws| => NatOf(ws[i]))
  }

  function HighParts(hrp: Text): (ws: seq<Bits>)
    ensures |ws| == |hrp|
  {
    seq(|hrp|, i requires 0 <= i < |hrp| => WordOf(hrp[i] as nat / 32))
  }

  function LowParts(hrp: Text): (ws: seq<Bits>)
    ensures |ws| == |hrp|
  {
    seq(|hrp|, i requires 0 <= i < |hrp| => WordOf(hrp[i] as nat % 32))
  }

  function HrpExpand(hrp: Text): seq<Bits> {
    HighParts(hrp) + [Zero()] + LowParts(hrp)
  }

  lemma FirstEightBack(v: nat)
    requires 0 <= v < 8
    ensures (v as bv32) as nat == v
  {
  }

  lemma SecondEightBack(v: nat)
    requires 8 <= v < 16
    ensures (v as bv32) as nat == v
  {
  }

  lemma ThirdEightBack(v: nat)
    requires 16 <= v < 24
    ensures (v as bv32) as nat == v
  {
  }

  lemma FourthEightBack(v: nat)
    requires 24 <= v < 32
    ensures (v as bv32) as nat == v
  {
  }

  /** Five-bit numbers survive the trip through a machine word. */
  lemma WordBack(v: nat)
    requires v < 32
    ensures NatOf(WordOf(v)) == v
  {
    hide *;
    if v < 8 {
      FirstEightBack(v);
    } else if v < 16 {
      SecondEightBack(v);
    } else if v < 24 {
      ThirdEightBack(v);
    } else {
      FourthEightBack(v);
    }
    Unwrapped(v);
  }

  lemma Unwrapped(v: nat)
    requires v < 32
    ensures NatOf(WordOf(v)) == (v as bv32) as nat
  {
  }

  lemma WordSmall(v: nat)
    ensures v < 32 ==> Symbol(WordOf(v))
    ensures v < 2048 ==> InState(WordOf(v))
  {
  }

  lemma SymbolBack(b: Bits)
    requires Symbol(b)
    ensures NatOf(b) < 32 && WordOf(NatOf(b)) == b
  {
  }

  // ---------- encoding ----------

  lemma GroupsBelow(payload: seq<nat>)
    requires Convert(payload, 8, 5, true).Some?
    ensures Below(Convert(payload, 8, 5, true).value, 32)
  {
    PaddedNum(payload, 8, 5);
    assert Pow2(5) == 32;
    hide Convert;
  }

  /** The five-bit groups of the payload, then their check symbols. */
  function Encode(hrp: Text, payload: seq<nat>, variant: Variant): Option<Text> {
    var five := Convert(payload, 8, 5, true);
    if five.None? then None
    else
      GroupsBelow(payload);
      var check := Check(HrpExpand(hrp) + WordsOf(five.value), Target(variant));
      Some(hrp + [ONE] + Chars(five.value + NatsOf(check)))
  }

  // ---------- decoding ----------

  /** lastIndexOf('1'); None stands for -1. */
  function LastOne(t: Text): (k: Option<nat>)
    ensures k.Some? ==> k.value < |t| && t[k.value] == ONE && forall j | k.value < j < |t| :: t[j] != ONE
    ensures k.None? ==> ONE !in t
  {
    if t == [] then None
    else if t[|t| - 1] == ONE then Some(|t| - 1)
    else LastOne(t[..|t| - 1])
  }

  function VariantOf(checksum: Bits): Option<Variant> {
    if checksum == Target(Plain) then Some(Plain)
    else if checksum == Target(Modified) then Some(Modified)
    else None
  }

  function Decode(t: Text): Option<Decoded> {
    var sep := LastOne(t);
    if |t| < 8 || sep.None? || sep.value < 1 || sep.value + 7 > |t| then None
    else DecodeParts(t[..sep.value], t[sep.value + 1..])
  }

  function DecodeParts(hrp: Text, part: Text): Option<Decoded>
    requires |part| >= 6
  {
    var values := Values(part);
    if values.None? then None
    else
      var variant := VariantOf(Poly(Bits(1), HrpExpand(hrp) + WordsOf(values.value)));
      if variant.None? then None
      else
        var payload := Convert(values.value[..|values.value| - 6], 5, 8, false);
        if payload.None? then None else Some(Decoded(hrp, payload.value, variant.value))
  }

  // ---------- the source's loops ----------

  method HrpExpandLoop(hrp: Text) returns (out: seq<Bits>)
    ensures out == HrpExpand(hrp)
  {
    hide WordOf;
    out := [];
    for i := 0 to |hrp|
      invariant out == HighParts(hrp)[..i]
    {
      out := out + [WordOf(hrp[i] as nat / 32)];
    }
    out := out + [Zero()];
    for i := 0 to |hrp|
      invariant out == HighParts(hrp) + [Zero()] + LowParts(hrp)[..i]
    {
      out := out + [WordOf(hrp[i] as nat % 32)];
    }
  }

  method Bech32Encode(hrp: Text, payload: seq<nat>, variant: Variant) returns (r: Option<Text>)
    ensures r == Encode(hrp, payload, variant)
  {
    hide Poly, SixGroups, Add, Chars, NatsOf, WordsOf, Convert, HrpExpand;
    var five := ConvertBits.ConvertBits(payload, 8, 5, true);
    if five.None? {
      return None;
    }
    GroupsBelow(payload);
    var exp := HrpExpandLoop(hrp);
    var polymod := Polymod(exp + WordsOf(five.value) + Zeros());
    var checksum := NatsOf(SixGroups(Add(polymod, Target(variant))));
    return Some(hrp + [ONE] + Chars(five.value + checksum));
  }

  method Bech32Decode(t: Text) returns (r: Option<Decoded>)
    ensures r == Decode(t)
  {
    hide Poly, Value, WordsOf, Convert, HrpExpand, Target;
    if |t| < 8 {
      return None;
    }
    var sep := LastOne(t);
    if sep.None? || sep.value < 1 || sep.value + 7 > |t| {
      return None;
    }
    var hrp, part := t[..sep.value], t[sep.value + 1..];
    var values: seq<nat> := [];
    for i := 0 to |part|
      invariant Values(part[..i]) == Some(values)
    {
      assert part[..i + 1][..i] == part[..i];
      var v := Value(part[i]);
      if v.None? {
        ValuesStop(part, i + 1);
        return None;
      }
      values := values + [v.value];
    }
    assert part[..|part|] == part;
    var exp := HrpExpandLoop(hrp);
    var checksum := Polymod(exp + WordsOf(values));
    var variant := VariantOf(checksum);
    if variant.None? {
      return None;
    }
    var payload := ConvertBits.ConvertBits(values[..|values| - 6], 5, 8, false);
    if payload.None? {
      return None;
    }
    return Some(Decoded(hrp, payload.value, variant.value));
  }

  lemma {:induction false} ValuesStop(t: Text, k: nat)
    requires k <= |t| && Values(t[..k]).None?
    ensures Values(t).None?
    decreases |t| - k
  {
    hide Value;
    if k < |t| {
      assert t[..k + 1][..k] == t[..k];
      ValuesStop(t, k + 1);
    } else {
      assert t[..k] == t;
    }
  }
}
