/** Proof-of-work targets as 64 characters of little-endian hexadecimal text: src/mining/ckb-target.js. */
module Targets {
  import opened Wrappers
  import opened Radix

  const BYTES: nat := 32

  /** Hex digit of a value, lower case, as toString(16) writes it. */
  function HexChar(d: nat): char {
    if d < 10 then '0' + d as char else if d < 16 then 'a' + (d - 10) as char else '0'
  }

  function HexOf(c: char): nat {
    if '0' <= c <= '9' then (c - '0') as nat
    else if 'a' <= c <= 'f' then (c - 'a') as nat + 10
    else if 'A' <= c <= 'F' then (c - 'A') as nat + 10
    else 0
  }

  function DigitsOf(s: string): (ds: seq<nat>)
    ensures |ds| == |s|
  {
    seq(|s|, i requires 0 <= i < |s| => HexOf(s[i]))
  }

  function TextOf(ds: seq<nat>): (s: string)
    ensures |s| == |ds|
  {
    seq(|ds|, i requires 0 <= i < |ds| => HexChar(ds[i]))
  }

  /** BigInt('0x' + s). */
  function HexValue(s: string): nat {
    Num(DigitsOf(s), 16)
  }

  /** The byte pairs of an even-length text in opposite order. */
  function Swapped(s: string): (t: string)
    ensures |s| % 2 == 0 ==> |t| == |s|
  {
    if |s| < 2 then "" else Swapped(s[2..]) + s[..2]
  }

  function Mask256(): nat {
    Power(16, 2 * BYTES) - 1
  }

  function HexLEToNumber(hex: string): nat {
    HexValue(Swapped(hex))
  }

  /** n.toString(16).padStart(64, '0'), then pair by pair from the right; negative and oversized values are clamped. */
  function NumberToHexLE(n: int): string {
    var v := if n <= 0 then 0 else if n > Mask256() then Mask256() else n;
    Swapped(TextOf(Digits(v, 2 * BYTES, 16)))
  }

  /** for (i = 62; i >= 0; i -= 2) be += hex.slice(i, i + 2). */
  method SwapPairs(hex: string) returns (be: string)
    requires |hex| == 2 * BYTES
    ensures be == Swapped(hex)
  {
    hide Swapped;
    be := "";
    assert hex[..64] == hex;
    var i := 62;
    ghost var left := 32;
    while i >= 0
      invariant left >= 0 && i == 2 * left - 2 <= 62
      invariant Swapped(hex) == be + Swapped(hex[..2 * left])
    {
      SwapLast(hex[..2 * left]);
      assert hex[..2 * left][..i] == hex[..i] && hex[..2 * left][i..] == hex[i..i + 2];
      be := be + hex[i..i + 2];
      i := i - 2;
      left := left - 1;
    }
    NothingSwapped();
  }

  lemma NothingSwapped()
    ensures Swapped("") == ""
  {
  }

  lemma SwapLast(s: string)
    requires |s| >= 2 && |s| % 2 == 0
    ensures Swapped(s) == s[|s| - 2..] + Swapped(s[..|s| - 2])
  {
    var rest, pair := s[..|s| - 2], s[|s| - 2..];
    assert s == rest + pair;
    SwapConcat(rest, pair);
    SwapPair(pair);
  }

  lemma SwapPair(pair: string)
    requires |pair| == 2
    ensures Swapped(pair) == pair
  {
    assert pair[2..] == "" && pair[..2] == pair;
  }

  lemma {:induction false} SwapConcat(s: string, t: string)
    requires |s| % 2 == 0
    ensures Swapped(s + t) == Swapped(t) + Swapped(s)
  {
    if s == "" {
      assert s + t == t;
    } else {
      assert (s + t)[2..] == s[2..] + t && (s + t)[..2] == s[..2];
      SwapConcat(s[2..], t);
    }
  }

  lemma {:induction false} SwapTwice(s: string)
    requires |s| % 2 == 0
    ensures Swapped(Swapped(s)) == s
  {
    if s != "" {
      SwapTwice(s[2..]);
      SwapConcat(Swapped(s[2..]), s[..2]);
      SwapPair(s[..2]);
      assert s == s[..2] + s[2..];
    }
  }

  // ---------- conversions ----------

  lemma HexBack(d: nat)
    requires d < 16
    ensures HexOf(HexChar(d)) == d
  {
  }

  lemma TextBack(ds: seq<nat>)
    requires Below(ds, 16)
    ensures DigitsOf(TextOf(ds)) == ds
  {
    forall i | 0 <= i < |ds| ensures DigitsOf(TextOf(ds))[i] == ds[i] {
      HexBack(ds[i]);
    }
  }

  lemma MaskRange()
    ensures Mask256() + 1 == Power(16, 2 * BYTES) == Pow2(256)
  {
    PowerOfTwo(4, 64);
    TimesIs(4, 64);
    assert Pow2(4) == 16;
    NumBelow([], 16);
    hide Power, Pow2;
  }

  /** Reading back what was written gives the number, clamped to 0 .. 2^256 - 1. */
  lemma NumberRoundTrip(n: int)
    ensures HexLEToNumber(NumberToHexLE(n)) == if n <= 0 then 0 else if n > Mask256() then Mask256() else n
  {
    MaskRange();
    var v := if n <= 0 then 0 else if n > Mask256() then Mask256() else n;
    hide Mask256, Power, Pow2, Swapped, Digits, Num;
    var ds := Digits(v, 2 * BYTES, 16);
    DigitsBelow(v, 2 * BYTES, 16);
    TextBack(ds);
    SwapTwice(TextOf(ds));
    NumOfDigits(v, 2 * BYTES, 16);
  }

  const MICROS: nat := 1_000_000

  /** A session's difficulty, as far as diffToTargetLE looks at it: Math.round(diff * 1e6) when it is positive. */
  datatype Difficulty = NotPositive | Rounded(micros: nat)

  function Scaled(micros: nat): nat
    requires micros > 0
  {
    Pow2(224) * MICROS / micros
  }

  /** diffToTargetLE; None when it divides by zero. */
  function DiffToTargetLE(d: Difficulty): Option<string> {
    match d
    case NotPositive => Some(NumberToHexLE(Pow2(224)))
    case Rounded(micros) => if micros == 0 then None else Some(NumberToHexLE(Scaled(micros)))
  }

  lemma ScaledPositive(total: nat, micros: nat)
    requires micros > 0
    ensures total / micros > 0 <==> micros <= total
  {
    if micros <= total {
      Bigger(1, total / micros, micros);
    }
  }

  /** A target is assigned unless the difficulty rounds to zero; it is 64 characters long, and zero exactly above 2^224. */
  lemma AssignedIff(d: Difficulty)
    ensures DiffToTargetLE(d).Some? <==> d != Rounded(0)
    ensures DiffToTargetLE(d).Some? ==>
      && |DiffToTargetLE(d).value| == 2 * BYTES
      && (HexLEToNumber(DiffToTargetLE(d).value) != 0 <==> d.NotPositive? || d.micros <= Pow2(224) * MICROS)
  {
    MaskPositive();
    hide Pow2, Mask256, HexLEToNumber, NumberToHexLE;
    if d.NotPositive? {
      WrittenLength(Pow2(224));
      NumberRoundTrip(Pow2(224));
    } else if d.micros != 0 {
      WrittenLength(Scaled(d.micros));
      NumberRoundTrip(Scaled(d.micros));
      ScaledPositive(Pow2(224) * MICROS, d.micros);
    }
  }

  lemma MaskPositive()
    ensures Mask256() > 0
  {
    MaskRange();
    assert Pow2(256) == 2 * Pow2(255);
    hide Power, Pow2;
  }

  lemma WrittenLength(n: int)
    ensures |NumberToHexLE(n)| == 2 * BYTES
  {
    hide Swapped, Digits, Mask256;
  }

  predicate LowerHex(s: string) {
    forall i | 0 <= i < |s| :: '0' <= s[i] <= '9' || 'a' <= s[i] <= 'f'
  }

  lemma {:induction false} SwappedLower(s: string)
    requires LowerHex(s)
    ensures LowerHex(Swapped(s))
  {
    if |s| >= 2 {
      SwappedLower(s[2..]);
    }
  }

  lemma LowerBack(s: string)
    requires LowerHex(s)
    ensures Below(DigitsOf(s), 16) && TextOf(DigitsOf(s)) == s
  {
  }

  /** Writing what was read gives back every 64-character lower-case target. */
  lemma TextRoundTrip(hex: string)
    requires LowerHex(hex) && |hex| == 2 * BYTES
    ensures NumberToHexLE(HexLEToNumber(hex)) == hex
  {
    var be := Swapped(hex);
    SwappedLower(hex);
    LowerBack(be);
    NumBelow(DigitsOf(be), 16);
    DigitsOfNum(DigitsOf(be), 16);
    SwapTwice(hex);
    hide Power, Swapped, Digits, Num, DigitsOf, TextOf, LowerHex, Below;
  }

  // ---------- comparison ----------

  /** Buffer.from(hex, 'hex'). */
  function BytesOf(hex: string): seq<nat> {
    if |hex| < 2 then [] else [HexOf(hex[0]) * 16 + HexOf(hex[1])] + BytesOf(hex[2..])
  }

  lemma {:induction false} BytesLength(hex: string)
    requires |hex| % 2 == 0
    ensures |BytesOf(hex)| == |hex| / 2
  {
    if hex != "" {
      BytesLength(hex[2..]);
    }
  }

  /** meetsTargetLE. */
  predicate MeetsTarget(hash: seq<nat>, targetHex: string)
    requires |hash| == BYTES && |targetHex| == 2 * BYTES
  {
    BytesLength(targetHex);
    Meets(hash, Reversed(BytesOf(targetHex)))
  }

  /** Byte by byte from the most significant end: the hash is big-endian, the target little-endian. */
  method MeetsTargetLE(hash: seq<nat>, targetHex: string) returns (meets: bool)
    requires |hash| == BYTES && |targetHex| == 2 * BYTES
    ensures meets == MeetsTarget(hash, targetHex)
  {
    var tLE := BytesOf(targetHex);
    BytesLength(targetHex);
    ReversedAt(tLE);
    var i := 0;
    while i < BYTES
      invariant 0 <= i <= BYTES
      invariant Meets(hash, Reversed(tLE)) == Meets(hash[i..], Reversed(tLE)[i..])
    {
      var tByte := tLE[31 - i];
      assert hash[i..][0] == hash[i] && Reversed(tLE)[i..][0] == tByte;
      assert hash[i..][1..] == hash[i + 1..] && Reversed(tLE)[i..][1..] == Reversed(tLE)[i + 1..];
      if hash[i] < tByte {
        return true;
      }
      if hash[i] > tByte {
        return false;
      }
      i := i + 1;
    }
    return true;
  }

  function Reversed(s: seq<nat>): (r: seq<nat>)
    ensures |r| == |s|
  {
    if s == [] then [] else Reversed(s[1..]) + [s[0]]
  }

  lemma {:induction false} ReversedAt(s: seq<nat>)
    ensures forall i | 0 <= i < |s| :: Reversed(s)[i] == s[|s| - 1 - i]
  {
    if s != [] {
      ReversedAt(s[1..]);
    }
  }

  /** Big-endian comparison, the first difference deciding. */
  predicate Meets(hash: seq<nat>, target: seq<nat>)
    requires |hash| == |target|
  {
    hash == [] || hash[0] < target[0] || (hash[0] == target[0] && Meets(hash[1..], target[1..]))
  }

  lemma NumFirst(ds: seq<nat>, base: nat)
    requires ds != []
    ensures Num(ds, base) == ds[0] * Power(base, |ds| - 1) + Num(ds[1..], base)
  {
    if |ds| == 1 {
      assert ds[..0] == [] && ds[1..] == [];
    } else {
      var n := |ds| - 1;
      NumFirst(ds[..n], base);
      assert ds[..n][1..] == ds[1..][..n - 1];
      Distributed(ds[0], Power(base, n - 1), base, Num(ds[..n][1..], base));
    }
  }

  lemma Distributed(d: nat, p: nat, base: nat, rest: nat)
    ensures (d * p + rest) * base == d * (p * base) + rest * base
  {
    assert d * p * base == d * (p * base);
  }

  /** Comparing from the most significant digit is comparing numbers. */
  lemma {:induction false} MeetsIsOrder(a: seq<nat>, b: seq<nat>, base: nat)
    requires |a| == |b| && base >= 1 && Below(a, base) && Below(b, base)
    ensures Meets(a, b) <==> Num(a, base) <= Num(b, base)
  {
    if a != [] {
      MeetsIsOrder(a[1..], b[1..], base);
      NumFirst(a, base);
      NumFirst(b, base);
      NumBelow(a[1..], base);
      NumBelow(b[1..], base);
      LeadingDigit(a[0], Num(a[1..], base), b[0], Num(b[1..], base), Power(base, |a| - 1));
    }
  }

  lemma LeadingDigit(d: nat, x: nat, e: nat, y: nat, p: nat)
    requires x < p && y < p
    ensures d < e ==> d * p + x < e * p + y
    ensures d > e ==> d * p + x > e * p + y
  {
    if d < e {
      Bigger(d + 1, e, p);
      Spread(d, p);
    } else if e < d {
      Bigger(e + 1, d, p);
      Spread(e, p);
    }
  }

  lemma {:induction false} BytesBelow(hex: string)
    ensures Below(BytesOf(hex), 256)
  {
    if |hex| >= 2 {
      BytesBelow(hex[2..]);
    }
  }

  lemma TwoDigits(s: string)
    requires |s| == 2
    ensures HexValue(s) == HexOf(s[0]) * 16 + HexOf(s[1])
  {
    var ds := DigitsOf(s);
    assert ds[..1] == [ds[0]] && ds[..1][..0] == [];
    assert Num(ds[..1][..0], 16) == 0;
    assert Num(ds[..1], 16) == ds[0];
  }

  lemma HexSnoc(s: string, pair: string)
    requires |pair| == 2
    ensures HexValue(s + pair) == HexValue(s) * 256 + HexValue(pair)
  {
    var a := DigitsOf(s);
    var x, y := HexOf(pair[0]), HexOf(pair[1]);
    assert DigitsOf(s + pair) == a + [x] + [y];
    NumSnoc(a, x, 16);
    NumSnoc(a + [x], y, 16);
    TwoDigits(pair);
    assert (Num(a, 16) * 16 + x) * 16 + y == Num(a, 16) * 256 + (x * 16 + y);
  }

  /** The target's bytes from the most significant end are its number. */
  lemma {:induction false} TargetNumber(hex: string)
    requires |hex| % 2 == 0
    ensures Num(Reversed(BytesOf(hex)), 256) == HexLEToNumber(hex)
  {
    if hex == "" {
    } else {
      TargetNumber(hex[2..]);
      var b := HexOf(hex[0]) * 16 + HexOf(hex[1]);
      assert BytesOf(hex)[1..] == BytesOf(hex[2..]) && BytesOf(hex)[0] == b;
      NumSnoc(Reversed(BytesOf(hex[2..])), b, 256);
      HexSnoc(Swapped(hex[2..]), hex[..2]);
      TwoDigits(hex[..2]);
    }
  }

  lemma {:induction false} ReversedBelow(s: seq<nat>, base: nat)
    requires Below(s, base)
    ensures Below(Reversed(s), base)
  {
    if s != [] {
      ReversedBelow(s[1..], base);
    }
  }

  /** A hash meets a target exactly when the big-endian number of the one is at most the little-endian number of the other. */
  lemma MeetsIffAtMost(hash: seq<nat>, targetHex: string)
    requires |hash| == BYTES && |targetHex| == 2 * BYTES && Below(hash, 256)
    ensures MeetsTarget(hash, targetHex) <==> Num(hash, 256) <= HexLEToNumber(targetHex)
  {
    var bytes := BytesOf(targetHex);
    BytesLength(targetHex);
    BytesBelow(targetHex);
    ReversedBelow(bytes, 256);
    MeetsIsOrder(hash, Reversed(bytes), 256);
    TargetNumber(targetHex);
  }

  // ---------- what texts and difficulties stand for ----------

  lemma DigitMeans(n: nat)
    requires n < 16
    ensures HexChar(n) == "0123456789abcdef"[n] && HexOf("0123456789abcdef"[n]) == n && HexOf("0123456789ABCDEF"[n]) == n
  {
  }

  /** Two digits a byte, the high digit first; the first byte is the least significant. */
  lemma LittleEndianText(hex: string)
    requires |hex| >= 2 && |hex| % 2 == 0
    ensures HexLEToNumber("") == 0
    ensures HexLEToNumber(hex) == 16 * HexOf(hex[0]) + HexOf(hex[1]) + 256 * HexLEToNumber(hex[2..])
  {
    HexSnoc(Swapped(hex[2..]), hex[..2]);
    TwoDigits(hex[..2]);
    hide HexValue, HexOf;
    assert HexValue("") == 0 by {
      NoText();
    }
  }

  lemma NoText()
    ensures HexValue("") == 0
  {
  }

  ghost function ZeroText(n: nat): string {
    seq(2 * n, i => '0')
  }

  lemma {:induction false} AfterZeros(n: nat, rest: string)
    requires |rest| % 2 == 0
    ensures HexLEToNumber(ZeroText(n) + rest) == HexLEToNumber(rest) * Power(256, n)
  {
    hide HexLEToNumber;
    ZeroPairFirst(n, rest);
    if n > 0 {
      var t := ZeroText(n) + rest;
      LittleEndianText(t);
      AfterZeros(n - 1, rest);
      hide ZeroText, HexOf;
      Shifted(HexLEToNumber(rest), Power(256, n - 1));
    }
  }

  lemma ZeroPairFirst(n: nat, rest: string)
    ensures n == 0 ==> ZeroText(n) + rest == rest
    ensures n > 0 ==> (ZeroText(n) + rest)[2..] == ZeroText(n - 1) + rest && |ZeroText(n)| == 2 * n
    ensures n > 0 ==> HexOf((ZeroText(n) + rest)[0]) == HexOf((ZeroText(n) + rest)[1]) == 0
  {
    assert n > 0 ==> (ZeroText(n) + rest)[2..] == ZeroText(n - 1) + rest;
  }

  lemma Shifted(x: nat, p: nat)
    ensures 256 * (x * p) == x * (p * 256)
  {
    assert x * p * 256 == x * (p * 256);
  }

  lemma OneThenZeros()
    ensures HexLEToNumber("01000000") == 1
  {
    LittleEndianText("01000000");
    LittleEndianText("000000");
    LittleEndianText("0000");
    LittleEndianText("00");
    hide HexLEToNumber;
    assert "01000000"[2..] == "000000" && "000000"[2..] == "0000" && "0000"[2..] == "00" && "00"[2..] == "";
  }

  lemma ByteBase()
    ensures Pow2(8) == 256
  {
  }

  lemma FirstTextLower()
    ensures |ZeroText(28) + "01000000"| == 2 * BYTES && LowerHex(ZeroText(28) + "01000000")
  {
  }

  /** Difficulty 1 is the target 2^224: the 29th byte is 1, every other one 0. */
  lemma FirstTarget()
    ensures HexLEToNumber(ZeroText(28) + "01000000") == Pow2(224)
    ensures DiffToTargetLE(NotPositive) == Some(ZeroText(28) + "01000000")
  {
    FirstTextLower();
    ByteBase();
    hide HexLEToNumber, NumberToHexLE, Pow2, Power, LowerHex, ZeroText;
    AfterZeros(28, "01000000");
    OneThenZeros();
    PowerOfTwo(8, 28);
    TimesIs(8, 28);
    TextRoundTrip(ZeroText(28) + "01000000");
  }

  /** q is the whole part of a / b. */
  ghost predicate WholePart(q: nat, a: nat, b: nat) {
    q * b <= a < (q + 1) * b
  }

  lemma DividesDown(a: nat, b: nat)
    requires b > 0
    ensures WholePart(a / b, a, b)
  {
    Euclid(a, b);
    Spread(a / b, b);
  }

  lemma NeverClamped()
    ensures Pow2(224) * MICROS <= Mask256() && Pow2(224) <= Mask256()
  {
    MaskRange();
    assert Pow2(20) == 1048576 by {
      Million();
    }
    hide Pow2, Mask256;
    PowAdd(224, 20);
    PowAdd(244, 12);
    Bigger(MICROS, Pow2(20), Pow2(224));
    Bigger(1, Pow2(12), Pow2(244));
    Product(MICROS, Pow2(20), Pow2(224));
  }

  lemma Product(x: nat, y: nat, b: nat)
    requires x < y && b >= 1
    ensures b * x < b * y
  {
    Bigger(x + 1, y, b);
    Spread(x, b);
  }

  lemma Million()
    ensures Pow2(20) == 1048576
  {
    PowTen();
    PowAdd(10, 10);
    hide Pow2;
  }

  lemma PowTen()
    ensures Pow2(10) == 1024
  {
  }

  /** The target assigned is difficulty 1's divided by the difficulty, in millionths and rounded down; none is ever clamped. */
  lemma TargetMeans(d: Difficulty)
    requires d.Rounded? && d.micros != 0
    ensures DiffToTargetLE(d).Some?
    ensures WholePart(HexLEToNumber(DiffToTargetLE(d).value), Pow2(224) * 1_000_000, d.micros)
  {
    NeverClamped();
    hide Pow2, Mask256, HexLEToNumber, NumberToHexLE;
    var total := Pow2(224) * MICROS;
    DividesDown(total, d.micros);
    Bigger(1, d.micros, total / d.micros);
    hide WholePart;
    AtMostAll(total, d.micros);
    NumberRoundTrip(Scaled(d.micros));
  }

  lemma AtMostAll(a: nat, b: nat)
    requires b > 0
    ensures a / b <= a
  {
    Euclid(a, b);
    Bigger(1, b, a / b);
  }
}
