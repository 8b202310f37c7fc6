/**
 Regrouping of bits, convertBits of src/stratum/username.js: the loop over a 32-bit accumulator against
 the same regrouping of one unbounded number.
 */
module ConvertBits {
  import opened Wrappers
  import opened Radix

  const TWO31: int := 0x8000_0000
  const TWO32: int := 0x1_0000_0000

  /** The value a bitwise operator of the source leaves in a variable. */
  function ToInt32(x: int): int {
    (x + TWO31) % TWO32 - TWO31
  }

  /** x & ((1 << w) - 1). */
  function Low(x: int, w: nat): (r: nat)
    ensures r == x % Pow2(w)
  {
    x % Pow2(w)
  }

  // ---------- the result, over unbounded numbers ----------

  /** The bits above the last `rest`, and those last bits moved to the top of a group. */
  function Leading(all: nat, rest: nat): nat {
    Div(all, Pow2(rest))
  }

  function Trailing(all: nat, rest: nat, to: nat): nat
    requires rest <= to
  {
    all % Pow2(rest) * Pow2(to - rest)
  }

  /** All input bits as one number, cut into groups from the left. */
  function Convert(data: seq<nat>, from: nat, to: nat, pad: bool): Option<seq<nat>>
    requires to >= 1
  {
    if !Below(data, Pow2(from)) then None
    else
      var all, total := Num(data, Pow2(from)), Times(from, |data|);
      var groups, rest := total / to, total % to;
      var whole, last := Digits(Leading(all, rest), groups, Pow2(to)), Trailing(all, rest, to);
      if pad then Some(whole + if rest > 0 then [last] else [])
      else if rest >= from || last != 0 then None
      else Some(whole)
  }

  // ---------- arithmetic ----------

  lemma DivDiv(a: nat, x: nat, y: nat)
    requires x >= 1 && y >= 1 && x * y >= 1
    ensures a / x / y == a / (x * y)
  {
    var q, r := a / x, a % x;
    var p, s := q / y, q % y;
    Euclid(a, x);
    Euclid(q, y);
    var m := s * x + r;
    Bigger(s + 1, y, x);
    Spread(s, x);
    calc {
      a;
      q * x + r;
      (p * y + s) * x + r;
      { Regroup(p, y, s, x); }
      p * (x * y) + m;
    }
    Swap(x, y);
    DivMod(p, x * y, m);
  }

  lemma Regroup(p: int, y: int, s: int, x: int)
    ensures (p * y + s) * x == p * (x * y) + s * x
  {
    assert p * y * x == p * (x * y);
  }

  lemma Swap(x: int, y: int)
    ensures x * y == y * x
  {
  }

  lemma ShiftShift(a: nat, b: nat, t: nat)
    ensures a / Pow2(b) / Pow2(t) == a / Pow2(b + t)
  {
    PowAdd(b, t);
    DivDiv(a, Pow2(b), Pow2(t));
  }

  /** Values that agree in their low 32 bits. */
  predicate Agree(x: int, y: int) {
    (x - y) % TWO32 == 0
  }

  lemma WrapAgrees(x: int)
    ensures Agree(ToInt32(x), x)
  {
  }

  lemma AgreeTrans(x: int, y: int, z: int)
    requires Agree(x, y) && Agree(y, z)
    ensures Agree(x, z)
  {
  }

  lemma AgreePlus(x: int, y: int, d: int)
    requires Agree(x, y)
    ensures Agree(x + d, y + d)
  {
  }

  lemma AgreeTimes(x: int, y: int, k: int)
    requires Agree(x, y)
    ensures Agree(x * k, y * k)
  {
    var q := (x - y) / TWO32;
    assert x - y == TWO32 * q;
    assert x * k - y * k == TWO32 * (q * k) by {
      Factor(x, y, k);
      assert TWO32 * q * k == TWO32 * (q * k);
    }
    Multiple(q * k);
  }

  lemma Factor(x: int, y: int, k: int)
    ensures x * k - y * k == (x - y) * k
  {
  }

  lemma Multiple(q: int)
    ensures (TWO32 * q) % TWO32 == 0
  {
  }

  lemma DivPlus(a: int, q: int, m: int)
    requires m >= 1
    ensures (a + q * m) / m == a / m + q && (a + q * m) % m == a % m
  {
    var b := a + q * m;
    assert a == (a / m) * m + a % m;
    assert b == (b / m) * m + b % m;
    var d := b / m - (a / m + q);
    assert d * m == a % m - b % m by {
      Factor(b / m, a / m + q, m);
      Factor3(a / m, q, m);
    }
    if d >= 1 {
      Bigger(1, d, m);
    } else if d <= -1 {
      Bigger(d, -1, m);
    }
  }

  lemma Factor3(x: int, y: int, k: int)
    ensures (x + y) * k == x * k + y * k
  {
  }

  lemma SplitWord(b: nat, t: nat)
    requires b + t <= 32
    ensures TWO32 == Pow2(32 - b - t) * Pow2(t) * Pow2(b)
  {
    Pow32();
    PowAdd(32 - b - t, t);
    PowAdd(32 - b, b);
  }

  lemma HighPart(acc: int, all: int, q: int, top: int, t: int, p: int)
    requires t >= 1 && p >= 1 && acc - all == (top * t * p) * q
    ensures acc / p % t == all / p % t
  {
    assert acc == all + (q * top * t) * p by {
      Assoc(q, top * t, p);
      Assoc(q, top, t);
      Swap(q, top * t * p);
    }
    DivPlus(all, q * top * t, p);
    DivPlus(all / p, q * top, t);
  }

  /** Bits that lie within the low 32 are the same in both. */
  lemma SameBits(acc: int, all: nat, b: nat, t: nat)
    requires Agree(acc, all) && b + t <= 32
    ensures acc / Pow2(b) % Pow2(t) == all / Pow2(b) % Pow2(t)
  {
    SplitWord(b, t);
    var q := (acc - all) / TWO32;
    assert acc - all == TWO32 * q;
    hide Pow2;
    HighPart(acc, all, q, Pow2(32 - b - t), Pow2(t), Pow2(b));
  }

  lemma Assoc(x: int, y: int, z: int)
    ensures x * (y * z) == (x * y) * z
  {
  }

  lemma Pow32()
    ensures Pow2(32) == TWO32
  {
    assert Pow2(8) == 256;
    PowAdd(8, 8);
    PowAdd(16, 16);
  }

  // ---------- the loop ----------

  /** What the accumulator and the groups emitted so far stand for. */
  ghost predicate State(data: seq<nat>, i: nat, acc: int, bits: nat, ret: seq<nat>, from: nat, to: nat)
    requires i <= |data|
  {
    var all := Num(data[..i], Pow2(from));
    && Agree(acc, all)
    && Times(from, i) == Times(to, |ret|) + bits
    && ret == Digits(all / Pow2(bits), |ret|, Pow2(to))
  }

  lemma TakeIn(data: seq<nat>, i: nat, acc: int, bits: nat, ret: seq<nat>, from: nat, to: nat)
    requires i < |data| && data[i] < Pow2(from) && State(data, i, acc, bits, ret, from, to)
    ensures State(data, i + 1, ToInt32(acc * Pow2(from)) + data[i], bits + from, ret, from, to)
  {
    var base := Pow2(from);
    var all := Num(data[..i], base);
    assert data[..i + 1] == data[..i] + [data[i]];
    NumSnoc(data[..i], data[i], base);
    AgreeTimes(acc, all, base);
    WrapAgrees(acc * base);
    AgreeTrans(ToInt32(acc * base), acc * base, all * base);
    AgreePlus(ToInt32(acc * base), all * base, data[i]);
    DivMod(all, base, data[i]);
    ShiftShift(all * base + data[i], from, bits);
    assert from + bits == bits + from;
  }

  lemma GiveOut(data: seq<nat>, i: nat, acc: int, bits: nat, ret: seq<nat>, from: nat, to: nat)
    requires i <= |data| && State(data, i, acc, bits, ret, from, to) && to <= bits <= 32
    ensures State(data, i, acc, bits - to, ret + [Low(acc / Pow2(bits - to), to)], from, to)
  {
    var all := Num(data[..i], Pow2(from));
    SameBits(acc, all, bits - to, to);
    ShiftShift(all, bits - to, to);
    var ret' := ret + [acc / Pow2(bits - to) % Pow2(to)];
    assert |ret'| == |ret| + 1;
    hide Agree, Num, Pow2;
  }

  lemma Counted(total: nat, to: nat, groups: nat, bits: nat)
    requires total == Times(to, groups) + bits && bits < to
    ensures total / to == groups && total % to == bits
  {
    TimesIs(to, groups);
    Swap(to, groups);
    DivMod(groups, to, bits);
  }

  lemma Raised(all: nat, low: nat, up: nat)
    requires low >= 1 && up >= 1 && low * up >= 1
    ensures (all * up) % (low * up) == all % low * up
  {
    var q, r := all / low, all % low;
    Euclid(all, low);
    assert all * up == q * (low * up) + r * up by {
      Factor3(q * low, r, up);
      Assoc(q, low, up);
    }
    Bigger(r + 1, low, up);
    Spread(r, up);
    DivMod(q, low * up, r * up);
  }

  lemma LastGroup(acc: int, all: nat, bits: nat, to: nat)
    requires Agree(acc, all) && bits < to <= 32
    ensures ToInt32(acc * Pow2(to - bits)) % Pow2(to) == all % Pow2(bits) * Pow2(to - bits)
  {
    assert Pow2(0) == 1;
    hide *;
    var up := Pow2(to - bits);
    var raised := all * up;
    AgreeTimes(acc, all, up);
    WrapAgrees(acc * up);
    PowAdd(bits, to - bits);
    AgreeTrans(ToInt32(acc * up), acc * up, raised);
    SameBits(ToInt32(acc * up), raised, 0, to);
    NotDivided(ToInt32(acc * up));
    NotDivided(raised);
    Raised(all, Pow2(bits), up);
  }

  lemma NotDivided(x: int)
    ensures x / 1 == x
  {
  }

  /** What is returned once all data is taken in. */
  lemma Finished(data: seq<nat>, acc: int, bits: nat, ret: seq<nat>, from: nat, to: nat, pad: bool)
    requires Below(data, Pow2(from)) && State(data, |data|, acc, bits, ret, from, to) && bits < to <= 32
    ensures var last := Low(ToInt32(acc * Pow2(to - bits)), to);
      Convert(data, from, to, pad) ==
        if pad then Some(ret + if bits > 0 then [last] else [])
        else if bits >= from || last != 0 then None
        else Some(ret)
  {
    assert data[..|data|] == data;
    Counted(Times(from, |data|), to, |ret|, bits);
    LastGroup(acc, Num(data, Pow2(from)), bits, to);
    hide Digits, Agree, Num, Pow2, ToInt32, Times;
  }

  lemma Rejected(data: seq<nat>, i: nat, from: nat, to: nat, pad: bool)
    requires i < |data| && data[i] >= Pow2(from) && to >= 1
    ensures Convert(data, from, to, pad) == None
  {
  }

  method ConvertBits(data: seq<nat>, from: nat, to: nat, pad: bool) returns (r: Option<seq<nat>>)
    requires from >= 1 && to >= 1 && from + to <= 32
    ensures r == Convert(data, from, to, pad)
  {
    hide State, Convert, Pow2, ToInt32, Low;
    var acc: int, bits: nat, ret: seq<nat> := 0, 0, [];
    StartState(data, from, to);
    for i := 0 to |data|
      invariant forall j | 0 <= j < i :: data[j] < Pow2(from)
      invariant bits < to
      invariant State(data, i, acc, bits, ret, from, to)
    {
      var value := data[i];
      if value >= Pow2(from) {
        Rejected(data, i, from, to, pad);
        return None;
      }
      TakeIn(data, i, acc, bits, ret, from, to);
      acc := ToInt32(acc * Pow2(from)) + value;
      bits := bits + from;
      while bits >= to
        invariant bits < to + from
        invariant State(data, i + 1, acc, bits, ret, from, to)
        decreases bits
      {
        GiveOut(data, i + 1, acc, bits, ret, from, to);
        bits := bits - to;
        ret := ret + [Low(acc / Pow2(bits), to)];
      }
    }
    Finished(data, acc, bits, ret, from, to, pad);
    var last := Low(ToInt32(acc * Pow2(to - bits)), to);
    if pad {
      if bits > 0 {
        ret := ret + [last];
      }
    } else if bits >= from || last != 0 {
      return None;
    }
    assert ret + [] == ret;
    return Some(ret);
  }

  lemma StartState(data: seq<nat>, from: nat, to: nat)
    ensures State(data, 0, 0, 0, [], from, to)
  {
    assert data[..0] == [];
    assert 0 / Pow2(0) == 0;
  }

  // ---------- regrouping back ----------

  /** How many zero bits padding adds. */
  function Spare(total: nat, to: nat): nat
    requires to >= 1
  {
    if total % to > 0 then to - total % to else 0
  }

  lemma TotalSplit(total: nat, to: nat)
    requires to >= 1
    ensures total == Times(to, total / to) + total % to
  {
    hide *;
    TimesIs(to, total / to);
    Euclid(total, to);
    Swap(to, total / to);
  }

  lemma FitsIn(all: nat, low: nat, rest: nat)
    requires all < Pow2(low + rest)
    ensures Leading(all, rest) < Pow2(low)
  {
    hide *;
    PowAdd(low, rest);
    LeadingBelow(all, rest, Pow2(low));
  }

  lemma AllFits(data: seq<nat>, from: nat, to: nat)
    requires Below(data, Pow2(from)) && to >= 1
    ensures var total := Times(from, |data|);
      Leading(Num(data, Pow2(from)), total % to) < Power(Pow2(to), total / to)
  {
    hide *;
    var total := Times(from, |data|);
    TotalSplit(total, to);
    GroupsFit(data, from, to, total / to, total % to);
  }

  lemma GroupsFit(data: seq<nat>, from: nat, to: nat, groups: nat, rest: nat)
    requires Below(data, Pow2(from)) && Times(from, |data|) == Times(to, groups) + rest
    ensures Leading(Num(data, Pow2(from)), rest) < Power(Pow2(to), groups)
  {
    hide *;
    NumBelow(data, Pow2(from));
    PowerOfTwo(from, |data|);
    PowerOfTwo(to, groups);
    FitsIn(Num(data, Pow2(from)), Times(to, groups), rest);
  }

  lemma LeadingBelow(all: nat, rest: nat, m: nat)
    requires all < m * Pow2(rest)
    ensures Leading(all, rest) < m
  {
    hide Pow2;
    DivBelow(all, m, Pow2(rest));
  }

  lemma PadAmount(total: nat, to: nat)
    requires to >= 1
    ensures var n := total / to + if total % to > 0 then 1 else 0;
      to * n == total + Spare(total, to) && Spare(total, to) < to
  {
    Euclid(total, to);
    Spread(total / to, to);
    Swap(to, total / to);
  }

  lemma LastFits(all: nat, rest: nat, to: nat)
    requires rest <= to
    ensures Trailing(all, rest, to) < Pow2(to)
    ensures Leading(all, rest) * Pow2(to) + Trailing(all, rest, to) == all * Pow2(to - rest)
  {
    var low, up := Pow2(rest), Pow2(to - rest);
    PowAdd(rest, to - rest);
    Euclid(all, low);
    hide Pow2;
    Bigger(all % low + 1, low, up);
    Spread(all % low, up);
    Factor3(all / low * low, all % low, up);
    Assoc(all / low, low, up);
  }

  lemma BelowSnoc(ds: seq<nat>, d: nat, base: nat)
    requires Below(ds, base) && d < base
    ensures Below(ds + [d], base)
  {
  }

  lemma PaddedDigits(all: nat, groups: nat, rest: nat, to: nat)
    requires rest <= to && Leading(all, rest) < Power(Pow2(to), groups)
    ensures var whole, last := Digits(Leading(all, rest), groups, Pow2(to)), Trailing(all, rest, to);
      && Below(whole, Pow2(to)) && Num(whole, Pow2(to)) == Leading(all, rest)
      && Below(whole + [last], Pow2(to)) && Num(whole + [last], Pow2(to)) == all * Pow2(to - rest)
  {
    hide *;
    var whole, last := Digits(Leading(all, rest), groups, Pow2(to)), Trailing(all, rest, to);
    DigitsBelow(Leading(all, rest), groups, Pow2(to));
    NumOfDigits(Leading(all, rest), groups, Pow2(to));
    LastFits(all, rest, to);
    NumSnoc(whole, last, Pow2(to));
    BelowSnoc(whole, last, Pow2(to));
  }

  /** Padding shifts the number left by the spare bits. */
  lemma PaddedNum(data: seq<nat>, from: nat, to: nat)
    requires Below(data, Pow2(from)) && to >= 1
    ensures var ret, total := Convert(data, from, to, true).value, Times(from, |data|);
      && Below(ret, Pow2(to)) && to * |ret| == total + Spare(total, to)
      && Num(ret, Pow2(to)) == Num(data, Pow2(from)) * Pow2(Spare(total, to))
  {
    hide *;
    var all, total := Num(data, Pow2(from)), Times(from, |data|);
    AllFits(data, from, to);
    PadAmount(total, to);
    PaddedDigits(all, total / to, total % to, to);
    NoShift(all);
    PaddedIs(data, from, to);
    SpareIs(total, to);
  }

  /** Padding adds one group for the bits left over, if there are any. */
  lemma PaddedIs(data: seq<nat>, from: nat, to: nat)
    requires Below(data, Pow2(from)) && to >= 1
    ensures var all, groups, rest := Num(data, Pow2(from)), Times(from, |data|) / to, Times(from, |data|) % to;
      Convert(data, from, to, true) == Some(
        if rest == 0 then Digits(Leading(all, rest), groups, Pow2(to))
        else Digits(Leading(all, rest), groups, Pow2(to)) + [Trailing(all, rest, to)])
  {
    hide Num, Power, Pow2, Times, Digits, Below, Leading, Trailing;
    var all, groups, rest := Num(data, Pow2(from)), Times(from, |data|) / to, Times(from, |data|) % to;
    var whole := Digits(Leading(all, rest), groups, Pow2(to));
    assert whole + [] == whole;
  }

  lemma SpareIs(total: nat, to: nat)
    requires to >= 1
    ensures Spare(total, to) == if total % to == 0 then 0 else to - total % to
  {
  }

  lemma NoShift(all: nat)
    ensures Leading(all, 0) == all == all * Pow2(0)
  {
  }

  lemma Bytes(n: nat, m: nat, spare: nat)
    requires 5 * m == 8 * n + spare && spare < 5
    ensures (5 * m) / 8 == n && (5 * m) % 8 == spare
  {
  }

  lemma Whole(a: nat, p: nat)
    requires p >= 1
    ensures (a * p) / p == a && (a * p) % p == 0
  {
    DivMod(a, p, 0);
  }

  /** Bytes to five-bit groups and back. */
  lemma BytesRoundTrip(data: seq<nat>)
    requires Below(data, Pow2(8))
    ensures Convert(data, 8, 5, true).Some?
    ensures Below(Convert(data, 8, 5, true).value, Pow2(5))
    ensures Convert(Convert(data, 8, 5, true).value, 5, 8, false) == Some(data)
  {
    var five := Convert(data, 8, 5, true).value;
    var all, spare := Num(data, Pow2(8)), Spare(Times(8, |data|), 5);
    PaddedNum(data, 8, 5);
    TimesIs(8, |data|);
    TimesIs(5, |five|);
    PadAmount(Times(8, |data|), 5);
    Bytes(|data|, |five|, spare);
    Whole(all, Pow2(spare));
    DigitsOfNum(data, Pow2(8));
    hide Num, Power, Pow2, Times, Digits, Spare;
  }

  lemma Groups(n: nat, m: nat, k: nat, rest: nat, spare: nat)
    requires 5 * m == 8 * n + rest && 5 * k == 8 * n + spare && rest < 5 && spare < 5
    ensures k == m && spare == rest
  {
  }

  lemma NoRemainder(all: nat, p: nat, q: nat)
    requires p >= 1 && q >= 1 && all % p * q == 0
    ensures all / p * p == all
  {
    if all % p > 0 {
      Bigger(1, all % p, q);
    }
    Euclid(all, p);
  }

  /** Five-bit groups that give bytes are the groups those bytes give. */
  lemma GroupsRoundTrip(groups: seq<nat>)
    requires Convert(groups, 5, 8, false).Some?
    ensures Below(Convert(groups, 5, 8, false).value, Pow2(8))
    ensures Convert(Convert(groups, 5, 8, false).value, 8, 5, true) == Some(groups)
  {
    var data := Convert(groups, 5, 8, false).value;
    var all, total := Num(groups, Pow2(5)), Times(5, |groups|);
    var rest := total % 8;
    AllFits(groups, 5, 8);
    DigitsBelow(Leading(all, rest), total / 8, Pow2(8));
    NumOfDigits(Leading(all, rest), total / 8, Pow2(8));
    PaddedNum(data, 8, 5);
    var five := Convert(data, 8, 5, true).value;
    TimesIs(5, |groups|);
    TimesIs(8, |data|);
    Euclid(total, 8);
    PadAmount(Times(8, |data|), 5);
    Groups(|data|, |groups|, |five|, rest, Spare(Times(8, |data|), 5));
    NoRemainder(all, Pow2(rest), Pow2(8 - rest));
    DigitsOfNum(groups, Pow2(5));
    DigitsOfNum(five, Pow2(5));
  }

  // ---------- which regroupings exist ----------

  /** Without padding nothing is lost: fewer than `from` bits remain over, all of them zero. */
  ghost predicate Clean(data: seq<nat>, from: nat, to: nat)
    requires to >= 1
  {
    var rest := Times(from, |data|) % to;
    rest < from && Num(data, Pow2(from)) % Pow2(rest) == 0
  }

  lemma TrailingZeroIff(all: nat, rest: nat, to: nat)
    requires rest <= to
    ensures Trailing(all, rest, to) == 0 <==> all % Pow2(rest) == 0
  {
    hide Pow2;
    if all % Pow2(rest) > 0 {
      Bigger(1, all % Pow2(rest), Pow2(to - rest));
    }
  }

  lemma ConvertsIff(data: seq<nat>, from: nat, to: nat, pad: bool)
    requires to >= 1
    ensures Convert(data, from, to, pad).Some? <==> Below(data, Pow2(from)) && (pad || Clean(data, from, to))
  {
    TrailingZeroIff(Num(data, Pow2(from)), Times(from, |data|) % to, to);
    hide Num, Pow2, Times, Digits, Trailing, Leading, Below;
  }

  /** The groups are the same number, without the zero bits left over. */
  lemma CutNum(data: seq<nat>, from: nat, to: nat)
    requires to >= 1 && Convert(data, from, to, false).Some?
    ensures var ret, rest := Convert(data, from, to, false).value, Times(from, |data|) % to;
      && Below(ret, Pow2(to)) && to * |ret| + rest == Times(from, |data|)
      && Num(ret, Pow2(to)) * Pow2(rest) == Num(data, Pow2(from))
  {
    ConvertsIff(data, from, to, false);
    var all, total := Num(data, Pow2(from)), Times(from, |data|);
    var rest := total % to;
    AllFits(data, from, to);
    DigitsBelow(Leading(all, rest), total / to, Pow2(to));
    NumOfDigits(Leading(all, rest), total / to, Pow2(to));
    Euclid(total, to);
    Swap(to, total / to);
    Euclid(all, Pow2(rest));
    hide Num, Pow2, Times, Digits, Trailing, Below, Power;
  }
}
