/** Numbers written in a base, most significant digit first, and the powers of two that bit counts stand for. */
module Radix {

  function Pow2(n: nat): (p: nat)
    ensures p >= 1
  {
    if n == 0 then 1 else 2 * Pow2(n - 1)
  }

  lemma {:induction false} PowAdd(a: nat, b: nat)
    ensures Pow2(a + b) == Pow2(a) * Pow2(b)
  {
    if b > 0 {
      PowAdd(a, b - 1);
      Twice(Pow2(a), Pow2(b - 1));
    }
  }

  function Power(base: nat, n: nat): (p: nat)
    ensures base >= 1 ==> p >= 1
  {
    if n == 0 then 1 else Power(base, n - 1) * base
  }

  /** w * n, by addition. */
  function Times(w: nat, n: nat): nat {
    if n == 0 then 0 else Times(w, n - 1) + w
  }

  lemma {:induction false} TimesIs(w: nat, n: nat)
    ensures Times(w, n) == w * n
  {
    if n > 0 {
      TimesIs(w, n - 1);
      Spread(n - 1, w);
    }
  }

  lemma {:induction false} PowerOfTwo(w: nat, n: nat)
    ensures Power(Pow2(w), n) == Pow2(Times(w, n))
  {
    if n > 0 {
      PowerOfTwo(w, n - 1);
      PowAdd(Times(w, n - 1), w);
    }
  }

  lemma Twice(x: int, y: int)
    ensures 2 * (x * y) == x * (2 * y)
  {
  }

  function Num(ds: seq<nat>, base: nat): nat {
    if ds == [] then 0 else Num(ds[..|ds| - 1], base) * base + ds[|ds| - 1]
  }

  predicate Below(ds: seq<nat>, base: nat) {
    forall i | 0 <= i < |ds| :: ds[i] < base
  }

  /** The last n digits of v. */
  function Digits(v: nat, n: nat, base: nat): (ds: seq<nat>)
    requires base >= 1
    ensures |ds| == n
  {
    if n == 0 then [] else Digits(v / base, n - 1, base) + [v % base]
  }

  function Div(a: nat, b: nat): nat
    requires b >= 1
  {
    a / b
  }

  lemma NumSnoc(ds: seq<nat>, d: nat, base: nat)
    ensures Num(ds + [d], base) == Num(ds, base) * base + d
  {
    assert (ds + [d])[..|ds|] == ds;
  }

  lemma DivMod(a: nat, base: nat, d: nat)
    requires d < base
    ensures (a * base + d) / base == a && (a * base + d) % base == d
  {
    var q, r := (a * base + d) / base, (a * base + d) % base;
    assert q * base + r == a * base + d;
    if q < a {
      Bigger(q + 1, a, base);
      Spread(q, base);
    } else if a < q {
      Bigger(a + 1, q, base);
      Spread(a, base);
    }
  }

  lemma Spread(a: int, b: int)
    ensures (a + 1) * b == a * b + b
  {
  }

  lemma Bigger(x: int, y: int, b: nat)
    requires x <= y
    ensures x * b <= y * b
  {
  }

  lemma {:induction false} DigitsOfNum(ds: seq<nat>, base: nat)
    requires base >= 1 && Below(ds, base)
    ensures Digits(Num(ds, base), |ds|, base) == ds
  {
    if ds != [] {
      var n := |ds| - 1;
      DigitsOfNum(ds[..n], base);
      DivMod(Num(ds[..n], base), base, ds[n]);
    }
  }

  lemma {:induction false} DigitsBelow(v: nat, n: nat, base: nat)
    requires base >= 1
    ensures Below(Digits(v, n, base), base)
  {
    if n > 0 {
      DigitsBelow(v / base, n - 1, base);
    }
  }

  lemma {:induction false} NumOfDigits(v: nat, n: nat, base: nat)
    requires base >= 1 && v < Power(base, n)
    ensures Num(Digits(v, n, base), base) == v
  {
    hide *;
    if n == 0 {
      NoDigits(v, base);
    } else {
      var q, d := NextDigit(v, n, base);
      NumOfDigits(q, n - 1, base);
      LastDigit(Digits(q, n - 1, base), q, d, v, base);
    }
  }

  lemma NoDigits(v: nat, base: nat)
    requires base >= 1 && v < Power(base, 0)
    ensures Num(Digits(v, 0, base), base) == v
  {
  }

  lemma NextDigit(v: nat, n: nat, base: nat) returns (q: nat, d: nat)
    requires n > 0 && base >= 1 && v < Power(base, n)
    ensures v == q * base + d && q < Power(base, n - 1) && Digits(v, n, base) == Digits(q, n - 1, base) + [d]
  {
    q, d := Div(v, base), v % base;
    hide Num;
    DivBelow(v, Power(base, n - 1), base);
    Euclid(v, base);
  }

  lemma LastDigit(ds: seq<nat>, q: nat, d: nat, v: nat, base: nat)
    requires Num(ds, base) == q && v == q * base + d
    ensures Num(ds + [d], base) == v
  {
    NumSnoc(ds, d, base);
  }

  lemma Euclid(v: nat, base: nat)
    requires base >= 1
    ensures v == (v / base) * base + v % base
  {
  }

  lemma DivBelow(v: nat, m: nat, base: nat)
    requires base >= 1 && v < m * base
    ensures v / base < m
  {
    assert v == (v / base) * base + v % base;
    if v / base >= m {
      Bigger(m, v / base, base);
    }
  }

  lemma {:induction false} NumBelow(ds: seq<nat>, base: nat)
    requires base >= 1 && Below(ds, base)
    ensures Num(ds, base) < Power(base, |ds|)
  {
    if ds != [] {
      var n := |ds| - 1;
      NumBelow(ds[..n], base);
      Bigger(Num(ds[..n], base) + 1, Power(base, n), base);
      Spread(Num(ds[..n], base), base);
    }
  }
}
