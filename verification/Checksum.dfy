/** The BCH checksum of BIP-173: polymod of src/stratum/username.js, linear and injective step by step. */
module Checksum {

  const STATE: bv32 := 0x40000000

  // ---------- on machine words ----------

  function Xored(a: bv32, b: bv32): bv32 {
    a ^ b
  }

  function ShiftedWord(c: bv32): bv32 {
    (c & 0x1ffffff) << 5
  }

  /** (top >> i) & 1, where top is the word without its low 25 bits. */
  predicate Bit(c: bv32, i: nat)
    requires i < 5
  {
    var top := c >> 25;
    if i == 0 then top & 1 != 0 else if i == 1 then top & 2 != 0 else if i == 2 then top & 4 != 0
    else if i == 3 then top & 8 != 0 else top & 16 != 0
  }

  function Constant(i: nat): bv32
    requires i < 5
  {
    if i == 0 then 0x3b6a57b2 else if i == 1 then 0x26508e6d else if i == 2 then 0x1ea119fa
    else if i == 3 then 0x3d4233dd else 0x2a1462b3
  }

  function TapWord(c: bv32, i: nat): bv32
    requires i < 5
  {
    if Bit(c, i) then Constant(i) else 0
  }

  // The same step written out, generator by generator.

  function Tap0(c: bv32): bv32 {
    if (c >> 25) & 1 != 0 then 0x3b6a57b2 else 0
  }

  function Tap1(c: bv32): bv32 {
    if (c >> 25) & 2 != 0 then 0x26508e6d else 0
  }

  function Tap2(c: bv32): bv32 {
    if (c >> 25) & 4 != 0 then 0x1ea119fa else 0
  }

  function Tap3(c: bv32): bv32 {
    if (c >> 25) & 8 != 0 then 0x3d4233dd else 0
  }

  function Tap4(c: bv32): bv32 {
    if (c >> 25) & 16 != 0 then 0x2a1462b3 else 0
  }

  function After1(c: bv32): bv32 {
    ShiftedWord(c) ^ Tap0(c)
  }

  function After2(c: bv32): bv32 {
    After1(c) ^ Tap1(c)
  }

  function After3(c: bv32): bv32 {
    After2(c) ^ Tap2(c)
  }

  function After4(c: bv32): bv32 {
    After3(c) ^ Tap3(c)
  }

  function AdvanceWord(c: bv32): bv32 {
    After4(c) ^ Tap4(c)
  }

  /** Five more bits on the right. */
  function Push(c: bv32, v: bv32): bv32 {
    (c << 5) | v
  }

  lemma BitLinear0(a: bv32, b: bv32)
    ensures Bit(Xored(a, b), 0) <==> Bit(a, 0) != Bit(b, 0)
  {
  }

  lemma BitLinear1(a: bv32, b: bv32)
    ensures Bit(Xored(a, b), 1) <==> Bit(a, 1) != Bit(b, 1)
  {
  }

  lemma BitLinear2(a: bv32, b: bv32)
    ensures Bit(Xored(a, b), 2) <==> Bit(a, 2) != Bit(b, 2)
  {
  }

  lemma BitLinear3(a: bv32, b: bv32)
    ensures Bit(Xored(a, b), 3) <==> Bit(a, 3) != Bit(b, 3)
  {
  }

  lemma BitLinear4(a: bv32, b: bv32)
    ensures Bit(Xored(a, b), 4) <==> Bit(a, 4) != Bit(b, 4)
  {
  }

  lemma BitLinear(a: bv32, b: bv32, i: nat)
    requires i < 5
    ensures Bit(Xored(a, b), i) <==> Bit(a, i) != Bit(b, i)
  {
    hide Bit, Xored;
    BitLinear0(a, b);
    BitLinear1(a, b);
    BitLinear2(a, b);
    BitLinear3(a, b);
    BitLinear4(a, b);
    assert i == 0 || i == 1 || i == 2 || i == 3 || i == 4;
  }

  lemma XoredZero(a: bv32)
    ensures Xored(a, 0) == a && Xored(0, a) == a && Xored(a, a) == 0
  {
  }

  lemma XoredAssoc(a: bv32, b: bv32, c: bv32)
    ensures Xored(Xored(a, b), c) == Xored(a, Xored(b, c)) && Xored(a, b) == Xored(b, a)
  {
  }

  lemma XoredSwap(a: bv32, b: bv32, c: bv32)
    ensures Xored(Xored(a, b), c) == Xored(Xored(a, c), b)
  {
    hide Xored;
    XoredAssoc(a, b, c);
    XoredAssoc(b, c, a);
    XoredAssoc(a, c, b);
  }

  lemma XoredPairs(a: bv32, b: bv32, c: bv32, d: bv32)
    ensures Xored(Xored(a, b), Xored(c, d)) == Xored(Xored(a, c), Xored(b, d))
  {
    hide Xored;
    XoredSwap(a, b, c);
    XoredAssoc(Xored(a, b), c, d);
    XoredAssoc(Xored(a, c), b, d);
  }

  lemma XoredTwice(a: bv32, b: bv32)
    ensures Xored(Xored(a, b), b) == a && Xored(a, Xored(a, b)) == b
  {
  }

  lemma XoredNothing(a: bv32, b: bv32)
    ensures Xored(a, b) == 0 <==> a == b
  {
    hide Xored;
    XoredTwice(a, b);
    XoredZero(b);
  }

  lemma TapWordLinear(a: bv32, b: bv32, i: nat)
    requires i < 5
    ensures TapWord(Xored(a, b), i) == Xored(TapWord(a, i), TapWord(b, i))
  {
    BitLinear(a, b, i);
    XoredZero(Constant(i));
    XoredZero(0);
    hide Bit, Xored, Constant;
  }

  lemma ShiftedWordLinear(a: bv32, b: bv32)
    ensures ShiftedWord(Xored(a, b)) == Xored(ShiftedWord(a), ShiftedWord(b))
  {
  }

  lemma TapWordIs(c: bv32)
    ensures TapWord(c, 0) == Tap0(c) && TapWord(c, 1) == Tap1(c) && TapWord(c, 2) == Tap2(c)
    ensures TapWord(c, 3) == Tap3(c) && TapWord(c, 4) == Tap4(c)
  {
  }

  lemma After1Is(c: bv32)
    ensures After1(c) == Xored(ShiftedWord(c), Tap0(c))
  {
    hide ShiftedWord, Tap0;
  }

  lemma After2Is(c: bv32)
    ensures After2(c) == Xored(After1(c), Tap1(c))
  {
    hide After1, Tap1;
  }

  lemma After3Is(c: bv32)
    ensures After3(c) == Xored(After2(c), Tap2(c))
  {
    hide After2, Tap2;
  }

  lemma After4Is(c: bv32)
    ensures After4(c) == Xored(After3(c), Tap3(c))
  {
    hide After3, Tap3;
  }

  lemma AdvanceWordIs(c: bv32)
    ensures AdvanceWord(c) == Xored(After4(c), Tap4(c))
  {
    hide After4, Tap4;
  }

  lemma AdvanceWordRange(c: bv32)
    ensures AdvanceWord(c) < STATE
  {
  }

  lemma AdvanceWordKernel(c: bv32)
    requires c < STATE && AdvanceWord(c) == 0
    ensures c == 0
  {
  }

  lemma AdvanceWordSmall(c: bv32, v: bv32)
    requires c < 0x2000000 && v < 32
    ensures Xored(AdvanceWord(c), v) == Push(c, v)
    ensures Push(c, v) == 0 ==> c == 0 && v == 0
  {
  }

  /** Within n symbols' worth of low bits. */
  predicate Narrow(c: bv32, n: nat)
  {
    if n == 0 then c < 1 else if n == 1 then c < 0x20 else if n == 2 then c < 0x400 else if n == 3 then c < 0x8000
    else if n == 4 then c < 0x100000 else if n == 5 then c < 0x2000000 else c < STATE
  }

  lemma PushNarrow(c: bv32, v: bv32, n: nat)
    requires n < 6 && Narrow(c, n) && v < 32
    ensures c < 0x2000000 && Narrow(Push(c, v), n + 1)
  {
  }

  // ---------- states and values ----------

  /** A word of the checksum computation. */
  datatype Bits = Bits(w: bv32)

  function Zero(): Bits {
    Bits(0)
  }

  function Add(a: Bits, b: Bits): Bits {
    Bits(Xored(a.w, b.w))
  }

  function Tap(c: Bits, i: nat): Bits
    requires i < 5
  {
    Bits(TapWord(c.w, i))
  }

  function Shifted(c: Bits): Bits {
    Bits(ShiftedWord(c.w))
  }

  /** The shifted word once the first i generators have been considered. */
  function Partial(c: Bits, i: nat): Bits
    requires i <= 5
  {
    if i == 0 then Shifted(c) else Add(Partial(c, i - 1), Tap(c, i - 1))
  }

  /** What one step does to the state before the next value is added. */
  function Advance(c: Bits): Bits {
    Partial(c, 5)
  }

  function Poly(c: Bits, values: seq<Bits>): Bits {
    if values == [] then c else Add(Advance(Poly(c, values[..|values| - 1])), values[|values| - 1])
  }

  method Polymod(values: seq<Bits>) returns (chk: Bits)
    ensures chk == Poly(Bits(1), values)
  {
    hide Add, Bit, Constant, Shifted, Partial;
    chk := Bits(1);
    for n := 0 to |values|
      invariant chk == Poly(Bits(1), values[..n])
    {
      assert values[..n + 1][..n] == values[..n];
      var c := chk;
      ShiftedFirst(c);
      chk := Add(Shifted(c), values[n]);
      for i := 0 to 5
        invariant chk == Add(Partial(c, i), values[n])
      {
        PartialStep(c, i, values[n]);
        if Bit(c.w, i) {
          chk := Add(chk, Bits(Constant(i)));
        }
      }
    }
    assert values[..|values|] == values;
  }

  lemma ShiftedFirst(c: Bits)
    ensures Partial(c, 0) == Shifted(c)
  {
    hide Shifted;
  }

  lemma PartialStep(c: Bits, i: nat, v: Bits)
    requires i < 5
    ensures Add(Partial(c, i + 1), v) == if Bit(c.w, i) then Add(Add(Partial(c, i), v), Bits(Constant(i))) else Add(Partial(c, i), v)
  {
    AddSwap(Partial(c, i), Tap(c, i), v);
    AddZero(Partial(c, i));
    hide Add, Bit, Constant, Shifted;
  }

  // ---------- exclusive or ----------

  lemma AddSwap(a: Bits, b: Bits, c: Bits)
    ensures Add(Add(a, b), c) == Add(Add(a, c), b)
  {
    hide Xored;
    XoredSwap(a.w, b.w, c.w);
  }

  lemma AddPairs(a: Bits, b: Bits, c: Bits, d: Bits)
    ensures Add(Add(a, b), Add(c, d)) == Add(Add(a, c), Add(b, d))
  {
    hide Xored;
    XoredPairs(a.w, b.w, c.w, d.w);
  }

  lemma AddZero(a: Bits)
    ensures Add(a, Zero()) == a && Add(Zero(), a) == a && Add(a, a) == Zero()
  {
    hide Xored;
    XoredZero(a.w);
  }

  lemma AddTwice(a: Bits, b: Bits)
    ensures Add(Add(a, b), b) == a && Add(a, Add(a, b)) == b
  {
    hide Xored;
    XoredTwice(a.w, b.w);
  }

  lemma SumZero(a: Bits, b: Bits)
    ensures Add(a, b) == Zero() <==> a == b
  {
    hide Xored;
    XoredNothing(a.w, b.w);
  }

  // ---------- one step ----------

  lemma TapLinear(a: Bits, b: Bits, i: nat)
    requires i < 5
    ensures Tap(Add(a, b), i) == Add(Tap(a, i), Tap(b, i))
  {
    hide Xored, TapWord;
    TapWordLinear(a.w, b.w, i);
  }

  lemma ShiftedLinear(a: Bits, b: Bits)
    ensures Shifted(Add(a, b)) == Add(Shifted(a), Shifted(b))
  {
    hide Xored, ShiftedWord;
    ShiftedWordLinear(a.w, b.w);
  }

  lemma {:induction false} PartialLinear(a: Bits, b: Bits, i: nat)
    requires i <= 5
    ensures Partial(Add(a, b), i) == Add(Partial(a, i), Partial(b, i))
  {
    hide Add, Tap, Shifted;
    if i == 0 {
      ShiftedLinear(a, b);
    } else {
      PartialLinear(a, b, i - 1);
      TapLinear(a, b, i - 1);
      AddPairs(Partial(a, i - 1), Partial(b, i - 1), Tap(a, i - 1), Tap(b, i - 1));
    }
  }

  /** The step is linear over exclusive or. */
  lemma AdvanceLinear(a: Bits, b: Bits)
    ensures Advance(Add(a, b)) == Add(Advance(a), Advance(b))
  {
    hide Partial, Add;
    PartialLinear(a, b, 5);
  }

  predicate InState(c: Bits) {
    c.w < STATE
  }

  predicate Symbol(c: Bits) {
    c.w < 32
  }

  lemma PartialIs(c: Bits, i: nat)
    requires i < 5
    ensures Partial(c, i + 1) == Add(Partial(c, i), Tap(c, i))
  {
    hide Add, Tap, Shifted;
  }

  lemma AdvanceIs(c: Bits)
    ensures Advance(c) == Bits(AdvanceWord(c.w))
  {
    ShiftedFirst(c);
    PartialIs(c, 0);
    PartialIs(c, 1);
    PartialIs(c, 2);
    PartialIs(c, 3);
    PartialIs(c, 4);
    TapWordIs(c.w);
    After1Is(c.w);
    After2Is(c.w);
    After3Is(c.w);
    After4Is(c.w);
    AdvanceWordIs(c.w);
    hide Partial, Xored, TapWord, ShiftedWord, Tap0, Tap1, Tap2, Tap3, Tap4, After1, After2, After3, After4, AdvanceWord;
  }

  lemma AdvanceRange(c: Bits)
    ensures InState(Advance(c))
  {
    AdvanceIs(c);
    AdvanceWordRange(c.w);
    hide Advance, AdvanceWord;
  }

  lemma AddRange(a: Bits, b: Bits)
    ensures InState(a) && InState(b) ==> InState(Add(a, b))
    ensures Symbol(a) && Symbol(b) ==> Symbol(Add(a, b))
    ensures Symbol(a) ==> InState(a)
  {
  }

  /** Only the zero state is taken to zero. */
  lemma AdvanceKernel(c: Bits)
    requires InState(c) && Advance(c) == Zero()
    ensures c == Zero()
  {
    AdvanceIs(c);
    hide Advance, AdvanceWord;
    AdvanceWordKernel(c.w);
  }

  /** On 30-bit states the step is injective. */
  lemma AdvanceInjective(a: Bits, b: Bits)
    requires InState(a) && InState(b) && Advance(a) == Advance(b)
    ensures a == b
  {
    hide *;
    AdvanceLinear(a, b);
    AddRange(a, b);
    SumZero(Advance(a), Advance(b));
    SumZero(a, b);
    AdvanceKernel(Add(a, b));
  }

  // ---------- whole words ----------

  ghost predicate Bounded(values: seq<Bits>) {
    forall i | 0 <= i < |values| :: InState(values[i])
  }

  ghost predicate Symbols(values: seq<Bits>) {
    forall i | 0 <= i < |values| :: Symbol(values[i])
  }

  lemma {:induction false} PolyRange(c: Bits, values: seq<Bits>)
    requires InState(c) && Bounded(values)
    ensures InState(Poly(c, values))
  {
    hide Add, Advance, InState;
    if values != [] {
      var n := |values| - 1;
      PolyRange(c, values[..n]);
      AdvanceRange(Poly(c, values[..n]));
      AddRange(Advance(Poly(c, values[..n])), values[n]);
    }
  }

  lemma {:induction false} PolyAppend(c: Bits, a: seq<Bits>, b: seq<Bits>)
    ensures Poly(c, a + b) == Poly(Poly(c, a), b)
  {
    hide Add, Advance;
    if b == [] {
      assert a + b == a;
    } else {
      var n := |b| - 1;
      assert (a + b)[..|a| + n] == a + b[..n];
      PolyAppend(c, a, b[..n]);
    }
  }

  function Xor(a: seq<Bits>, b: seq<Bits>): (r: seq<Bits>)
    requires |a| == |b|
    ensures |r| == |a|
  {
    if a == [] then [] else Xor(a[..|a| - 1], b[..|b| - 1]) + [Add(a[|a| - 1], b[|b| - 1])]
  }

  /** The checksum is linear over exclusive or. */
  lemma {:induction false} PolyLinear(c: Bits, d: Bits, a: seq<Bits>, b: seq<Bits>)
    requires |a| == |b|
    ensures Poly(Add(c, d), Xor(a, b)) == Add(Poly(c, a), Poly(d, b))
  {
    hide Add, Advance;
    if a != [] {
      var n := |a| - 1;
      PolyLinear(c, d, a[..n], b[..n]);
      AdvanceLinear(Poly(c, a[..n]), Poly(d, b[..n]));
      AddPairs(Advance(Poly(c, a[..n])), Advance(Poly(d, b[..n])), a[n], b[n]);
      assert Xor(a, b)[..n] == Xor(a[..n], b[..n]);
    }
  }

  lemma {:induction false} XorAt(a: seq<Bits>, b: seq<Bits>, i: nat)
    requires |a| == |b| && i < |a|
    ensures Xor(a, b)[i] == Add(a[i], b[i])
  {
    hide Add;
    if i < |a| - 1 {
      XorAt(a[..|a| - 1], b[..|b| - 1], i);
    }
  }

  /** Different states stay different whatever follows. */
  lemma {:induction false} TailInjective(a: Bits, b: Bits, tail: seq<Bits>)
    requires InState(a) && InState(b) && Bounded(tail) && Poly(a, tail) == Poly(b, tail)
    ensures a == b
  {
    hide Add, Advance, InState;
    if tail != [] {
      var n := |tail| - 1;
      var p, q := Poly(a, tail[..n]), Poly(b, tail[..n]);
      AddTwice(Advance(p), tail[n]);
      AddTwice(Advance(q), tail[n]);
      PolyRange(a, tail[..n]);
      PolyRange(b, tail[..n]);
      AdvanceInjective(p, q);
      TailInjective(a, b, tail[..n]);
    }
  }

  // ---------- six symbols fit in the state ----------

  predicate Within(c: Bits, n: nat) {
    Narrow(c.w, n)
  }

  lemma SmallStep(c: Bits, v: Bits, n: nat)
    requires n < 6 && Within(c, n) && Symbol(v)
    ensures Within(Add(Advance(c), v), n + 1) && Add(Advance(c), v) == Bits(Push(c.w, v.w))
    ensures Add(Advance(c), v) == Zero() ==> c == Zero() && v == Zero()
  {
    AdvanceIs(c);
    hide Advance, AdvanceWord, Narrow, Xored, Push;
    PushNarrow(c.w, v.w, n);
    AdvanceWordSmall(c.w, v.w);
  }

  ghost predicate AllZero(e: seq<Bits>) {
    forall i | 0 <= i < |e| :: e[i] == Zero()
  }

  /** At most six symbols sum to zero only if they are all zero. */
  lemma {:induction false} SixSymbols(e: seq<Bits>)
    requires |e| <= 6 && Symbols(e)
    ensures Within(Poly(Zero(), e), |e|)
    ensures Poly(Zero(), e) == Zero() ==> AllZero(e)
  {
    if e == [] {
    } else {
      hide Add, Advance, Within, Symbol;
      var n := |e| - 1;
      SixSymbols(e[..n]);
      SmallStep(Poly(Zero(), e[..n]), e[n], n);
      if Poly(Zero(), e) == Zero() {
        forall i | 0 <= i < |e| ensures e[i] == Zero() {
          assert i < n ==> e[i] == e[..n][i];
        }
      }
    }
  }

  lemma SymbolsXor(a: seq<Bits>, b: seq<Bits>)
    requires |a| == |b| && Symbols(a) && Symbols(b)
    ensures Symbols(Xor(a, b))
  {
    hide Add, Symbol;
    forall i | 0 <= i < |a| ensures Symbol(Xor(a, b)[i]) {
      XorAt(a, b, i);
      AddRange(a[i], b[i]);
    }
  }

  /** Two different runs of at most six symbols lead to different states. */
  lemma BurstDetected(c: Bits, a: seq<Bits>, b: seq<Bits>)
    requires |a| == |b| <= 6 && Symbols(a) && Symbols(b) && Poly(c, a) == Poly(c, b)
    ensures a == b
  {
    hide Poly, Add, Symbol, Within, Zero;
    PolyLinear(c, c, a, b);
    SumZero(c, c);
    SumZero(Poly(c, a), Poly(c, b));
    SymbolsXor(a, b);
    SixSymbols(Xor(a, b));
    forall i | 0 <= i < |a| ensures a[i] == b[i] {
      XorAt(a, b, i);
      SumZero(a[i], b[i]);
    }
  }

  lemma SymbolsBounded(a: seq<Bits>)
    requires Symbols(a)
    ensures Bounded(a)
  {
    hide Symbol, InState;
    forall i | 0 <= i < |a| ensures InState(a[i]) {
      AddRange(a[i], a[i]);
    }
  }

  /** Words that differ, and only within six consecutive symbols, never have the same checksum. */
  lemma ErrorsDetected(c: Bits, head: seq<Bits>, a: seq<Bits>, b: seq<Bits>, tail: seq<Bits>)
    requires InState(c) && Bounded(head) && Bounded(tail)
    requires |a| == |b| <= 6 && Symbols(a) && Symbols(b) && a != b
    ensures Poly(c, head + a + tail) != Poly(c, head + b + tail)
  {
    hide *;
    PolyAppend(c, head + a, tail);
    PolyAppend(c, head + b, tail);
    PolyAppend(c, head, a);
    PolyAppend(c, head, b);
    SymbolsBounded(a);
    SymbolsBounded(b);
    var s := Poly(c, head);
    PolyRange(c, head);
    PolyRange(s, a);
    PolyRange(s, b);
    if Poly(c, head + a + tail) == Poly(c, head + b + tail) {
      TailInjective(Poly(s, a), Poly(s, b), tail);
      BurstDetected(s, a, b);
    }
  }

  // ---------- appending the checksum ----------

  /** The i-th five-bit group of a 30-bit number, from the left. */
  function Cut(p: bv32, i: nat): bv32 {
    if i == 0 then (p >> 25) & 31 else if i == 1 then (p >> 20) & 31 else if i == 2 then (p >> 15) & 31
    else if i == 3 then (p >> 10) & 31 else if i == 4 then (p >> 5) & 31 else p & 31
  }

  /** Its first n groups. */
  function High(p: bv32, n: nat): bv32 {
    if n == 0 then 0 else if n == 1 then p >> 25 else if n == 2 then p >> 20 else if n == 3 then p >> 15
    else if n == 4 then p >> 10 else if n == 5 then p >> 5 else p
  }

  lemma HighPush01(p: bv32)
    requires p < STATE
    ensures Push(High(p, 0), Cut(p, 0)) == High(p, 1)
    ensures Push(High(p, 1), Cut(p, 1)) == High(p, 2)
  {
  }

  lemma HighPush23(p: bv32)
    requires p < STATE
    ensures Push(High(p, 2), Cut(p, 2)) == High(p, 3)
    ensures Push(High(p, 3), Cut(p, 3)) == High(p, 4)
  {
  }

  lemma HighPush45(p: bv32)
    requires p < STATE
    ensures Push(High(p, 4), Cut(p, 4)) == High(p, 5)
    ensures Push(High(p, 5), Cut(p, 5)) == High(p, 6)
  {
  }

  lemma HighPush(p: bv32, n: nat)
    requires p < STATE && n < 6
    ensures Push(High(p, n), Cut(p, n)) == High(p, n + 1)
  {
    hide Push, High, Cut;
    HighPush01(p);
    HighPush23(p);
    HighPush45(p);
    assert n == 0 || n == 1 || n == 2 || n == 3 || n == 4 || n == 5;
  }

  lemma HighNarrow(p: bv32, n: nat)
    requires p < STATE && n < 6
    ensures Narrow(High(p, n), n) && Cut(p, n) < 32
  {
  }

  function SixGroups(p: Bits): (s: seq<Bits>)
    ensures |s| == 6 && forall i | 0 <= i < 6 :: s[i] == Bits(Cut(p.w, i))
  {
    [Bits(Cut(p.w, 0)), Bits(Cut(p.w, 1)), Bits(Cut(p.w, 2)), Bits(Cut(p.w, 3)), Bits(Cut(p.w, 4)), Bits(Cut(p.w, 5))]
  }

  lemma HighStep(p: Bits, n: nat)
    requires InState(p) && n < 6
    ensures Add(Advance(Bits(High(p.w, n))), Bits(Cut(p.w, n))) == Bits(High(p.w, n + 1)) && Symbol(Bits(Cut(p.w, n)))
  {
    hide Advance, Add, Narrow, High, Cut, Push;
    HighNarrow(p.w, n);
    HighPush(p.w, n);
    SmallStep(Bits(High(p.w, n)), Bits(Cut(p.w, n)), n);
  }

  lemma {:induction false} GroupsAgain(p: Bits, n: nat)
    requires InState(p) && n <= 6
    ensures Poly(Zero(), SixGroups(p)[..n]) == Bits(High(p.w, n))
  {
    HighEnds(p.w);
    hide Advance, Add, SixGroups, Cut, High, InState, Symbol, Zero;
    if n > 0 {
      GroupsAgain(p, n - 1);
      assert SixGroups(p)[..n][..n - 1] == SixGroups(p)[..n - 1];
      HighStep(p, n - 1);
    }
  }

  lemma HighEnds(p: bv32)
    ensures Zero() == Bits(High(p, 0)) && High(p, 6) == p
  {
  }

  function Zeros(): (s: seq<Bits>)
    ensures |s| == 6 && AllZero(s)
  {
    [Zero(), Zero(), Zero(), Zero(), Zero(), Zero()]
  }

  /** The six symbols appended to a word. */
  function Check(word: seq<Bits>, target: Bits): (s: seq<Bits>)
    ensures |s| == 6
  {
    SixGroups(Add(Poly(Bits(1), word + Zeros()), target))
  }

  lemma ZerosXor(s: seq<Bits>)
    requires |s| == 6
    ensures Xor(Zeros(), s) == s
  {
    hide Zeros, Add, Zero;
    forall i | 0 <= i < 6 ensures Xor(Zeros(), s)[i] == s[i] {
      XorAt(Zeros(), s, i);
      AddZero(s[i]);
    }
  }

  lemma GroupsAreSymbols(p: Bits)
    requires InState(p)
    ensures Symbols(SixGroups(p)) && Poly(Zero(), SixGroups(p)) == p
  {
    HighEnds(p.w);
    hide Poly, Cut, High, InState, Symbol, Zero, SixGroups;
    GroupsAgain(p, 6);
    assert SixGroups(p)[..6] == SixGroups(p);
    forall i | 0 <= i < 6 ensures Symbol(SixGroups(p)[i]) {
      HighStep(p, i);
    }
  }

  lemma StartRange()
    ensures InState(Bits(1)) && InState(Zero()) && Bounded(Zeros())
  {
  }

  lemma BoundedAppend(a: seq<Bits>, b: seq<Bits>)
    requires Bounded(a) && Bounded(b)
    ensures Bounded(a + b)
  {
    hide InState;
  }

  /** A word with its check symbols has the target as checksum. */
  lemma CheckHolds(word: seq<Bits>, target: Bits)
    requires Bounded(word) && InState(target)
    ensures Symbols(Check(word, target)) && Poly(Bits(1), word + Check(word, target)) == target
  {
    hide Poly, Add, Zeros, Zero, SixGroups, InState, Bounded, Symbols;
    var c, z := Poly(Bits(1), word), Poly(Bits(1), word + Zeros());
    var s := Check(word, target);
    StartRange();
    BoundedAppend(word, Zeros());
    PolyRange(Bits(1), word + Zeros());
    AddRange(z, target);
    GroupsAreSymbols(Add(z, target));
    PolyAppend(Bits(1), word, Zeros());
    PolyAppend(Bits(1), word, s);
    PolyLinear(c, Zero(), Zeros(), s);
    ZerosXor(s);
    AddZero(c);
    AddTwice(z, target);
  }

  /** Six symbols with the right checksum are the check symbols. */
  lemma CheckUnique(word: seq<Bits>, s: seq<Bits>, target: Bits)
    requires Bounded(word) && InState(target) && |s| == 6 && Symbols(s) && Poly(Bits(1), word + s) == target
    ensures s == Check(word, target)
  {
    hide *;
    CheckHolds(word, target);
    SixLong(word, target);
    PolyAppend(Bits(1), word, s);
    PolyAppend(Bits(1), word, Check(word, target));
    BurstDetected(Poly(Bits(1), word), s, Check(word, target));
  }

  lemma SixLong(word: seq<Bits>, target: Bits)
    ensures |Check(word, target)| == 6
  {
  }
}
