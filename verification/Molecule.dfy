/**
 Molecule containers: offsetContainer of src/mining/ckb-merkle.js writes them, tableOffsets of
 src/wallet/cellbase-witness.js reads them back.
 */
module Molecule {
  import opened Wrappers

  newtype Byte = x: int | 0 <= x < 256
  type Bytes = seq<Byte>

  datatype Error =
    | PastEnd | TableTooShort | SizeMismatch | BadFirstOffset | OffsetPastEnd | NotMonotonic
    | MissingField | BadLength | UnknownHashType | BadHex

  // ---------- little-endian integers ----------

  function Pow256(n: nat): (p: nat)
    ensures p > 0
  {
    if n == 0 then 1 else 256 * Pow256(n - 1)
  }

  const TWO32: nat := 0x1_0000_0000

  function LittleEndian(v: nat, n: nat): (r: Bytes)
    ensures |r| == n
    decreases n, v
  {
    if n == 0 then [] else [(v % 256) as Byte] + LittleEndian(v / 256, n - 1)
  }

  function Number(b: Bytes): nat {
    if b == [] then 0 else b[0] as nat + 256 * Number(b[1..])
  }

  lemma {:induction false} NumberOfDigits(v: nat, n: nat)
    ensures Number(LittleEndian(v, n)) == v % Pow256(n)
  {
    if n > 0 {
      NumberOfDigits(v / 256, n - 1);
      assert LittleEndian(v, n)[1..] == LittleEndian(v / 256, n - 1);
      ModStep(v, Pow256(n - 1));
    }
  }

  lemma ModStep(v: nat, p: nat)
    requires p > 0
    ensures v % (256 * p) == v % 256 + 256 * (v / 256 % p)
  {
    var q, r := v / 256 / p, v % 256 + 256 * (v / 256 % p);
    assert v / 256 == q * p + v / 256 % p;
    assert v == 256 * (q * p) + r;
    assert 256 * (q * p) == q * (256 * p);
    assert r < 256 * p;
    ModUnique(v, 256 * p, q, r);
  }

  lemma Multiple(k: nat, m: nat)
    requires k >= 1
    ensures k * m >= m
  {
  }

  lemma ModUnique(v: nat, m: nat, q: nat, r: nat)
    requires v == q * m + r && r < m
    ensures v % m == r
  {
    var k, s := v / m, v % m;
    assert v == k * m + s;
    if k > q {
      assert k * m == q * m + (k - q) * m;
      Multiple(k - q, m);
    } else if k < q {
      assert q * m == k * m + (q - k) * m;
      Multiple(q - k, m);
    }
  }

  lemma DigitsStep(d: Byte, rest: nat, n: nat)
    ensures LittleEndian(d as nat + 256 * rest, n + 1) == [d] + LittleEndian(rest, n)
  {
    assert (d as nat + 256 * rest) / 256 == rest;
  }

  lemma {:induction false} DigitsOfNumber(b: Bytes)
    ensures LittleEndian(Number(b), |b|) == b
  {
    if b != [] {
      DigitsOfNumber(b[1..]);
      DigitsStep(b[0], Number(b[1..]), |b| - 1);
      assert b == [b[0]] + b[1..];
    }
  }

  /** Bytes in a molecule header word. */
  function WordSize(): (n: nat)
    ensures n == 4
  {
    4
  }

  /** writeUInt32LE of the value's low 32 bits. */
  function U32le(v: nat): (r: Bytes)
    ensures |r| == 4
  {
    LittleEndian(v, WordSize())
  }

  function Word(buf: Bytes, off: nat): nat
    requires off + 4 <= |buf|
  {
    Number(buf[off..off + 4])
  }

  /** A bounds-checked read: an offset past the end is an error, never a read. */
  function ReadU32(buf: Bytes, off: nat): Result<nat, Error> {
    if off + 4 > |buf| then Err(PastEnd) else Ok(Word(buf, off))
  }

  // ---------- writing ----------

  function Concat(fields: seq<Bytes>): Bytes {
    if fields == [] then [] else Concat(fields[..|fields| - 1]) + fields[|fields| - 1]
  }

  /** Where each field starts, when the first one starts at header. */
  function Starts(fields: seq<Bytes>, header: nat): (r: seq<nat>)
    ensures |r| == |fields|
  {
    if fields == [] then []
    else
      var before := fields[..|fields| - 1];
      Starts(before, header) + [header + |Concat(before)|]
  }

  function Words(ns: seq<nat>): (r: Bytes)
    ensures |r| == 4 * |ns|
  {
    if ns == [] then [] else Words(ns[..|ns| - 1]) + U32le(ns[|ns| - 1])
  }

  function HeaderSize(fields: seq<Bytes>): nat {
    4 + 4 * |fields|
  }

  function TotalSize(fields: seq<Bytes>): nat {
    HeaderSize(fields) + |Concat(fields)|
  }

  function Container(fields: seq<Bytes>): Bytes {
    if fields == [] then U32le(4)
    else U32le(TotalSize(fields)) + Words(Starts(fields, HeaderSize(fields))) + Concat(fields)
  }

  lemma NextField(fields: seq<Bytes>, header: nat, k: nat)
    requires k < |fields|
    ensures Concat(fields[..k + 1]) == Concat(fields[..k]) + fields[k]
    ensures Words(Starts(fields[..k + 1], header)) == Words(Starts(fields[..k], header)) + U32le(header + |Concat(fields[..k])|)
  {
    assert fields[..k + 1][..k] == fields[..k];
    var before, last := Starts(fields[..k], header), header + |Concat(fields[..k])|;
    assert Starts(fields[..k + 1], header) == before + [last];
    assert (before + [last])[..k] == before;
  }

  lemma NoFields(header: nat)
    ensures Concat([]) == [] && Words(Starts([], header)) == [] && Container([]) == U32le(4)
  {
  }

  lemma ContainerParts(fields: seq<Bytes>)
    requires fields != []
    ensures HeaderSize(fields) == 4 + 4 * |fields| && TotalSize(fields) == HeaderSize(fields) + |Concat(fields)|
    ensures Container(fields) == U32le(TotalSize(fields)) + Words(Starts(fields, HeaderSize(fields))) + Concat(fields)
    ensures |Container(fields)| == TotalSize(fields)
  {
  }

  method OffsetContainer(fields: seq<Bytes>) returns (out: Bytes)
    ensures out == Container(fields)
  {
    hide *;
    NoFields(4 + 4 * |fields|);
    if |fields| == 0 {
      return U32le(4);
    }
    var headerSize := 4 + 4 * |fields|;
    var offsets: Bytes := [];
    var body: Bytes := [];
    var cur := headerSize;
    for k := 0 to |fields|
      invariant cur == headerSize + |Concat(fields[..k])|
      invariant offsets == Words(Starts(fields[..k], headerSize))
      invariant body == Concat(fields[..k])
    {
      NextField(fields, headerSize, k);
      offsets := offsets + U32le(cur);
      cur := cur + |fields[k]|;
      body := body + fields[k];
    }
    assert fields[..|fields|] == fields;
    ContainerParts(fields);
    return U32le(cur) + offsets + body;
  }

  // ---------- reading ----------

  /** The first k offsets, each inside the buffer and none before its predecessor. */
  function ReadOffsets(buf: Bytes, k: nat): Result<seq<nat>, Error> {
    if k == 0 then Ok([])
    else
      var before := ReadOffsets(buf, k - 1);
      if before.Err? then before
      else
        var o := ReadU32(buf, 4 * k);
        if o.Err? then Err(o.error)
        else if o.value > |buf| then Err(OffsetPastEnd)
        else if before.value != [] && o.value < before.value[|before.value| - 1] then Err(NotMonotonic)
        else Ok(before.value + [o.value])
  }

  /** What tableOffsets returns: the field boundaries with the buffer end appended. */
  function Offsets(buf: Bytes): Result<seq<nat>, Error> {
    if |buf| < 8 then Err(TableTooShort)
    else
      var first := Word(buf, 4);
      if Word(buf, 0) != |buf| then Err(SizeMismatch)
      else if first < 8 || first > |buf| || first % 4 != 0 then Err(BadFirstOffset)
      else
        var offs := ReadOffsets(buf, (first - 4) / 4);
        if offs.Err? then offs else Ok(offs.value + [|buf|])
  }

  lemma OneMore(buf: Bytes, k: nat, before: seq<nat>)
    requires ReadOffsets(buf, k) == Ok(before) && 4 * k + 8 <= |buf|
    ensures var o := Word(buf, 4 + 4 * k);
      ReadOffsets(buf, k + 1) ==
        if o > |buf| then Err(OffsetPastEnd)
        else if before != [] && o < before[|before| - 1] then Err(NotMonotonic)
        else Ok(before + [o])
  {
  }

  lemma HeaderChecked(buf: Bytes, n: nat)
    requires |buf| >= 8 && Word(buf, 0) == |buf| && Word(buf, 4) == 4 + 4 * n && 0 < n && 4 + 4 * n <= |buf|
    ensures Offsets(buf) == var offs := ReadOffsets(buf, n); if offs.Err? then offs else Ok(offs.value + [|buf|])
    ensures ReadOffsets(buf, 0) == Ok([])
  {
  }

  method TableOffsets(buf: Bytes) returns (r: Result<seq<nat>, Error>)
    ensures r == Offsets(buf)
  {
    if |buf| < 8 {
      return Err(TableTooShort);
    }
    if Word(buf, 0) != |buf| {
      return Err(SizeMismatch);
    }
    var first := Word(buf, 4);
    if first < 8 || first > |buf| || first % 4 != 0 {
      return Err(BadFirstOffset);
    }
    var count := (first - 4) / 4;
    hide *;
    HeaderChecked(buf, count);
    var offs: seq<nat> := [];
    for i := 0 to count
      invariant ReadOffsets(buf, i) == Ok(offs) && |offs| == i
    {
      var o := Word(buf, 4 + 4 * i);
      OneMore(buf, i, offs);
      ErrorsStick(buf, i + 1, count);
      if o > |buf| {
        return Err(OffsetPastEnd);
      }
      if i > 0 && o < offs[i - 1] {
        return Err(NotMonotonic);
      }
      offs := offs + [o];
    }
    return Ok(offs + [|buf|]);
  }

  lemma {:induction false} ErrorsStick(buf: Bytes, k: nat, n: nat)
    requires k <= n
    ensures ReadOffsets(buf, k).Err? ==> ReadOffsets(buf, n) == ReadOffsets(buf, k)
  {
    if k < n {
      ErrorsStick(buf, k, n - 1);
    }
  }

  // ---------- reading back what was written ----------

  lemma {:induction false} WordAt(ns: seq<nat>, k: nat)
    requires k < |ns|
    ensures Words(ns)[4 * k..4 * k + 4] == U32le(ns[k])
  {
    var n := |ns| - 1;
    if k < n {
      WordAt(ns[..n], k);
      assert Words(ns)[4 * k..4 * k + 4] == Words(ns[..n])[4 * k..4 * k + 4];
    }
  }

  lemma ReadSlice(buf: Bytes, off: nat, v: nat)
    requires off + 4 <= |buf| && buf[off..off + 4] == U32le(v)
    ensures ReadU32(buf, off) == Ok(v % TWO32)
  {
    NumberOfDigits(v, WordSize());
    assert Pow256(4) == TWO32;
  }

  lemma {:induction false} StartsAt(fields: seq<Bytes>, header: nat, k: nat)
    requires k < |fields|
    ensures Starts(fields, header)[k] == header + |Concat(fields[..k])|
  {
    var n := |fields| - 1;
    if k < n {
      StartsAt(fields[..n], header, k);
      assert fields[..n][..k] == fields[..k];
    }
  }

  lemma {:induction false} ConcatSplit(fields: seq<Bytes>, k: nat)
    requires k < |fields|
    ensures |Concat(fields[..k])| + |fields[k]| <= |Concat(fields)|
    ensures Concat(fields)[|Concat(fields[..k])|..|Concat(fields[..k])| + |fields[k]|] == fields[k]
    ensures Concat(fields[..k + 1]) == Concat(fields[..k]) + fields[k]
  {
    var n := |fields| - 1;
    assert fields[..k + 1][..k] == fields[..k];
    if k < n {
      ConcatSplit(fields[..n], k);
      assert fields[..n][..k] == fields[..k];
      var a := |Concat(fields[..k])|;
      assert Concat(fields)[a..a + |fields[k]|] == Concat(fields[..n])[a..a + |fields[k]|];
    } else {
      assert fields[..k + 1] == fields;
    }
  }

  lemma SliceInside(head: Bytes, words: Bytes, tail: Bytes, at: nat)
    requires at + 4 <= |words|
    ensures (head + words + tail)[|head| + at..|head| + at + 4] == words[at..at + 4]
  {
  }

  lemma ReadInside(head: Bytes, words: Bytes, tail: Bytes, at: nat, v: nat)
    requires |head| == 4 && at + 4 <= |words| && words[at..at + 4] == U32le(v) && v < TWO32
    ensures ReadU32(head + words + tail, 4 + at) == Ok(v)
  {
    SliceInside(head, words, tail, at);
    ReadSlice(head + words + tail, 4 + at, v);
  }

  lemma WordInside(head: Bytes, ns: seq<nat>, tail: Bytes, k: nat)
    requires |head| == 4 && k < |ns| && ns[k] < TWO32
    ensures ReadU32(head + Words(ns) + tail, 4 + 4 * k) == Ok(ns[k])
  {
    hide *;
    WordAt(ns, k);
    ReadInside(head, Words(ns), tail, 4 * k, ns[k]);
  }

  lemma StartInside(fields: seq<Bytes>, k: nat)
    requires k < |fields|
    ensures HeaderSize(fields) <= Starts(fields, HeaderSize(fields))[k] <= TotalSize(fields)
  {
    StartsAt(fields, HeaderSize(fields), k);
    ConcatSplit(fields, k);
  }

  lemma ContainerWord(fields: seq<Bytes>, k: nat)
    requires k < |fields| && TotalSize(fields) < TWO32
    ensures ReadU32(Container(fields), 4 + 4 * k) == Ok(Starts(fields, HeaderSize(fields))[k])
  {
    hide *;
    StartInside(fields, k);
    ContainerParts(fields);
    WordInside(U32le(TotalSize(fields)), Starts(fields, HeaderSize(fields)), Concat(fields), k);
  }

  lemma StartsOrdered(fields: seq<Bytes>, header: nat, k: nat)
    requires k + 1 < |fields|
    ensures Starts(fields, header)[k] <= Starts(fields, header)[k + 1]
  {
    StartsAt(fields, header, k);
    StartsAt(fields, header, k + 1);
    ConcatSplit(fields, k);
  }

  lemma ReadStep(buf: Bytes, k: nat, before: seq<nat>, o: nat)
    requires ReadOffsets(buf, k) == Ok(before) && ReadU32(buf, 4 + 4 * k) == Ok(o) && o <= |buf|
    requires before != [] ==> before[|before| - 1] <= o
    ensures ReadOffsets(buf, k + 1) == Ok(before + [o])
  {
  }

  lemma ReadNext(fields: seq<Bytes>, k: nat)
    requires k < |fields| && TotalSize(fields) < TWO32
    requires ReadOffsets(Container(fields), k) == Ok(Starts(fields, HeaderSize(fields))[..k])
    ensures ReadOffsets(Container(fields), k + 1) == Ok(Starts(fields, HeaderSize(fields))[..k + 1])
  {
    hide *;
    var starts := Starts(fields, HeaderSize(fields));
    ContainerParts(fields);
    ContainerWord(fields, k);
    StartInside(fields, k);
    if k > 0 {
      StartsOrdered(fields, HeaderSize(fields), k - 1);
    }
    ReadStep(Container(fields), k, starts[..k], starts[k]);
    assert starts[..k + 1] == starts[..k] + [starts[k]];
  }

  lemma {:induction false} ReadsStarts(fields: seq<Bytes>, k: nat)
    requires k <= |fields| && TotalSize(fields) < TWO32
    ensures ReadOffsets(Container(fields), k) == Ok(Starts(fields, HeaderSize(fields))[..k])
  {
    if k > 0 {
      hide *;
      ReadsStarts(fields, k - 1);
      ReadNext(fields, k - 1);
    }
  }

  ghost predicate Boundaries(buf: Bytes, offs: seq<nat>) {
    && (forall k | 0 <= k < |offs| :: offs[k] <= |buf|)
    && (forall j, k | 0 <= j < k < |offs| :: offs[j] <= offs[k])
  }

  /** The fields between consecutive boundaries. */
  ghost function Fields(buf: Bytes, offs: seq<nat>): seq<Bytes>
    requires Boundaries(buf, offs)
  {
    if |offs| < 2 then []
    else Fields(buf, offs[..|offs| - 1]) + [buf[offs[|offs| - 2]..offs[|offs| - 1]]]
  }

  /** Whatever the bytes, the offsets returned are ordered boundaries inside the buffer. */
  lemma {:induction false} OffsetsInside(buf: Bytes, k: nat)
    requires ReadOffsets(buf, k).Ok?
    ensures var offs := ReadOffsets(buf, k).value;
      |offs| == k && Boundaries(buf, offs)
  {
    if k > 0 {
      OffsetsInside(buf, k - 1);
    }
  }

  lemma OffsetsLength(buf: Bytes, n: nat)
    requires Offsets(buf).Ok? && |Offsets(buf).value| == n + 1
    ensures ReadU32(buf, 4) == Ok(4 + 4 * n) && ReadOffsets(buf, n).Ok?
  {
    AcceptedParts(buf);
    OffsetsInside(buf, (ReadU32(buf, 4).value - 4) / 4);
  }

  lemma OffsetsOk(buf: Bytes)
    requires Offsets(buf).Ok?
    ensures var offs := Offsets(buf).value;
      && Boundaries(buf, offs) && |offs| >= 2 && offs[|offs| - 1] == |buf|
      && offs[0] == 4 * |offs| && ReadU32(buf, 0) == Ok(|buf|)
  {
    var first := ReadU32(buf, 4).value;
    var n := (first - 4) / 4;
    OffsetsInside(buf, n);
    FirstOffset(buf, n);
    var offs := Offsets(buf).value;
    assert offs[..n] == ReadOffsets(buf, n).value;
    assert first == 4 + 4 * n;
  }

  lemma {:induction false} FirstOffset(buf: Bytes, k: nat)
    requires ReadOffsets(buf, k).Ok? && k > 0
    ensures ReadOffsets(buf, k).value != [] && ReadU32(buf, 4) == Ok(ReadOffsets(buf, k).value[0])
  {
    OffsetsInside(buf, k - 1);
    if k > 1 {
      FirstOffset(buf, k - 1);
    }
  }

  lemma {:induction false} FieldsOfSlices(buf: Bytes, offs: seq<nat>, fields: seq<Bytes>)
    requires Boundaries(buf, offs) && |offs| == |fields| + 1
    requires forall k | 0 <= k < |fields| :: buf[offs[k]..offs[k + 1]] == fields[k]
    ensures Fields(buf, offs) == fields
  {
    if fields != [] {
      var n := |fields|;
      var short := fields[..n - 1];
      forall k | 0 <= k < |short| ensures buf[offs[..n][k]..offs[..n][k + 1]] == short[k] {
        assert buf[offs[k]..offs[k + 1]] == fields[k];
      }
      FieldsOfSlices(buf, offs[..n], short);
      assert fields == short + [fields[n - 1]];
    }
  }

  /** Where the writer's boundaries lie. */
  lemma BoundaryAt(fields: seq<Bytes>, k: nat)
    requires k <= |fields|
    ensures (Starts(fields, HeaderSize(fields)) + [TotalSize(fields)])[k] == HeaderSize(fields) + |Concat(fields[..k])|
  {
    if k < |fields| {
      StartsAt(fields, HeaderSize(fields), k);
    } else {
      assert fields[..k] == fields;
    }
  }

  /** Where the writer put field k. */
  lemma FieldInPlace(fields: seq<Bytes>, k: nat)
    requires k < |fields|
    ensures var offs := Starts(fields, HeaderSize(fields)) + [TotalSize(fields)];
      offs[k] <= offs[k + 1] <= |Container(fields)| == TotalSize(fields) && Container(fields)[offs[k]..offs[k + 1]] == fields[k]
  {
    hide *;
    var h := HeaderSize(fields);
    BoundaryAt(fields, k);
    BoundaryAt(fields, k + 1);
    ConcatSplit(fields, k);
    ContainerParts(fields);
    var head := U32le(TotalSize(fields)) + Words(Starts(fields, h));
    assert |head| == h;
    BodyInside(head, Concat(fields), |Concat(fields[..k])|, |fields[k]|);
  }

  lemma BodyInside(head: Bytes, body: Bytes, at: nat, n: nat)
    requires at + n <= |body|
    ensures (head + body)[|head| + at..|head| + at + n] == body[at..at + n]
  {
  }

  lemma {:induction false} Ascending(offs: seq<nat>, j: nat, k: nat)
    requires j <= k < |offs| && forall i {:trigger offs[i]} | 0 <= i < |offs| - 1 :: offs[i] <= offs[i + 1]
    ensures offs[j] <= offs[k]
  {
    if j < k {
      Ascending(offs, j, k - 1);
    }
  }

  lemma ContainerFields(fields: seq<Bytes>)
    requires fields != []
    ensures var offs := Starts(fields, HeaderSize(fields)) + [TotalSize(fields)];
      Boundaries(Container(fields), offs) && Fields(Container(fields), offs) == fields
  {
    var buf := Container(fields);
    var offs := Starts(fields, HeaderSize(fields)) + [TotalSize(fields)];
    forall k {:trigger offs[k]} | 0 <= k < |fields| ensures offs[k] <= offs[k + 1] <= |buf| && buf[offs[k]..offs[k + 1]] == fields[k] {
      FieldInPlace(fields, k);
    }
    forall j, k | 0 <= j < k < |offs| ensures offs[j] <= offs[k] {
      Ascending(offs, j, k);
    }
    FieldsOfSlices(buf, offs, fields);
  }

  lemma OffsetsUnfold(buf: Bytes, n: nat, starts: seq<nat>)
    requires |buf| >= 8 && ReadU32(buf, 0) == Ok(|buf|) && ReadU32(buf, 4) == Ok(4 + 4 * n) && 0 < n && 4 + 4 * n <= |buf|
    requires ReadOffsets(buf, n) == Ok(starts)
    ensures Offsets(buf) == Ok(starts + [|buf|])
  {
  }

  lemma LastSize(n: nat)
    ensures TWO32 > 0 && n % TWO32 < TWO32
  {
  }

  lemma SizeWord(fields: seq<Bytes>)
    requires fields != []
    ensures ReadU32(Container(fields), 0) == Ok(TotalSize(fields) % TWO32) && TotalSize(fields) % TWO32 < TWO32
  {
    LastSize(TotalSize(fields));
    hide *;
    ContainerParts(fields);
    assert Container(fields)[0..4] == U32le(TotalSize(fields));
    ReadSlice(Container(fields), 0, TotalSize(fields));
  }

  lemma OffsetsNeedSize(buf: Bytes)
    requires Offsets(buf).Ok?
    ensures ReadU32(buf, 0) == Ok(|buf|)
  {
  }

  /** Every non-empty field list is read back exactly, as long as its size fits the 32-bit prefix - and only then. */
  lemma ContainerRoundTrip(fields: seq<Bytes>)
    requires fields != []
    ensures Offsets(Container(fields)).Ok? <==> TotalSize(fields) < TWO32
    ensures TotalSize(fields) < TWO32 ==>
      var offs := Offsets(Container(fields)).value;
      Boundaries(Container(fields), offs) && Fields(Container(fields), offs) == fields
  {
    hide *;
    var buf := Container(fields);
    ContainerParts(fields);
    SizeWord(fields);
    if TotalSize(fields) < TWO32 {
      var starts := Starts(fields, HeaderSize(fields));
      ContainerWord(fields, 0);
      StartsAt(fields, HeaderSize(fields), 0);
      NoFields(0);
      assert fields[..0] == [];
      ReadsStarts(fields, |fields|);
      assert starts[..|fields|] == starts;
      OffsetsUnfold(buf, |fields|, starts);
      ContainerFields(fields);
    } else if Offsets(buf).Ok? {
      OffsetsNeedSize(buf);
    }
  }

  // ---------- writing back what was read ----------

  lemma WordsSnoc(ns: seq<nat>, v: nat)
    ensures Words(ns + [v]) == Words(ns) + U32le(v)
  {
    assert (ns + [v])[..|ns|] == ns;
  }

  lemma ReadOffsetsStep(buf: Bytes, k: nat)
    requires k > 0 && ReadOffsets(buf, k).Ok? && 4 + 4 * k <= |buf|
    ensures ReadOffsets(buf, k - 1).Ok? && ReadOffsets(buf, k).value == ReadOffsets(buf, k - 1).value + [Word(buf, 4 * k)]
  {
  }

  lemma WordBytes(buf: Bytes, at: nat)
    requires at + 4 <= |buf|
    ensures U32le(Word(buf, at)) == buf[at..at + 4]
  {
    DigitsOfNumber(buf[at..at + 4]);
  }

  lemma {:induction false} WordsRead(buf: Bytes, k: nat)
    requires ReadOffsets(buf, k).Ok? && 4 + 4 * k <= |buf|
    ensures Words(ReadOffsets(buf, k).value) == buf[4..4 + 4 * k]
  {
    if k > 0 {
      hide *;
      ReadOffsetsStep(buf, k);
      WordsRead(buf, k - 1);
      WordBytes(buf, 4 * k);
      WordsSnoc(ReadOffsets(buf, k - 1).value, Word(buf, 4 * k));
      assert buf[4..4 + 4 * k] == buf[4..4 + 4 * (k - 1)] + buf[4 * k..4 * k + 4];
    }
  }

  lemma LastFieldOf(buf: Bytes, offs: seq<nat>)
    requires Boundaries(buf, offs) && |offs| >= 2
    ensures var n := |offs| - 1;
      && Boundaries(buf, offs[..n]) && offs[n - 1] <= offs[n] <= |buf|
      && Fields(buf, offs) == Fields(buf, offs[..n]) + [buf[offs[n - 1]..offs[n]]]
  {
  }

  lemma AppendField(fields: seq<Bytes>, f: Bytes, h: nat)
    ensures Concat(fields + [f]) == Concat(fields) + f
    ensures Starts(fields + [f], h) == Starts(fields, h) + [h + |Concat(fields)|]
  {
    assert (fields + [f])[..|fields|] == fields;
  }

  lemma {:induction false} ConcatFields(buf: Bytes, offs: seq<nat>)
    requires Boundaries(buf, offs) && |offs| >= 1
    ensures offs[0] <= offs[|offs| - 1] <= |buf|
    ensures |Fields(buf, offs)| == |offs| - 1
    ensures Concat(Fields(buf, offs)) == buf[offs[0]..offs[|offs| - 1]]
    ensures Starts(Fields(buf, offs), offs[0]) == offs[..|offs| - 1]
  {
    if |offs| > 1 {
      hide *;
      var n := |offs| - 1;
      LastFieldOf(buf, offs);
      ConcatFields(buf, offs[..n]);
      AppendField(Fields(buf, offs[..n]), buf[offs[n - 1]..offs[n]], offs[0]);
      assert buf[offs[0]..offs[n]] == buf[offs[0]..offs[n - 1]] + buf[offs[n - 1]..offs[n]];
      assert offs[..n] == offs[..n][..n - 1] + [offs[n - 1]];
    }
  }

  lemma AcceptedParts(buf: Bytes)
    requires Offsets(buf).Ok?
    ensures |buf| >= 8 && ReadU32(buf, 4).Ok? && ReadU32(buf, 0) == Ok(|buf|)
    ensures var n := (ReadU32(buf, 4).value - 4) / 4;
      ReadU32(buf, 4).value == 4 + 4 * n <= |buf| && n > 0 && ReadOffsets(buf, n).Ok? && Offsets(buf) == Ok(ReadOffsets(buf, n).value + [|buf|])
  {
  }

  lemma FirstWord(buf: Bytes)
    requires ReadU32(buf, 0) == Ok(|buf|)
    ensures |buf| >= 4 && U32le(|buf|) == buf[0..4]
  {
    DigitsOfNumber(buf[0..4]);
  }

  /** Every buffer the reader accepts is exactly what the writer produces from the fields found in it. */
  lemma ContainerCanonical(buf: Bytes)
    requires Offsets(buf).Ok?
    ensures Boundaries(buf, Offsets(buf).value)
    ensures Fields(buf, Offsets(buf).value) != [] && Container(Fields(buf, Offsets(buf).value)) == buf
  {
    OffsetsOk(buf);
    Rebuild(buf, Offsets(buf).value);
  }

  lemma Rebuild(buf: Bytes, offs: seq<nat>)
    requires Offsets(buf) == Ok(offs) && Boundaries(buf, offs) && |offs| >= 2 && offs[0] == 4 * |offs| && offs[|offs| - 1] == |buf|
    requires offs[0] <= |buf|
    ensures Fields(buf, offs) != [] && Container(Fields(buf, offs)) == buf
  {
    hide *;
    var n := |offs| - 1;
    var fields := Fields(buf, offs);
    AcceptedParts(buf);
    OffsetsLength(buf, n);
    ConcatFields(buf, offs);
    WordsRead(buf, n);
    FirstWord(buf);
    ContainerParts(fields);
    assert offs[..n] == ReadOffsets(buf, n).value;
    assert buf == buf[0..4] + buf[4..offs[0]] + buf[offs[0]..|buf|];
  }
}
