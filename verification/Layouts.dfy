/** Byte by byte: the molecule encodings of src/mining/ckb-merkle.js, and hexadecimal text. */
module Layouts {
  import opened Wrappers
  import opened Molecule
  import opened CellbaseWitness

  // ---------- words and containers ----------

  /** The four bytes of a header word, least significant first. */
  lemma WordLayout(v: nat)
    ensures var b := U32le(v);
      v % 0x1_0000_0000 == b[0] as nat + 0x100 * b[1] as nat + 0x1_0000 * b[2] as nat + 0x100_0000 * b[3] as nat
  {
    NumberOfDigits(v, WordSize());
    assert Pow256(4) == 0x1_0000_0000;
    FourBytes(U32le(v));
    hide LittleEndian, Number, Pow256;
  }

  lemma FourBytes(b: Bytes)
    requires |b| == 4
    ensures Number(b) == b[0] as nat + 0x100 * b[1] as nat + 0x1_0000 * b[2] as nat + 0x100_0000 * b[3] as nat
  {
    assert b[1..][1..] == b[2..] && b[2..][1..] == b[3..] && b[3..][1..] == [];
    assert Number(b[3..]) == b[3] as nat;
    assert Number(b[2..]) == b[2] as nat + 0x100 * b[3] as nat;
  }

  ghost predicate FieldLaid(buf: Bytes, fields: seq<Bytes>, starts: seq<nat>, k: nat)
    requires k < |fields| && |starts| == |fields| + 1
  {
    && 8 + 4 * k <= |buf| && buf[4 + 4 * k..8 + 4 * k] == U32le(starts[k])
    && starts[k + 1] == starts[k] + |fields[k]| <= |buf| && buf[starts[k]..starts[k + 1]] == fields[k]
  }

  /** The total size, one offset for each field, and the fields in order without gaps. */
  ghost predicate LaidOut(buf: Bytes, fields: seq<Bytes>, starts: seq<nat>) {
    && |starts| == |fields| + 1 && starts[0] == 4 + 4 * |fields| && starts[|fields|] == |buf|
    && |buf| >= 4 && buf[..4] == U32le(|buf|)
    && forall k | 0 <= k < |fields| :: FieldLaid(buf, fields, starts, k)
  }

  ghost predicate HasLayout(buf: Bytes, fields: seq<Bytes>) {
    exists starts :: LaidOut(buf, fields, starts)
  }

  lemma OffsetInPlace(fields: seq<Bytes>, k: nat)
    requires k < |fields|
    ensures 8 + 4 * k <= |Container(fields)| && Container(fields)[4 + 4 * k..8 + 4 * k] == U32le(Starts(fields, HeaderSize(fields))[k])
  {
    hide *;
    var starts := Starts(fields, HeaderSize(fields));
    WordAt(starts, k);
    ContainerParts(fields);
    SliceInside(U32le(TotalSize(fields)), Words(starts), Concat(fields), 4 * k);
  }

  lemma BoundaryStep(fields: seq<Bytes>, k: nat)
    requires k < |fields|
    ensures var offs := Starts(fields, HeaderSize(fields)) + [TotalSize(fields)];
      offs[0] == HeaderSize(fields) && offs[k + 1] == offs[k] + |fields[k]|
  {
    assert fields[..0] == [] && Concat([]) == [];
    BoundaryAt(fields, 0);
    BoundaryAt(fields, k);
    BoundaryAt(fields, k + 1);
    ConcatSplit(fields, k);
    hide Concat, Starts;
  }

  lemma SizeInPlace(fields: seq<Bytes>)
    requires fields != []
    ensures |Container(fields)| == TotalSize(fields) >= 4 && Container(fields)[..4] == U32le(TotalSize(fields))
  {
    hide Concat, Starts, Words, U32le;
  }

  /** offsetContainer writes the total size, one offset for each field, and the fields in order without gaps. */
  lemma ContainerLayout(fields: seq<Bytes>)
    requires fields != []
    ensures HasLayout(Container(fields), fields)
  {
    hide *;
    var buf := Container(fields);
    var offs := Starts(fields, HeaderSize(fields)) + [TotalSize(fields)];
    SizeInPlace(fields);
    BoundaryStep(fields, 0);
    ContainerParts(fields);
    forall k | 0 <= k < |fields| ensures FieldLaid(buf, fields, offs, k) {
      OffsetInPlace(fields, k);
      FieldInPlace(fields, k);
      BoundaryStep(fields, k);
      IsFieldLaid(buf, fields, offs, k);
    }
    IsLaidOut(buf, fields, offs);
  }

  lemma IsFieldLaid(buf: Bytes, fields: seq<Bytes>, starts: seq<nat>, k: nat)
    requires k < |fields| && |starts| == |fields| + 1 && 8 + 4 * k <= |buf|
    requires starts[k + 1] == starts[k] + |fields[k]| <= |buf|
    requires buf[4 + 4 * k..8 + 4 * k] == U32le(starts[k]) && buf[starts[k]..starts[k + 1]] == fields[k]
    ensures FieldLaid(buf, fields, starts, k)
  {
  }

  lemma IsLaidOut(buf: Bytes, fields: seq<Bytes>, starts: seq<nat>)
    requires |starts| == |fields| + 1 && starts[0] == 4 + 4 * |fields| && starts[|fields|] == |buf| && |buf| >= 4
    requires buf[..4] == U32le(|buf|) && forall k | 0 <= k < |fields| :: FieldLaid(buf, fields, starts, k)
    ensures HasLayout(buf, fields)
  {
    hide FieldLaid, U32le;
    assert LaidOut(buf, fields, starts);
  }

  // ---------- scripts and witnesses ----------

  /** The molecule encoding of a script: sizes and offsets 16, 48 and 49, then the three fields. */
  lemma ScriptLayout(s: Script)
    requires |s.codeHash| == 32
    ensures EncodeScript(s).Ok?
    ensures EncodeScript(s).value ==
      U32le(53 + |s.args|) + U32le(16) + U32le(48) + U32le(49)
      + s.codeHash + [if s.hashType.Data? then 0 else if s.hashType.Type? then 1 else if s.hashType.Data1? then 2 else 4]
      + U32le(|s.args|) + s.args
  {
    hide U32le, Container;
    var fs := ScriptFields(s);
    ThreeFields(fs[0], fs[1], fs[2]);
    assert fs == [fs[0], fs[1], fs[2]];
    Assoc(U32le(53 + |s.args|) + U32le(16) + U32le(48) + U32le(49) + fs[0] + fs[1], U32le(|s.args|), s.args);
  }

  lemma ThreeFields(a: Bytes, b: Bytes, c: Bytes)
    ensures Container([a, b, c]) ==
      U32le(16 + |a| + |b| + |c|) + U32le(16) + U32le(16 + |a|) + U32le(16 + |a| + |b|) + a + b + c
  {
    hide *;
    TwoParts(a, b, 16);
    AppendField([a, b], c, 16);
    WordsSnoc(Starts([a, b], 16), 16 + |a| + |b|);
    assert [a, b] + [c] == [a, b, c];
    ContainerParts([a, b, c]);
    Regroup(U32le(16 + |a| + |b| + |c|), U32le(16), U32le(16 + |a|), U32le(16 + |a| + |b|), a + b + c);
  }

  lemma Regroup(s: Bytes, x: Bytes, y: Bytes, z: Bytes, t: Bytes)
    ensures s + (x + y + z) + t == s + x + y + z + t
  {
  }

  lemma Assoc(a: Bytes, b: Bytes, c: Bytes)
    ensures a + (b + c) == a + b + c
  {
  }

  lemma TwoParts(a: Bytes, b: Bytes, h: nat)
    ensures Concat([a, b]) == a + b
    ensures Words(Starts([a, b], h)) == U32le(h) + U32le(h + |a|)
  {
    hide *;
    OnePart(a, h);
    AppendField([a], b, h);
    WordsSnoc([h], h + |a|);
    assert [a] + [b] == [a, b];
  }

  lemma OnePart(a: Bytes, h: nat)
    ensures Concat([a]) == a && Starts([a], h) == [h] && Words([h]) == U32le(h)
  {
    hide U32le;
    assert [a][..0] == [] && [h][..0] == [];
    assert Concat([]) == [] && Words([]) == [];
  }

  /** A cellbase witness: two offsets, the script, and the message with its length. */
  lemma WitnessLayout(w: Witness, script: Bytes)
    requires EncodeScript(w.lock) == Ok(script)
    ensures EncodeWitness(w).Ok?
    ensures EncodeWitness(w).value ==
      U32le(16 + |script| + |w.message|) + U32le(12) + U32le(12 + |script|) + script + U32le(|w.message|) + w.message
  {
    hide EncodeScript, U32le, Concat, Starts, Words, Container;
    var b := MolBytes(w.message);
    TwoParts(script, b, 12);
    ContainerParts([script, b]);
    Regroup(U32le(12 + |script| + |b|), U32le(12), U32le(12 + |script|), [], script + b);
    Assoc(U32le(12 + |script| + |b|) + U32le(12) + U32le(12 + |script|), script, b);
    Assoc(U32le(12 + |script| + |b|) + U32le(12) + U32le(12 + |script|) + script, U32le(|w.message|), w.message);
  }

  // ---------- which buffers are accepted ----------

  /** Some list of fields was laid out to give this buffer, and its size fits the size word. */
  lemma AcceptedIff(buf: Bytes)
    ensures Offsets(buf).Ok? <==> exists fields :: IsTable(buf, fields)
  {
    if Offsets(buf).Ok? {
      ContainerCanonical(buf);
      ContainerRoundTrip(Fields(buf, Offsets(buf).value));
      assert IsTable(buf, Fields(buf, Offsets(buf).value));
    }
    if fields :| IsTable(buf, fields) {
      ContainerRoundTrip(fields);
    }
  }

  ghost predicate IsTable(buf: Bytes, fields: seq<Bytes>) {
    fields != [] && buf == Container(fields) && TotalSize(fields) < TWO32
  }

  lemma FieldRead(buf: Bytes, fields: seq<Bytes>, k: nat)
    requires IsTable(buf, fields) && k < |fields|
    ensures Offsets(buf).Ok? && |Offsets(buf).value| == |fields| + 1
    ensures var o := Offsets(buf).value; o[k] <= o[k + 1] <= |buf| && Slice(buf, o[k], o[k + 1]) == fields[k]
  {
    hide Slice, Offsets, Container;
    ReadBack(fields, k);
  }

  lemma BytesFieldIff(field: Bytes, raw: Bytes)
    ensures ReadBytesField(field) == Ok(raw) <==> field == U32le(|raw|) + raw && |raw| < TWO32
  {
    hide U32le;
    if ReadBytesField(field) == Ok(raw) {
      BytesFieldCanonical(field);
      WordBelow(field);
    }
    if field == U32le(|raw|) + raw && |raw| < TWO32 {
      BytesField(raw);
    }
  }

  lemma WordBelow(field: Bytes)
    ensures ReadU32(field, 0).Ok? ==> ReadU32(field, 0).value < TWO32
  {
    if |field| >= 4 {
      FourBytes(field[0..4]);
    }
  }

  /** A table is read as the script exactly when its first three fields are its code hash, its hash type and its arguments; more may follow. */
  ghost predicate ScriptIn(fields: seq<Bytes>, s: Script) {
    && |fields| >= 3 && fields[0] == s.codeHash && |s.codeHash| == 32
    && fields[1] == [if s.hashType.Data? then 0 else if s.hashType.Type? then 1 else if s.hashType.Data1? then 2 else 4]
    && fields[2] == U32le(|s.args|) + s.args && |s.args| < TWO32
  }

  lemma ScriptParsesIff(buf: Bytes, fields: seq<Bytes>, s: Script)
    requires IsTable(buf, fields)
    ensures ParseScript(buf) == Ok(s) <==> ScriptIn(fields, s)
  {
    hide *;
    FieldCount(buf, fields);
    ParsesAt(buf, s);
    if |fields| >= 3 {
      FieldRead(buf, fields, 0);
      FieldRead(buf, fields, 1);
      FieldRead(buf, fields, 2);
      BytesFieldIff(fields[2], s.args);
      ScriptAtIff(buf, Offsets(buf).value, fields, s);
    } else {
      FewFields(buf, Offsets(buf).value, fields, s);
    }
  }

  lemma FieldCount(buf: Bytes, fields: seq<Bytes>)
    requires IsTable(buf, fields)
    ensures Offsets(buf).Ok? && |Offsets(buf).value| == |fields| + 1
  {
    hide Offsets, Container, Slice;
    ReadBack(fields, 0);
  }

  lemma FewFields(buf: Bytes, o: seq<nat>, fields: seq<Bytes>, s: Script)
    requires |o| == |fields| + 1 && |fields| < 3
    ensures !ScriptAt(buf, o, s) && !ScriptIn(fields, s)
  {
  }

  lemma ScriptAtIff(buf: Bytes, o: seq<nat>, fields: seq<Bytes>, s: Script)
    requires |o| == |fields| + 1 && |fields| >= 3 && o[0] <= o[1] <= o[2] <= o[3] <= |buf|
    requires Slice(buf, o[0], o[1]) == fields[0] && Slice(buf, o[1], o[2]) == fields[1] && Slice(buf, o[2], o[3]) == fields[2]
    requires ReadBytesField(fields[2]) == Ok(s.args) <==> fields[2] == U32le(|s.args|) + s.args && |s.args| < TWO32
    ensures ScriptAt(buf, o, s) <==> ScriptIn(fields, s)
  {
    hide Slice, ReadBytesField, U32le;
  }

  /** A table is read as the witness exactly when its first field is read as the lock and its second holds the message. */
  lemma WitnessParsesIff(buf: Bytes, fields: seq<Bytes>, w: Witness)
    requires IsTable(buf, fields)
    ensures ParseWitness(buf) == Ok(w) <==>
      |fields| >= 2 && ParseScript(fields[0]) == Ok(w.lock) && fields[1] == U32le(|w.message|) + w.message && |w.message| < TWO32
  {
    hide Offsets, ParseScript, ReadBytesField, U32le, Slice, IsTable;
    FieldCount(buf, fields);
    if |fields| >= 2 {
      FieldRead(buf, fields, 0);
      FieldRead(buf, fields, 1);
      BytesFieldIff(fields[1], w.message);
    }
  }

  // ---------- hexadecimal text ----------

  /** Two lower-case digits for each byte, the high one first. */
  lemma {:induction false} HexLayout(b: Bytes, k: nat)
    requires k < |b|
    ensures |ToHex(b)| == 2 * |b|
    ensures ToHex(b)[2 * k] == "0123456789abcdef"[b[k] as nat / 16] && ToHex(b)[2 * k + 1] == "0123456789abcdef"[b[k] as nat % 16]
  {
    HexLength(b);
    if k == 0 {
      DigitIs(b[0] as nat / 16);
      DigitIs(b[0] as nat % 16);
    } else {
      HexLayout(b[1..], k - 1);
    }
  }

  lemma {:induction false} HexLength(b: Bytes)
    ensures |ToHex(b)| == 2 * |b|
  {
    if b != [] {
      HexLength(b[1..]);
    }
  }

  lemma DigitIs(n: nat)
    requires n < 16
    ensures Digit(n) == "0123456789abcdef"[n]
  {
  }

  /** Reading text of either case: it succeeds exactly for whole pairs of hexadecimal digits. */
  ghost predicate IsDigit(c: char, n: nat) {
    n < 16 && (c == "0123456789abcdef"[n] || c == "0123456789ABCDEF"[n])
  }

  ghost predicate ReadsAs(s: string, b: Bytes) {
    |s| == 2 * |b| && forall k | 0 <= k < |b| :: IsDigit(s[2 * k], b[k] as nat / 16) && IsDigit(s[2 * k + 1], b[k] as nat % 16)
  }

  lemma DigitIff(c: char, n: nat)
    ensures HexDigit(c) == Some(n) <==> IsDigit(c, n)
  {
  }

  lemma {:induction false} FromHexIff(s: string, b: Bytes)
    ensures FromHex(s) == Ok(b) <==> ReadsAs(s, b)
  {
    if s == "" {
    } else if |s| >= 2 && b != [] {
      FromHexIff(s[2..], b[1..]);
      DigitIff(s[0], b[0] as nat / 16);
      DigitIff(s[1], b[0] as nat % 16);
      PairIff(s, b);
      ReadsStep(s, b);
    }
  }

  lemma PairIff(s: string, b: Bytes)
    requires |s| >= 2 && b != []
    ensures FromHex(s) == Ok(b) <==>
      HexDigit(s[0]) == Some(b[0] as nat / 16) && HexDigit(s[1]) == Some(b[0] as nat % 16) && FromHex(s[2..]) == Ok(b[1..])
  {
    assert b == [b[0]] + b[1..];
    hide HexDigit;
    assert forall c, n :: HexDigit(c) == Some(n) ==> n < 16 by {
      forall c, n | HexDigit(c) == Some(n) ensures n < 16 {
        DigitIff(c, n);
      }
    }
  }

  lemma ReadsStep(s: string, b: Bytes)
    requires |s| >= 2 && b != []
    ensures ReadsAs(s, b) <==> IsDigit(s[0], b[0] as nat / 16) && IsDigit(s[1], b[0] as nat % 16) && ReadsAs(s[2..], b[1..])
  {
    hide IsDigit;
    if ReadsAs(s, b) {
      forall k | 0 <= k < |b[1..]| ensures IsDigit(s[2..][2 * k], b[1..][k] as nat / 16) && IsDigit(s[2..][2 * k + 1], b[1..][k] as nat % 16) {
        assert IsDigit(s[2 * (k + 1)], b[k + 1] as nat / 16);
      }
    } else if IsDigit(s[0], b[0] as nat / 16) && IsDigit(s[1], b[0] as nat % 16) && ReadsAs(s[2..], b[1..]) {
      forall k | 0 <= k < |b| ensures IsDigit(s[2 * k], b[k] as nat / 16) && IsDigit(s[2 * k + 1], b[k] as nat % 16) {
        if k > 0 {
          assert IsDigit(s[2..][2 * (k - 1)], b[1..][k - 1] as nat / 16);
        }
      }
    }
  }
}
