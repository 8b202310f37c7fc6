/**
 The CellbaseWitness table of src/wallet/cellbase-witness.js: whom a block's reward belongs to. The
 encoders are script and molBytes of src/mining/ckb-merkle.js.
 */
module CellbaseWitness {
  import opened Wrappers
  import opened Molecule

  datatype HashType = Data | Type | Data1 | Data2

  datatype Script = Script(codeHash: Bytes, hashType: HashType, args: Bytes)

  datatype Witness = Witness(lock: Script, message: Bytes)

  function HashTypeByte(h: HashType): Byte {
    match h
    case Data => 0
    case Type => 1
    case Data1 => 2
    case Data2 => 4
  }

  function HashTypeOf(b: Byte): Option<HashType> {
    if b == 0 then Some(Data)
    else if b == 1 then Some(Type)
    else if b == 2 then Some(Data1)
    else if b == 4 then Some(Data2)
    else None
  }

  // ---------- encoding ----------

  function MolBytes(raw: Bytes): Bytes {
    U32le(|raw|) + raw
  }

  function ScriptFields(s: Script): seq<Bytes> {
    [s.codeHash, [HashTypeByte(s.hashType)], MolBytes(s.args)]
  }

  /** script(); byte32 refuses a code hash of any other length. */
  function EncodeScript(s: Script): Result<Bytes, Error> {
    if |s.codeHash| != 32 then Err(BadLength) else Ok(Container(ScriptFields(s)))
  }

  // ---------- parsing ----------

  function Slice(buf: Bytes, lo: nat, hi: nat): Bytes
    requires lo <= hi <= |buf|
  {
    buf[lo..hi]
  }

  function ReadBytesField(field: Bytes): Result<Bytes, Error> {
    var len := ReadU32(field, 0);
    if len.Err? then Err(len.error)
    else if 4 + len.value != |field| then Err(BadLength)
    else Ok(field[4..])
  }

  lemma OffsetsOrdered(buf: Bytes)
    requires Offsets(buf).Ok?
    ensures var o := Offsets(buf).value;
      |o| >= 2 && forall j, k | 0 <= j < k < |o| :: o[j] <= o[k] <= |buf|
  {
    OffsetsOk(buf);
  }

  function ParseScript(buf: Bytes): Result<Script, Error> {
    var offs := Offsets(buf);
    if offs.Err? then Err(offs.error)
    else
      var o := offs.value;
      if |o| < 4 then Err(MissingField)
      else
        OffsetsOrdered(buf);
        var codeHash := Slice(buf, o[0], o[1]);
        var ht := Slice(buf, o[1], o[2]);
        if |codeHash| != 32 then Err(BadLength)
        else if |ht| != 1 then Err(BadLength)
        else if HashTypeOf(ht[0]).None? then Err(UnknownHashType)
        else
          var args := ReadBytesField(Slice(buf, o[2], o[3]));
          if args.Err? then Err(args.error)
          else Ok(Script(codeHash, HashTypeOf(ht[0]).value, args.value))
  }

  function ParseWitness(buf: Bytes): Result<Witness, Error> {
    var offs := Offsets(buf);
    if offs.Err? then Err(offs.error)
    else
      var o := offs.value;
      if |o| < 3 then Err(MissingField)
      else
        OffsetsOrdered(buf);
        var lock := ParseScript(Slice(buf, o[0], o[1]));
        if lock.Err? then Err(lock.error)
        else
          var message := ReadBytesField(Slice(buf, o[1], o[2]));
          if message.Err? then Err(message.error) else Ok(Witness(lock.value, message.value))
  }

  // ---------- hexadecimal text ----------

  function HexDigit(c: char): Option<nat> {
    if '0' <= c <= '9' then Some((c - '0') as nat)
    else if 'a' <= c <= 'f' then Some((c - 'a') as nat + 10)
    else if 'A' <= c <= 'F' then Some((c - 'A') as nat + 10)
    else None
  }

  function Digit(n: nat): char
    requires n < 16
  {
    if n < 10 then '0' + n as char else 'a' + (n - 10) as char
  }

  function ToHex(b: Bytes): string {
    if b == [] then "" else [Digit(b[0] as nat / 16), Digit(b[0] as nat % 16)] + ToHex(b[1..])
  }

  function FromHex(s: string): Result<Bytes, Error> {
    if s == "" then Ok([])
    else if |s| == 1 || HexDigit(s[0]).None? || HexDigit(s[1]).None? then Err(BadHex)
    else
      var rest := FromHex(s[2..]);
      if rest.Err? then rest
      else Ok([(HexDigit(s[0]).value * 16 + HexDigit(s[1]).value) as Byte] + rest.value)
  }

  function StripPrefix(s: string): string {
    if |s| >= 2 && s[0] == '0' && s[1] == 'x' then s[2..] else s
  }

  function ParseCellbaseWitness(hex: string): Result<Witness, Error> {
    var bytes := FromHex(StripPrefix(hex));
    if bytes.Err? then Err(bytes.error) else ParseWitness(bytes.value)
  }

  // ---------- what is parsed is what was written ----------

  lemma DigitBack(n: nat)
    requires n < 16
    ensures HexDigit(Digit(n)) == Some(n)
  {
  }

  lemma {:induction false} HexRoundTrip(b: Bytes)
    ensures FromHex(ToHex(b)) == Ok(b)
  {
    if b != [] {
      HexRoundTrip(b[1..]);
      DigitBack(b[0] as nat / 16);
      DigitBack(b[0] as nat % 16);
      assert ToHex(b)[2..] == ToHex(b[1..]);
      assert b == [b[0]] + b[1..];
    }
  }

  lemma BytesField(raw: Bytes)
    requires |raw| < TWO32
    ensures ReadBytesField(MolBytes(raw)) == Ok(raw)
  {
    assert MolBytes(raw)[0..4] == U32le(|raw|);
    ReadSlice(MolBytes(raw), 0, |raw|);
  }

  lemma BytesFieldCanonical(field: Bytes)
    requires ReadBytesField(field).Ok?
    ensures MolBytes(ReadBytesField(field).value) == field
  {
    WordBytes(field, 0);
    assert field == field[0..4] + field[4..];
  }

  /** Field k of a container, found through the offset table. */
  lemma ReadBack(fields: seq<Bytes>, k: nat)
    requires k < |fields| && TotalSize(fields) < TWO32
    ensures Offsets(Container(fields)).Ok? && |Offsets(Container(fields)).value| == |fields| + 1
    ensures var o := Offsets(Container(fields)).value;
      o[k] <= o[k + 1] <= |Container(fields)| && Slice(Container(fields), o[k], o[k + 1]) == fields[k]
  {
    ContainerRoundTrip(fields);
    var o := Offsets(Container(fields)).value;
    FieldAt(Container(fields), o, k, |fields|);
  }

  lemma {:induction false} FieldAt(buf: Bytes, o: seq<nat>, k: nat, n: nat)
    requires Boundaries(buf, o) && n == |Fields(buf, o)| && k < n
    ensures |o| == n + 1 && o[k] <= o[k + 1] <= |buf| && buf[o[k]..o[k + 1]] == Fields(buf, o)[k]
  {
    ConcatFields(buf, o);
    if k < n - 1 {
      ConcatFields(buf, o[..n]);
      FieldAt(buf, o[..n], k, n - 1);
    }
  }

  lemma ScriptSize(s: Script)
    requires |s.codeHash| == 32
    ensures TotalSize(ScriptFields(s)) == 53 + |s.args|
  {
    var fs := ScriptFields(s);
    assert fs[..2][..1] == [fs[0]] && fs[..2][..1][..0] == [];
    assert |Concat(fs[..1])| == 32 && |Concat(fs[..2])| == 33;
  }

  /** The reads parseScript makes, and what they must give for it to return s. */
  ghost predicate ScriptAt(buf: Bytes, o: seq<nat>, s: Script) {
    && |o| >= 4 && o[0] <= o[1] <= o[2] <= o[3] <= |buf|
    && Slice(buf, o[0], o[1]) == s.codeHash && |s.codeHash| == 32
    && Slice(buf, o[1], o[2]) == [HashTypeByte(s.hashType)]
    && ReadBytesField(Slice(buf, o[2], o[3])) == Ok(s.args)
  }

  lemma ParsesAt(buf: Bytes, s: Script)
    requires Offsets(buf).Ok?
    ensures ScriptAt(buf, Offsets(buf).value, s) <==> ParseScript(buf) == Ok(s)
  {
    OffsetsOrdered(buf);
  }

  /** parseScript inverts script() whenever the encoding fits its 32-bit size word. */
  lemma ScriptRoundTrip(s: Script)
    requires |s.codeHash| == 32 && 53 + |s.args| < TWO32
    ensures EncodeScript(s).Ok? && ParseScript(EncodeScript(s).value) == Ok(s)
  {
    var fs := ScriptFields(s);
    ScriptSize(s);
    ReadBack(fs, 0);
    ReadBack(fs, 1);
    ReadBack(fs, 2);
    BytesField(s.args);
    ParsesAt(Container(fs), s);
  }

  lemma ScriptFieldsFound(buf: Bytes, o: seq<nat>, s: Script)
    requires Offsets(buf) == Ok(o) && Boundaries(buf, o) && ScriptAt(buf, o, s)
    ensures |Fields(buf, o)| == |o| - 1 && Fields(buf, o)[..3] == ScriptFields(s)
  {
    ConcatFields(buf, o);
    var fs := Fields(buf, o);
    BytesFieldCanonical(Slice(buf, o[2], o[3]));
    hide Fields, Concat, Starts, Offsets, ReadBytesField, Boundaries;
    FieldAt(buf, o, 0, |o| - 1);
    FieldAt(buf, o, 1, |o| - 1);
    FieldAt(buf, o, 2, |o| - 1);
    assert fs[0] == s.codeHash && fs[1] == [HashTypeByte(s.hashType)] && fs[2] == MolBytes(s.args);
  }

  /** An accepted script re-encodes to the same bytes exactly when the table carries no field beyond the three read. */
  lemma ScriptCanonical(buf: Bytes)
    requires ParseScript(buf).Ok?
    ensures EncodeScript(ParseScript(buf).value).Ok?
    ensures EncodeScript(ParseScript(buf).value).value == buf <==> |Offsets(buf).value| == 4
  {
    var o := Offsets(buf).value;
    var s := ParseScript(buf).value;
    ParsesAt(buf, s);
    ContainerCanonical(buf);
    ScriptFieldsFound(buf, o, s);
    if |o| == 4 {
      assert Fields(buf, o) == Fields(buf, o)[..3];
    } else if Container(ScriptFields(s)) == buf {
      ContainerRoundTrip(ScriptFields(s));
      ConcatFields(buf, o);
    }
  }

  /** The witness of a block that names lock as its reward lock. */
  function EncodeWitness(w: Witness): Result<Bytes, Error> {
    var lock := EncodeScript(w.lock);
    if lock.Err? then lock else Ok(Container([lock.value, MolBytes(w.message)]))
  }

  lemma WitnessSize(a: Bytes, b: Bytes)
    ensures TotalSize([a, b]) == 12 + |a| + |b|
  {
    assert [a, b][..1] == [a] && [a][..0] == [];
    assert |Concat([a])| == |a|;
  }

  lemma WitnessParses(buf: Bytes, w: Witness)
    requires Offsets(buf).Ok? && |Offsets(buf).value| == 3
    requires var o := Offsets(buf).value;
      && o[0] <= o[1] <= o[2] <= |buf|
      && ParseScript(Slice(buf, o[0], o[1])) == Ok(w.lock) && ReadBytesField(Slice(buf, o[1], o[2])) == Ok(w.message)
    ensures ParseWitness(buf) == Ok(w)
  {
  }

  /** parseCellbaseWitness recovers the lock and message of every witness, given as 0x-prefixed hexadecimal text. */
  lemma WitnessRoundTrip(w: Witness)
    requires |w.lock.codeHash| == 32 && 69 + |w.lock.args| + |w.message| < TWO32
    ensures EncodeWitness(w).Ok? && ParseCellbaseWitness("0x" + ToHex(EncodeWitness(w).value)) == Ok(w)
  {
    ScriptSize(w.lock);
    ScriptRoundTrip(w.lock);
    var lock := EncodeScript(w.lock).value;
    var fs := [lock, MolBytes(w.message)];
    WitnessSize(lock, MolBytes(w.message));
    WitnessBytes(w, fs);
    HexRoundTrip(Container(fs));
    assert ("0x" + ToHex(Container(fs)))[2..] == ToHex(Container(fs));
  }

  lemma WitnessBytes(w: Witness, fs: seq<Bytes>)
    requires |fs| == 2 && TotalSize(fs) < TWO32 && |w.message| < TWO32
    requires ParseScript(fs[0]) == Ok(w.lock) && fs[1] == MolBytes(w.message)
    ensures ParseWitness(Container(fs)) == Ok(w)
  {
    hide *;
    ReadBack(fs, 0);
    ReadBack(fs, 1);
    BytesField(w.message);
    WitnessParses(Container(fs), w);
  }
}
