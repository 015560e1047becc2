/** The Resty-DBD-Stream (RDS) byte format: what the driver emits for a result
    set, and a decoder that follows the format's own description. */
module Rds {
  import opened Wrappers

  type Byte = x: int | 0 <= x < 0x100
  type U16 = x: int | 0 <= x < 0x1_0000
  type U64 = x: int | 0 <= x < 0x1_0000_0000_0000_0000

  const VERSION := 3
  const NULL_LENGTH := 0xFFFF_FFFF

  datatype Endian = Little | Big

  /** What is fixed when the driver is built: the byte order of the machine, and
      the table from driver column types to standard ones. */
  datatype Encoding = Encoding(endian: Endian, std: U16 -> U16)

  // --- a result set as the database library delivers it ---

  datatype Header = Header(errcode: U16, error: seq<Byte>, affected: U64, insertId: U64)
  datatype Column = Column(code: U16, name: seq<Byte>)

  /** None is SQL NULL, which differs from the empty string. */
  type Field = Option<seq<Byte>>

  datatype ResultSet = ResultSet(header: Header, columns: seq<Column>, rows: seq<seq<Field>>) {
    /** The library counts columns in 16 bits and every row has one field a column. */
    ghost predicate Valid() {
      && |columns| < 0x1_0000
      && (forall i :: 0 <= i < |rows| ==> |rows[i]| == |columns|)
      && (columns == [] ==> rows == [])
    }
  }

  // --- integers ---

  function Pow256(width: nat): (p: nat)
    ensures p > 0
  {
    if width == 0 then 1 else 256 * Pow256(width - 1)
  }

  function Int(e: Endian, width: nat, n: nat): (bs: seq<Byte>)
    ensures |bs| == width
  {
    if width == 0 then []
    else if e.Little? then [n % 256] + Int(e, width - 1, n / 256)
    else Int(e, width - 1, n / 256) + [n % 256]
  }

  function IntValue(e: Endian, bs: seq<Byte>): (n: nat)
    ensures n < Pow256(|bs|)
  {
    if bs == [] then 0
    else if e.Little? then bs[0] + 256 * IntValue(e, bs[1..])
    else bs[|bs| - 1] + 256 * IntValue(e, bs[..|bs| - 1])
  }

  lemma {:induction false} IntRoundTrip(e: Endian, width: nat, n: nat)
    requires n < Pow256(width)
    ensures IntValue(e, Int(e, width, n)) == n
  {
    if width > 0 {
      IntRoundTrip(e, width - 1, n / 256);
      var bs := Int(e, width, n);
      if e.Little? {
        assert bs[1..] == Int(e, width - 1, n / 256);
      } else {
        assert bs[..|bs| - 1] == Int(e, width - 1, n / 256);
      }
    }
  }

  // --- encoding: one function for each indivisible unit of output (atom) ---

  function U8(n: Byte): seq<Byte> { [n] }
  function Fixed16(e: Endian, n: nat): (bs: seq<Byte>) ensures |bs| == 2 { Int(e, 2, n % 0x1_0000) }
  function Fixed32(e: Endian, n: nat): (bs: seq<Byte>) ensures |bs| == 4 { Int(e, 4, n % 0x1_0000_0000) }
  function Fixed64(e: Endian, n: U64): (bs: seq<Byte>) ensures |bs| == 8 { Int(e, 8, n) }

  function EndianByte(e: Endian): Byte { if e.Big? then 1 else 0 }

  /** A C string whose length was cast to 16 bits: only that many bytes are copied. */
  function Clip16(s: seq<Byte>): (t: seq<Byte>) { s[..|s| % 0x1_0000] }

  /** Byte order, format version and result type. */
  function PrologueBytes(e: Endian): seq<Byte> {
    U8(EndianByte(e)) + Fixed32(e, VERSION) + U8(0)
  }

  /** Standard and driver's error code, error text. */
  function StatusBytes(e: Endian, h: Header): seq<Byte> {
    Fixed16(e, h.errcode) + Fixed16(e, h.errcode) + Fixed16(e, |h.error|) + Clip16(h.error)
  }

  /** Affected rows, insert id and column count. */
  function CountsBytes(e: Endian, h: Header, columnCount: nat): seq<Byte> {
    Fixed64(e, h.affected) + Fixed64(e, h.insertId) + Fixed16(e, columnCount)
  }

  function HeaderAtom(enc: Encoding, h: Header, columnCount: nat): seq<Byte> {
    PrologueBytes(enc.endian) + StatusBytes(enc.endian, h) + CountsBytes(enc.endian, h, columnCount)
  }

  function ColumnAtom(enc: Encoding, c: Column): seq<Byte> {
    var e := enc.endian;
    Fixed16(e, enc.std(c.code)) + Fixed16(e, c.code) + Fixed16(e, |c.name|) + Clip16(c.name)
  }

  function FieldLength(e: Endian, f: Field): seq<Byte> {
    Fixed32(e, match f case None => NULL_LENGTH case Some(data) => |data|)
  }

  function FieldBytes(e: Endian, f: Field): seq<Byte> {
    FieldLength(e, f) + (if f.Some? then f.value else [])
  }

  // --- encoding: whole results ---

  function Columns(enc: Encoding, cs: seq<Column>): seq<Byte> {
    if cs == [] then [] else ColumnAtom(enc, cs[0]) + Columns(enc, cs[1..])
  }

  function Fields(e: Endian, fs: seq<Field>): seq<Byte> {
    if fs == [] then [] else FieldBytes(e, fs[0]) + Fields(e, fs[1..])
  }

  function Row(e: Endian, fs: seq<Field>): seq<Byte> { U8(1) + Fields(e, fs) }

  function Rows(e: Endian, rows: seq<seq<Field>>): seq<Byte> {
    if rows == [] then [] else Row(e, rows[0]) + Rows(e, rows[1..])
  }

  /** The response body of a result set. A result without columns is its header. */
  function Encode(enc: Encoding, res: ResultSet): seq<Byte> {
    HeaderAtom(enc, res.header, |res.columns|)
    + if res.columns == [] then []
      else Columns(enc, res.columns) + Rows(enc.endian, res.rows) + U8(0)
  }

  // --- splitting anywhere, which is how a stream grows ---

  lemma {:induction false} ColumnsConcat(enc: Encoding, a: seq<Column>, b: seq<Column>)
    ensures Columns(enc, a + b) == Columns(enc, a) + Columns(enc, b)
  {
    if a == [] {
      assert a + b == b;
    } else {
      assert (a + b)[1..] == a[1..] + b;
      ColumnsConcat(enc, a[1..], b);
    }
  }

  lemma {:induction false} FieldsConcat(e: Endian, a: seq<Field>, b: seq<Field>)
    ensures Fields(e, a + b) == Fields(e, a) + Fields(e, b)
  {
    if a == [] {
      assert a + b == b;
    } else {
      assert (a + b)[1..] == a[1..] + b;
      FieldsConcat(e, a[1..], b);
    }
  }

  lemma {:induction false} RowsConcat(e: Endian, a: seq<seq<Field>>, b: seq<seq<Field>>)
    ensures Rows(e, a + b) == Rows(e, a) + Rows(e, b)
  {
    if a == [] {
      assert a + b == b;
    } else {
      assert (a + b)[1..] == a[1..] + b;
      RowsConcat(e, a[1..], b);
    }
  }

  /** Single entries, unfolded. */
  lemma Singles(enc: Encoding, c: Column, f: Field, row: seq<Field>)
    ensures Columns(enc, [c]) == ColumnAtom(enc, c)
    ensures Fields(enc.endian, [f]) == FieldBytes(enc.endian, f)
    ensures Rows(enc.endian, [row]) == Row(enc.endian, row)
  {
    hide ColumnAtom, FieldBytes, Row;
    assert [c][1..] == [] && [f][1..] == [] && [row][1..] == [];
  }

  // --- decoding, from the format's description ---

  datatype WireColumn = WireColumn(std: U16, code: U16, name: seq<Byte>)
  datatype Table = Table(version: nat, kind: nat, stdError: nat, header: Header,
                         columns: seq<WireColumn>, rows: seq<seq<Field>>)

  /** A value and the bytes after it. */
  datatype Parsed<+T> = Bad | Got(value: T, rest: seq<Byte>) {
    predicate IsFailure() { Bad? }
    function PropagateFailure<U>(): Parsed<U> requires Bad? { Bad }
    function Extract(): (T, seq<Byte>) requires Got? { (value, rest) }
  }

  function Take(n: nat, s: seq<Byte>): Parsed<seq<Byte>> {
    if n <= |s| then Got(s[..n], s[n..]) else Bad
  }

  function TakeInt(e: Endian, width: nat, s: seq<Byte>): (p: Parsed<nat>)
    ensures p.Got? ==> p.value < Pow256(width) && |p.rest| == |s| - width
  {
    var (bs, rest) :- Take(width, s);
    Got(IntValue(e, bs), rest)
  }

  function TakeU16(e: Endian, s: seq<Byte>): (p: Parsed<U16>)
    ensures p.Got? ==> |p.rest| == |s| - 2
  {
    var (n, rest) :- TakeInt(e, 2, s);
    assert Pow256(2) == 0x1_0000;
    Got(n, rest)
  }

  function TakeU64(e: Endian, s: seq<Byte>): (p: Parsed<U64>) {
    var (n, rest) :- TakeInt(e, 8, s);
    assert Pow256(8) == 0x1_0000_0000_0000_0000 by { assert Pow256(4) == 0x1_0000_0000; }
    Got(n, rest)
  }

  /** A 16-bit length and that many bytes. */
  function TakeText(e: Endian, s: seq<Byte>): Parsed<seq<Byte>> {
    var (n, rest) :- TakeU16(e, s);
    Take(n, rest)
  }

  datatype Preamble = Preamble(endian: Endian, version: nat, kind: Byte, stdError: U16,
                               header: Header, columnCount: U16)

  /** Byte order, format version and result type. */
  function TakePrologue(s: seq<Byte>): Parsed<(Endian, nat, Byte)> {
    var (b, s1) :- Take(1, s);
    var e := if b[0] == 1 then Big else Little;
    var (version, s2) :- TakeInt(e, 4, s1);
    var (kind, rest) :- Take(1, s2);
    Got((e, version, kind[0]), rest)
  }

  /** The two error codes and the error text. */
  function TakeStatus(e: Endian, s: seq<Byte>): Parsed<(U16, U16, seq<Byte>)> {
    var (stdError, s1) :- TakeU16(e, s);
    var (errcode, s2) :- TakeU16(e, s1);
    var (error, rest) :- TakeText(e, s2);
    Got((stdError, errcode, error), rest)
  }

  /** Affected rows, insert id and column count. */
  function TakeCounts(e: Endian, s: seq<Byte>): Parsed<(U64, U64, U16)> {
    var (affected, s1) :- TakeU64(e, s);
    var (insertId, s2) :- TakeU64(e, s1);
    var (count, rest) :- TakeU16(e, s2);
    Got((affected, insertId, count), rest)
  }

  function TakePreamble(s: seq<Byte>): Parsed<Preamble> {
    var ((e, version, kind), s1) :- TakePrologue(s);
    var ((stdError, errcode, error), s2) :- TakeStatus(e, s1);
    var ((affected, insertId, count), rest) :- TakeCounts(e, s2);
    Got(Preamble(e, version, kind, stdError, Header(errcode, error, affected, insertId), count), rest)
  }

  function TakeColumn(e: Endian, s: seq<Byte>): Parsed<WireColumn> {
    var (std, s1) :- TakeU16(e, s);
    var (code, s2) :- TakeU16(e, s1);
    var (name, rest) :- TakeText(e, s2);
    Got(WireColumn(std, code, name), rest)
  }

  function TakeColumns(e: Endian, n: nat, s: seq<Byte>): Parsed<seq<WireColumn>> {
    if n == 0 then Got([], s)
    else
      var (c, s1) :- TakeColumn(e, s);
      var (cs, rest) :- TakeColumns(e, n - 1, s1);
      Got([c] + cs, rest)
  }

  function TakeField(e: Endian, s: seq<Byte>): (p: Parsed<Field>)
    ensures p.Got? ==> |p.rest| < |s|
  {
    var (n, s1) :- TakeInt(e, 4, s);
    if n == NULL_LENGTH then Got(None, s1)
    else
      var (data, rest) :- Take(n, s1);
      Got(Some(data), rest)
  }

  function TakeFields(e: Endian, n: nat, s: seq<Byte>): (p: Parsed<seq<Field>>)
    ensures p.Got? ==> |p.rest| <= |s|
  {
    if n == 0 then Got([], s)
    else
      var (f, s1) :- TakeField(e, s);
      var (fs, rest) :- TakeFields(e, n - 1, s1);
      Got([f] + fs, rest)
  }

  /** Rows up to and including the zero byte that ends the list. */
  function TakeRows(e: Endian, width: nat, s: seq<Byte>): Parsed<seq<seq<Field>>>
    decreases |s|
  {
    var (flag, s1) :- Take(1, s);
    if flag[0] == 0 then Got([], s1)
    else
      var (fs, s2) :- TakeFields(e, width, s1);
      var (rows, rest) :- TakeRows(e, width, s2);
      Got([fs] + rows, rest)
  }

  /** A table and the bytes after it. */
  function TakeTable(s: seq<Byte>): Parsed<Table> {
    var (p, s1) :- TakePreamble(s);
    if p.columnCount == 0 then
      Got(Table(p.version, p.kind, p.stdError, p.header, [], []), s1)
    else
      var (cs, s2) :- TakeColumns(p.endian, p.columnCount, s1);
      var (rows, rest) :- TakeRows(p.endian, p.columnCount, s2);
      Got(Table(p.version, p.kind, p.stdError, p.header, cs, rows), rest)
  }

  function Decode(s: seq<Byte>): Option<Table> {
    match TakeTable(s)
    case Got(t, rest) => if rest == [] then Some(t) else None
    case Bad => None
  }

  // --- the round trip ---

  function WireColumns(enc: Encoding, cs: seq<Column>): (ws: seq<WireColumn>)
    ensures |ws| == |cs|
  {
    if cs == [] then []
    else [WireColumn(enc.std(cs[0].code), cs[0].code, cs[0].name)] + WireColumns(enc, cs[1..])
  }

  /** What a reader of the format is meant to see of a result. */
  function Wire(enc: Encoding, res: ResultSet): Table {
    Table(VERSION, 0, res.header.errcode, res.header, WireColumns(enc, res.columns), res.rows)
  }

  predicate TextFits(s: seq<Byte>) { |s| < 0x1_0000 }
  predicate FieldFits(f: Field) { f.Some? ==> |f.value| < NULL_LENGTH }
  predicate FieldsFit(fs: seq<Field>) { forall j :: 0 <= j < |fs| ==> FieldFits(fs[j]) }

  /** The lengths that the format can carry. */
  predicate WithinLimits(res: ResultSet) {
    && TextFits(res.header.error)
    && (forall i :: 0 <= i < |res.columns| ==> TextFits(res.columns[i].name))
    && (forall i :: 0 <= i < |res.rows| ==> FieldsFit(res.rows[i]))
  }

  lemma TakeIntOfInt(e: Endian, width: nat, n: nat, tail: seq<Byte>)
    requires n < Pow256(width)
    ensures TakeInt(e, width, Int(e, width, n) + tail) == Got(n, tail)
  {
    var s := Int(e, width, n) + tail;
    assert s[..width] == Int(e, width, n) && s[width..] == tail;
    IntRoundTrip(e, width, n);
  }

  lemma TakeFixed(e: Endian, n: nat, tail: seq<Byte>)
    ensures TakeU16(e, Fixed16(e, n) + tail) == Got(n % 0x1_0000, tail)
    ensures TakeInt(e, 4, Fixed32(e, n) + tail) == Got(n % 0x1_0000_0000, tail)
  {
    assert Pow256(2) == 0x1_0000 && Pow256(4) == 0x1_0000_0000;
    TakeIntOfInt(e, 2, n % 0x1_0000, tail);
    TakeIntOfInt(e, 4, n % 0x1_0000_0000, tail);
  }

  lemma TakeFixed64(e: Endian, n: U64, tail: seq<Byte>)
    ensures TakeU64(e, Fixed64(e, n) + tail) == Got(n, tail)
  {
    assert Pow256(4) == 0x1_0000_0000;
    assert Pow256(8) == 0x1_0000_0000_0000_0000;
    TakeIntOfInt(e, 8, n, tail);
  }

  lemma TakePrefix(s: seq<Byte>, tail: seq<Byte>)
    ensures Take(|s|, s + tail) == Got(s, tail)
  {
    assert (s + tail)[..|s|] == s && (s + tail)[|s|..] == tail;
  }

  lemma TakeClipped(e: Endian, s: seq<Byte>, tail: seq<Byte>)
    ensures TakeText(e, Fixed16(e, |s|) + (Clip16(s) + tail)) == Got(Clip16(s), tail)
    ensures Clip16(s) == s <==> TextFits(s)
  {
    TakeFixed(e, |s|, Clip16(s) + tail);
    TakePrefix(Clip16(s), tail);
  }

  lemma PrologueRoundTrip(e: Endian, tail: seq<Byte>)
    ensures TakePrologue(PrologueBytes(e) + tail) == Got((e, VERSION, 0), tail)
  {
    hide Int, IntValue, Pow256;
    var s2 := U8(0) + tail;
    var s1 := Fixed32(e, VERSION) + s2;
    assert PrologueBytes(e) + tail == U8(EndianByte(e)) + s1;
    TakePrefix(U8(EndianByte(e)), s1);
    TakeFixed(e, VERSION, s2);
    TakePrefix(U8(0), tail);
  }

  lemma StatusRoundTrip(e: Endian, h: Header, tail: seq<Byte>)
    ensures TakeStatus(e, StatusBytes(e, h) + tail) == Got((h.errcode, h.errcode, Clip16(h.error)), tail)
    ensures TakeStatus(e, StatusBytes(e, h) + tail) == Got((h.errcode, h.errcode, h.error), tail) <==> TextFits(h.error)
  {
    hide Int, IntValue, Pow256;
    var s2 := Fixed16(e, |h.error|) + (Clip16(h.error) + tail);
    var s1 := Fixed16(e, h.errcode) + s2;
    assert StatusBytes(e, h) + tail == Fixed16(e, h.errcode) + s1;
    TakeFixed(e, h.errcode, s1);
    TakeFixed(e, h.errcode, s2);
    TakeClipped(e, h.error, tail);
  }

  lemma CountsRoundTrip(e: Endian, h: Header, count: U16, tail: seq<Byte>)
    ensures TakeCounts(e, CountsBytes(e, h, count) + tail) == Got((h.affected, h.insertId, count), tail)
  {
    hide Int, IntValue, Pow256;
    var s2 := Fixed16(e, count) + tail;
    var s1 := Fixed64(e, h.insertId) + s2;
    assert CountsBytes(e, h, count) + tail == Fixed64(e, h.affected) + s1;
    TakeFixed64(e, h.affected, s1);
    TakeFixed64(e, h.insertId, s2);
    TakeFixed(e, count, tail);
  }

  lemma PreambleRoundTrip(enc: Encoding, h: Header, count: U16, tail: seq<Byte>)
    ensures TakePreamble(HeaderAtom(enc, h, count) + tail)
         == Got(Preamble(enc.endian, VERSION, 0, h.errcode, h.(error := Clip16(h.error)), count), tail)
  {
    hide PrologueBytes, StatusBytes, CountsBytes;
    var e := enc.endian;
    var s2 := CountsBytes(e, h, count) + tail;
    var s1 := StatusBytes(e, h) + s2;
    assert HeaderAtom(enc, h, count) + tail == PrologueBytes(e) + s1;
    PrologueRoundTrip(e, s1);
    StatusRoundTrip(e, h, s2);
    CountsRoundTrip(e, h, count, tail);
  }

  lemma ColumnRoundTrip(enc: Encoding, c: Column, tail: seq<Byte>)
    ensures TakeColumn(enc.endian, ColumnAtom(enc, c) + tail)
         == Got(WireColumn(enc.std(c.code), c.code, Clip16(c.name)), tail)
    ensures TakeColumn(enc.endian, ColumnAtom(enc, c) + tail) == Got(WireColumn(enc.std(c.code), c.code, c.name), tail)
            <==> TextFits(c.name)
  {
    hide Int, IntValue, Pow256;
    var e := enc.endian;
    var s2 := Fixed16(e, |c.name|) + (Clip16(c.name) + tail);
    var s1 := Fixed16(e, c.code) + s2;
    assert ColumnAtom(enc, c) + tail == Fixed16(e, enc.std(c.code)) + s1;
    TakeFixed(e, enc.std(c.code), s1);
    TakeFixed(e, c.code, s2);
    TakeClipped(e, c.name, tail);
  }

  lemma {:induction false} ColumnsRoundTrip(enc: Encoding, cs: seq<Column>, tail: seq<Byte>)
    ensures var p := TakeColumns(enc.endian, |cs|, Columns(enc, cs) + tail);
            && p.Got? && p.rest == tail
            && (p.value == WireColumns(enc, cs) <==> forall i :: 0 <= i < |cs| ==> TextFits(cs[i].name))
  {
    hide Int, IntValue, TakeColumn, ColumnAtom;
    if cs == [] {
      assert Columns(enc, cs) + tail == tail;
    } else {
      var e, c := enc.endian, cs[0];
      var s1 := Columns(enc, cs[1..]) + tail;
      assert Columns(enc, cs) + tail == ColumnAtom(enc, c) + s1;
      ColumnRoundTrip(enc, c, s1);
      TakeClipped(e, c.name, []);
      ColumnsRoundTrip(enc, cs[1..], tail);
      var w := WireColumn(enc.std(c.code), c.code, Clip16(c.name));
      var p := TakeColumns(e, |cs| - 1, s1);
      var q := TakeColumns(e, |cs|, Columns(enc, cs) + tail);
      assert q == Got([w] + p.value, tail);
      assert q.value[0] == w && q.value[1..] == p.value;
      assert WireColumns(enc, cs)[1..] == WireColumns(enc, cs[1..]);
      assert forall i :: 1 <= i < |cs| ==> cs[i] == cs[1..][i - 1];
    }
  }


  lemma FieldRoundTrip(e: Endian, f: Field, tail: seq<Byte>)
    ensures FieldFits(f) ==> TakeField(e, FieldBytes(e, f) + tail) == Got(f, tail)
    ensures var p := TakeField(e, FieldBytes(e, f) + tail); p.Got? && p.value == f ==> FieldFits(f)
  {
    hide Int, IntValue, Pow256;
    var data := if f.Some? then f.value else [];
    var n := if f.Some? then |f.value| else NULL_LENGTH;
    assert FieldBytes(e, f) + tail == Fixed32(e, n) + (data + tail);
    TakeFixed(e, n, data + tail);
    TakePrefix(data, tail);
  }

  lemma {:induction false} FieldsRoundTrip(e: Endian, fs: seq<Field>, tail: seq<Byte>)
    ensures FieldsFit(fs) ==> TakeFields(e, |fs|, Fields(e, fs) + tail) == Got(fs, tail)
    ensures var p := TakeFields(e, |fs|, Fields(e, fs) + tail); p.Got? && p.value == fs ==> FieldsFit(fs)
  {
    hide Int, IntValue, FieldBytes, TakeField;
    if fs == [] {
      assert Fields(e, fs) + tail == tail;
    } else {
      var s1 := Fields(e, fs[1..]) + tail;
      assert Fields(e, fs) + tail == FieldBytes(e, fs[0]) + s1;
      FieldRoundTrip(e, fs[0], s1);
      FieldsRoundTrip(e, fs[1..], tail);
      assert fs == [fs[0]] + fs[1..];
      assert forall j :: 1 <= j < |fs| ==> fs[j] == fs[1..][j - 1];
      var p := TakeFields(e, |fs|, Fields(e, fs) + tail);
      if p.Got? && p.value == fs {
        assert p.value[1..] == fs[1..];
      }
    }
  }

  lemma {:induction false} RowsRoundTrip(e: Endian, width: nat, rows: seq<seq<Field>>, tail: seq<Byte>)
    requires forall i :: 0 <= i < |rows| ==> |rows[i]| == width
    ensures (forall i :: 0 <= i < |rows| ==> FieldsFit(rows[i])) ==>
              TakeRows(e, width, Rows(e, rows) + (U8(0) + tail)) == Got(rows, tail)
    ensures var p := TakeRows(e, width, Rows(e, rows) + (U8(0) + tail));
            p.Got? && p.value == rows ==> forall i :: 0 <= i < |rows| ==> FieldsFit(rows[i])
  {
    hide Int, IntValue, TakeFields, Fields;
    var end := U8(0) + tail;
    if rows == [] {
      assert Rows(e, rows) + end == end;
      TakePrefix(U8(0), tail);
    } else {
      var s2 := Rows(e, rows[1..]) + end;
      var s1 := Fields(e, rows[0]) + s2;
      assert Rows(e, rows) + end == U8(1) + s1;
      TakePrefix(U8(1), s1);
      FieldsRoundTrip(e, rows[0], s2);
      RowsRoundTrip(e, width, rows[1..], tail);
      assert rows == [rows[0]] + rows[1..];
      assert forall i :: 1 <= i < |rows| ==> rows[i] == rows[1..][i - 1];
      var p := TakeRows(e, width, Rows(e, rows) + end);
      if p.Got? && p.value == rows {
        assert p.value[1..] == rows[1..];
      }
    }
  }

  /** The format delimits itself: whatever follows a result is left untouched. */
  lemma TableRoundTrip(enc: Encoding, res: ResultSet, tail: seq<Byte>)
    requires res.Valid()
    ensures WithinLimits(res) ==> TakeTable(Encode(enc, res) + tail) == Got(Wire(enc, res), tail)
    ensures var p := TakeTable(Encode(enc, res) + tail); p.Got? && p.value == Wire(enc, res) ==> WithinLimits(res)
  {
    hide Int, IntValue, TakeFields, TakePreamble;
    var e, cs, count := enc.endian, res.columns, |res.columns|;
    var end := U8(0) + tail;
    var s2 := Rows(e, res.rows) + end;
    var s1 := if cs == [] then tail else Columns(enc, cs) + s2;
    assert Encode(enc, res) + tail == HeaderAtom(enc, res.header, count) + s1;
    PreambleRoundTrip(enc, res.header, count, s1);
    TakeClipped(e, res.header.error, []);
    ColumnsRoundTrip(enc, cs, s2);
    RowsRoundTrip(e, count, res.rows, tail);
  }

  /** Decoding recovers a result exactly when its lengths fit the format. */
  lemma RoundTrip(enc: Encoding, res: ResultSet)
    requires res.Valid()
    ensures Decode(Encode(enc, res)) == Some(Wire(enc, res)) <==> WithinLimits(res)
  {
    TableRoundTrip(enc, res, []);
    assert Encode(enc, res) + [] == Encode(enc, res);
  }

  /** Two results that fit are told apart by their bytes, even with more bytes behind. */
  lemma EncodingIsInjective(enc: Encoding, a: ResultSet, b: ResultSet, x: seq<Byte>, y: seq<Byte>)
    requires a.Valid() && b.Valid() && WithinLimits(a) && WithinLimits(b)
    requires Encode(enc, a) + x == Encode(enc, b) + y
    ensures a == b && x == y
  {
    TableRoundTrip(enc, a, x);
    TableRoundTrip(enc, b, y);
    WireColumnsInjective(enc, a.columns, b.columns);
  }

  lemma {:induction false} WireColumnsInjective(enc: Encoding, a: seq<Column>, b: seq<Column>)
    requires WireColumns(enc, a) == WireColumns(enc, b)
    ensures a == b
  {
    if a == [] || b == [] {
      assert |WireColumns(enc, a)| == |WireColumns(enc, b)|;
    } else {
      var wa, wb := WireColumns(enc, a), WireColumns(enc, b);
      assert wa[0] == wb[0];
      assert wa[1..] == WireColumns(enc, a[1..]) && wb[1..] == WireColumns(enc, b[1..]);
      WireColumnsInjective(enc, a[1..], b[1..]);
      assert a == [a[0]] + a[1..] && b == [b[0]] + b[1..];
    }
  }

  /** The first length that does not fit: a field of 2^32-1 bytes is read back as NULL. */
  lemma FullLengthFieldReadsAsNull(e: Endian, data: seq<Byte>)
    requires |data| == NULL_LENGTH
    ensures TakeField(e, FieldBytes(e, Some(data))) == Got(None, data)
  {
    assert FieldBytes(e, Some(data)) == Fixed32(e, NULL_LENGTH) + data;
    TakeFixed(e, NULL_LENGTH, data);
  }
}
