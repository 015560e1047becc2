/** The database library as the driver sees it: a result set that arrives piece
    by piece, with waits anywhere and fields cut into chunks at will. */
module Database {
  import opened Wrappers
  import opened Rds
  import opened Buffers
  import opened Output

  /** How far the library has got in handing over a result. `offset` counts the
      bytes of the current field already handed over. */
  datatype Position =
    | AtHeader
    | AtColumn(column: nat)
    | AtRow(row: nat)
    | InRow(row: nat, field: nat, offset: nat)
    | AtEnd

  ghost predicate ValidPosition(res: ResultSet, pos: Position) {
    match pos
    case AtHeader => true
    case AtColumn(k) => res.columns != [] && k <= |res.columns|
    case AtRow(i) => res.columns != [] && i <= |res.rows|
    case InRow(i, j, offset) =>
      && res.columns != [] && i < |res.rows| && j <= |res.rows[i]|
      && (offset > 0 ==> j < |res.rows[i]| && res.rows[i][j].Some? && offset < |res.rows[i][j].value|)
    case AtEnd => true
  }

  function PartialField(e: Endian, f: Field, offset: nat): seq<Byte>
    requires offset > 0 ==> f.Some? && offset <= |f.value|
  {
    if offset == 0 then [] else FieldLength(e, f) + f.value[..offset]
  }

  /** The encoding of what has been handed over so far. */
  function Prefix(enc: Encoding, res: ResultSet, pos: Position): seq<Byte>
    requires ValidPosition(res, pos)
  {
    var head := HeaderAtom(enc, res.header, |res.columns|);
    match pos
    case AtHeader => []
    case AtColumn(k) => head + Columns(enc, res.columns[..k])
    case AtRow(i) => head + Columns(enc, res.columns) + Rows(enc.endian, res.rows[..i])
    case InRow(i, j, offset) =>
      head + Columns(enc, res.columns) + Rows(enc.endian, res.rows[..i])
      + U8(1) + Fields(enc.endian, res.rows[i][..j])
      + (if offset == 0 then [] else PartialField(enc.endian, res.rows[i][j], offset))
    case AtEnd => Encode(enc, res)
  }

  // --- every step of the hand-over appends one atom ---

  lemma HeaderStep(enc: Encoding, res: ResultSet)
    requires res.Valid()
    ensures Prefix(enc, res, if res.columns == [] then AtEnd else AtColumn(0))
         == Prefix(enc, res, AtHeader) + HeaderAtom(enc, res.header, |res.columns|)
  {
  }

  lemma ColumnStep(enc: Encoding, res: ResultSet, k: nat)
    requires k < |res.columns|
    ensures Prefix(enc, res, AtColumn(k + 1)) == Prefix(enc, res, AtColumn(k)) + ColumnAtom(enc, res.columns[k])
  {
    hide ColumnAtom, HeaderAtom, Columns;
    assert res.columns[..k + 1] == res.columns[..k] + [res.columns[k]];
    ColumnsConcat(enc, res.columns[..k], [res.columns[k]]);
    Singles(enc, res.columns[k], None, []);
  }

  lemma ColumnsDone(enc: Encoding, res: ResultSet)
    requires res.columns != []
    ensures Prefix(enc, res, AtRow(0)) == Prefix(enc, res, AtColumn(|res.columns|))
  {
    assert res.columns[..|res.columns|] == res.columns;
  }

  lemma RowStep(enc: Encoding, res: ResultSet, i: nat)
    requires res.columns != [] && i <= |res.rows|
    ensures i < |res.rows| ==> Prefix(enc, res, InRow(i, 0, 0)) == Prefix(enc, res, AtRow(i)) + U8(1)
    ensures i == |res.rows| ==> Prefix(enc, res, AtEnd) == Prefix(enc, res, AtRow(i)) + U8(0)
  {
    if i == |res.rows| {
      assert res.rows[..i] == res.rows;
    }
  }

  lemma RowDone(enc: Encoding, res: ResultSet, i: nat)
    requires res.columns != [] && i < |res.rows|
    ensures Prefix(enc, res, AtRow(i + 1)) == Prefix(enc, res, InRow(i, |res.rows[i]|, 0))
  {
    hide HeaderAtom, Columns, Fields, Rows;
    assert res.rows[..i + 1] == res.rows[..i] + [res.rows[i]];
    RowsConcat(enc.endian, res.rows[..i], [res.rows[i]]);
    Singles(enc, Column(0, []), None, res.rows[i]);
    assert res.rows[i][..|res.rows[i]|] == res.rows[i];
  }

  /** The chunk of a field that starts at `offset` and holds `len` bytes. */
  function ChunkOf(f: Field, offset: nat, len: nat): (c: Chunk)
    requires f.Some? ==> offset + len <= |f.value|
    requires f.None? ==> offset == len == 0
    ensures c.Valid()
  {
    if f.None? then Chunk(0, 0, 0, None)
    else Chunk(offset, len, |f.value|, Some(f.value[offset..offset + len]))
  }

  /** Where the library is after that chunk. */
  function AfterChunk(f: Field, i: nat, j: nat, end: nat): Position {
    if f.None? || end == |f.value| then InRow(i, j + 1, 0) else InRow(i, j, end)
  }

  lemma ChunkStep(enc: Encoding, res: ResultSet, i: nat, j: nat, offset: nat, len: nat)
    requires ValidPosition(res, InRow(i, j, offset)) && j < |res.rows[i]|
    requires len < 0x1_0000_0000
    requires var f := res.rows[i][j]; if f.Some? then offset + len <= |f.value| else offset == len == 0
    ensures var f := res.rows[i][j];
            var c, next := ChunkOf(f, offset, len), AfterChunk(f, i, j, offset + len);
            && ValidPosition(res, next)
            && Prefix(enc, res, next)
               == Prefix(enc, res, InRow(i, j, offset)) + if c.Stalled() then [] else ChunkAtom(enc.endian, c)
  {
    hide Prefix, FieldBytes, PartialField, ChunkAtom;
    var e, f := enc.endian, res.rows[i][j];
    FieldStep(enc, res, i, j);
    ChunkCompletes(e, f, offset, len);
    AtOffset(enc, res, i, j, offset);
    if AfterChunk(f, i, j, offset + len) == InRow(i, j, offset + len) {
      AtOffset(enc, res, i, j, offset + len);
    }
  }

  lemma AtOffset(enc: Encoding, res: ResultSet, i: nat, j: nat, offset: nat)
    requires ValidPosition(res, InRow(i, j, offset)) && j < |res.rows[i]|
    ensures Prefix(enc, res, InRow(i, j, offset))
         == Prefix(enc, res, InRow(i, j, 0)) + PartialField(enc.endian, res.rows[i][j], offset)
  {
    hide HeaderAtom, Columns, Rows, Fields, FieldLength;
  }

  /** A chunk takes the field from one partial form to the next, or to its end. */
  lemma ChunkCompletes(e: Endian, f: Field, offset: nat, len: nat)
    requires offset > 0 ==> f.Some? && offset < |f.value|
    requires if f.Some? then offset + len <= |f.value| else offset == len == 0
    requires len < 0x1_0000_0000
    ensures var c, end := ChunkOf(f, offset, len), offset + len;
            (if f.None? || end == |f.value| then FieldBytes(e, f) else PartialField(e, f, end))
            == PartialField(e, f, offset) + if c.Stalled() then [] else ChunkAtom(e, c)
  {
    hide ChunkAtom, FieldLength;
    AtomOfChunk(e, f, offset, len);
    if f.Some? {
      assert f.value[..offset] + f.value[offset..offset + len] == f.value[..offset + len];
      assert f.value[..|f.value|] == f.value;
      if offset == 0 {
        assert f.value[0..len] == f.value[..len];
      } else {
        PartialGrows(e, f, offset, len);
      }
    }
  }

  lemma PartialGrows(e: Endian, f: Field, offset: nat, len: nat)
    requires offset > 0 && f.Some? && offset + len <= |f.value|
    ensures PartialField(e, f, offset + len) == PartialField(e, f, offset) + f.value[offset..offset + len]
    ensures offset + len == |f.value| ==> PartialField(e, f, offset + len) == FieldBytes(e, f)
  {
    hide FieldLength;
    assert f.value[..offset] + f.value[offset..offset + len] == f.value[..offset + len];
    assert f.value[..|f.value|] == f.value;
  }

  /** The length goes with the first chunk, and every chunk brings its own bytes. */
  lemma AtomOfChunk(e: Endian, f: Field, offset: nat, len: nat)
    requires f.Some? ==> offset + len <= |f.value|
    requires f.None? ==> offset == len == 0
    requires len < 0x1_0000_0000
    ensures ChunkAtom(e, ChunkOf(f, offset, len))
         == (if offset == 0 then FieldLength(e, f) else []) + if f.Some? then f.value[offset..offset + len] else []
  {
    hide Fixed32;
    var c := ChunkOf(f, offset, len);
    assert f.Some? ==> c.data.value[..len] == c.data.value;
  }

  lemma FieldStep(enc: Encoding, res: ResultSet, i: nat, j: nat)
    requires res.columns != [] && i < |res.rows| && j < |res.rows[i]|
    ensures Prefix(enc, res, InRow(i, j + 1, 0))
         == Prefix(enc, res, InRow(i, j, 0)) + FieldBytes(enc.endian, res.rows[i][j])
  {
    hide FieldBytes, HeaderAtom, Columns, Rows, Fields;
    var fs, f := res.rows[i][..j], res.rows[i][j];
    assert res.rows[i][..j + 1] == fs + [f];
    FieldsConcat(enc.endian, fs, [f]);
    Singles(enc, Column(0, []), f, []);
  }

  // --- the units that the format does not let be divided ---

  /** The piece of a field that is sent at once; the length goes with the first. */
  ghost predicate PieceOf(e: Endian, f: Field, a: seq<Byte>) {
    exists offset: nat, len: nat ::
      && (if f.Some? then offset + len <= |f.value| else offset == len == 0)
      && a == ChunkAtom(e, ChunkOf(f, offset, len))
  }

  ghost predicate IsAtom(enc: Encoding, res: ResultSet, a: seq<Byte>) {
    || a == HeaderAtom(enc, res.header, |res.columns|)
    || (exists k :: 0 <= k < |res.columns| && a == ColumnAtom(enc, res.columns[k]))
    || a == U8(0) || a == U8(1)
    || exists i, j :: 0 <= i < |res.rows| && 0 <= j < |res.rows[i]| && PieceOf(enc.endian, res.rows[i][j], a)
  }

  lemma HeaderIsAtom(enc: Encoding, res: ResultSet)
    ensures IsAtom(enc, res, HeaderAtom(enc, res.header, |res.columns|))
  {
  }

  lemma FlagIsAtom(enc: Encoding, res: ResultSet, flag: Byte)
    requires flag < 2
    ensures IsAtom(enc, res, U8(flag))
  {
  }

  lemma ColumnIsAtom(enc: Encoding, res: ResultSet, k: nat)
    requires k < |res.columns|
    ensures IsAtom(enc, res, ColumnAtom(enc, res.columns[k]))
  {
  }

  lemma ChunkIsAtom(enc: Encoding, res: ResultSet, i: nat, j: nat, offset: nat, len: nat)
    requires i < |res.rows| && j < |res.rows[i]|
    requires var f := res.rows[i][j]; if f.Some? then offset + len <= |f.value| else offset == len == 0
    ensures IsAtom(enc, res, ChunkAtom(enc.endian, ChunkOf(res.rows[i][j], offset, len)))
  {
    assert PieceOf(enc.endian, res.rows[i][j], ChunkAtom(enc.endian, ChunkOf(res.rows[i][j], offset, len)));
  }

  /** What was handed over is always the beginning of the whole. */
  lemma PrefixOfWhole(enc: Encoding, res: ResultSet, pos: Position)
    requires ValidPosition(res, pos)
    ensures Prefix(enc, res, pos) <= Encode(enc, res)
  {
    hide HeaderAtom, ColumnAtom, FieldBytes;
    var e := enc.endian;
    match pos
    case AtColumn(k) =>
      assert res.columns == res.columns[..k] + res.columns[k..];
      ColumnsConcat(enc, res.columns[..k], res.columns[k..]);
    case AtRow(i) =>
      assert res.rows == res.rows[..i] + res.rows[i..];
      RowsConcat(e, res.rows[..i], res.rows[i..]);
    case InRow(i, j, offset) =>
      InRowPrefix(enc, res, i, j, offset);
    case _ =>
  }

  lemma InRowPrefix(enc: Encoding, res: ResultSet, i: nat, j: nat, offset: nat)
    requires ValidPosition(res, InRow(i, j, offset))
    ensures Prefix(enc, res, InRow(i, j, offset)) <= Encode(enc, res)
  {
    hide HeaderAtom, FieldLength, Columns, Rows, Fields;
    var e, row := enc.endian, res.rows[i];
    assert res.rows == res.rows[..i] + ([row] + res.rows[i + 1..]);
    RowsConcat(e, res.rows[..i], [row] + res.rows[i + 1..]);
    RowsConcat(e, [row], res.rows[i + 1..]);
    Singles(enc, Column(0, []), None, row);
    var before := HeaderAtom(enc, res.header, |res.columns|) + Columns(enc, res.columns) + Rows(e, res.rows[..i]);
    assert before + Row(e, row) <= Encode(enc, res);
    assert row == row[..j] + row[j..];
    FieldsConcat(e, row[..j], row[j..]);
    if offset > 0 {
      assert row[j..] == [row[j]] + row[j + 1..];
      FieldsConcat(e, [row[j]], row[j + 1..]);
      Singles(enc, Column(0, []), row[j], row);
      assert PartialField(e, row[j], offset) <= FieldBytes(e, row[j]);
    }
  }

  /** Answers of the library. */
  datatype Ret = OK | IoWait | RowEnd | Failed

  class Reader {
    const res: ResultSet
    var pos: Position
    var stalls: nat   // how many more empty chunks the library will answer with

    ghost var answers: seq<Ret>  // to the driver's calls, in order

    /** The library was called once more, and this was its answer. */
    twostate predicate Answered(ret: Ret)
      reads `answers
    {
      answers == old(answers) + [ret]
    }

    /** The last answer was an error. */
    ghost predicate GaveUp()
      reads `answers
    {
      answers != [] && answers[|answers| - 1] == Failed
    }

    ghost predicate Valid()
      reads `pos
    {
      res.Valid() && ValidPosition(res, pos)
    }

    constructor (res: ResultSet)
      requires res.Valid()
      ensures Valid() && this.res == res && pos == AtHeader && answers == []
    {
      this.res := res;
      pos := AtHeader;
      stalls := *;
      answers := [];
    }

    /** The result has begun to arrive: its header is known. */
    method HeaderRead()
      requires Valid() && pos.AtHeader?
      modifies `pos
      ensures Valid() && pos == if res.columns == [] then AtEnd else AtColumn(0)
    {
      pos := if res.columns == [] then AtEnd else AtColumn(0);
    }

    method ColumnRead() returns (ret: Ret, col: Option<Column>)
      requires Valid() && pos.AtColumn?
      modifies `pos, `answers
      ensures Valid() && ret != RowEnd && Answered(ret)
      ensures ret != OK ==> pos == old(pos)
      ensures ret == OK && old(pos.column) < |res.columns| ==>
                col == Some(res.columns[old(pos.column)]) && pos == AtColumn(old(pos.column) + 1)
      ensures ret == OK && old(pos.column) == |res.columns| ==> col == None && pos == AtRow(0)
    {
      col := None;
      ret := Answer();
      if ret == OK {
        if pos.column < |res.columns| {
          col := Some(res.columns[pos.column]);
          pos := AtColumn(pos.column + 1);
        } else {
          pos := AtRow(0);
        }
      }
    }

    /** The number of the next row, counted from one, or zero after the last. */
    method RowRead() returns (ret: Ret, row: nat)
      requires Valid() && pos.AtRow?
      modifies `pos, `answers
      ensures Valid() && ret != RowEnd && Answered(ret)
      ensures ret != OK ==> pos == old(pos)
      ensures ret == OK && old(pos.row) < |res.rows| ==> row == old(pos.row) + 1 && pos == InRow(old(pos.row), 0, 0)
      ensures ret == OK && old(pos.row) == |res.rows| ==> row == 0 && pos == AtEnd
    {
      row := 0;
      ret := Answer();
      if ret == OK {
        if pos.row < |res.rows| {
          row := pos.row + 1;
          pos := InRow(pos.row, 0, 0);
        } else {
          pos := AtEnd;
        }
      }
    }

    method FieldRead() returns (ret: Ret, chunk: Chunk)
      requires Valid() && pos.InRow?
      modifies `pos, `stalls, `answers
      ensures Valid() && chunk.Valid() && Answered(if ret == RowEnd then OK else ret)
      ensures ret in {IoWait, Failed} ==> pos == old(pos)
      ensures ret in {OK, RowEnd} ==> (ret == RowEnd <==> old(pos.field) == |res.rows[old(pos.row)]|)
      ensures ret == RowEnd ==> pos == AtRow(old(pos.row) + 1)
      ensures ret == OK ==>
                var f := res.rows[old(pos.row)][old(pos.field)];
                && chunk.len < 0x1_0000_0000
                && (if f.Some? then old(pos.offset) + chunk.len <= |f.value| else old(pos.offset) == chunk.len == 0)
                && chunk == ChunkOf(f, old(pos.offset), chunk.len)
                && pos == AfterChunk(f, old(pos.row), old(pos.field), old(pos.offset) + chunk.len)
      ensures ret == OK ==> stalls < old(stalls) || (stalls == old(stalls) && pos != old(pos))
      ensures ret != OK ==> stalls == old(stalls)
    {
      chunk := Chunk(0, 0, 0, None);
      ret := Answer();
      if ret == OK {
        var InRow(i, j, offset) := pos;
        if j == |res.rows[i]| {
          ret := RowEnd;
          pos := AtRow(i + 1);
        } else {
          var f := res.rows[i][j];
          var len := 0;
          if f.Some? && offset < |f.value| {
            len := ChunkLength(|f.value| - offset);
          }
          chunk := ChunkOf(f, offset, len);
          pos := AfterChunk(f, i, j, offset + len);
        }
      }
    }

    /** Up to `rest` bytes; none only as long as the library's patience lasts. */
    method ChunkLength(rest: nat) returns (len: nat)
      requires rest > 0
      modifies `stalls
      ensures len <= rest && len < 0x1_0000_0000
      ensures len == 0 ==> stalls < old(stalls)
      ensures len > 0 ==> stalls == old(stalls)
    {
      var bound := if rest < 0x1_0000_0000 then rest else 0xFFFF_FFFF;
      len :| 0 <= len <= bound;
      if len == 0 {
        if stalls == 0 {
          len := 1;
        } else {
          stalls := stalls - 1;
        }
      }
    }

    method Answer() returns (ret: Ret)
      modifies `answers
      ensures ret != RowEnd && Answered(ret)
    {
      ret := *;
      if ret == RowEnd {
        ret := IoWait;
      }
      answers := answers + [ret];
    }

    /** Goes on connecting; a connection that is ready stays so. */
    method Connect(ready: bool) returns (ret: Ret)
      modifies `answers
      ensures ret != RowEnd && (ready ==> ret == OK) && Answered(ret)
    {
      ret := *;
      if ready {
        ret := OK;
      } else if ret == RowEnd {
        ret := IoWait;
      }
      answers := answers + [ret];
    }
  }
}
