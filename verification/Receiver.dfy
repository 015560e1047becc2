/** Receiving a result set: columns and rows are read from the library as they
    come, written to the client, and held back while the client is slow. */
module Receiver {
  import opened Wrappers
  import opened Rds
  import opened Buffers
  import opened Output
  import opened Database
  import opened Connection

  class Receiver {
    const out: Output
    const db: Reader
    const recvColsTimeout: nat
    const recvRowsTimeout: nat

    var state: State
    var drizzleRow: nat          // the row being read, or zero between rows
    var connection: PeerConn
    var outputPaused: bool
    var readTimeout: int         // what was left of the receive timeout when paused

    ghost var broken: bool       // something read could not be written
    ghost var limit: int         // receive timeout of the present state
    ghost var since: int         // when it was started or resumed
    ghost var spent: int         // time counted before that
    ghost var clamps: nat        // pauses that left less than a millisecond
    ghost var late: nat          // and by how much they came after the deadline

    constructor (out: Output, db: Reader, recvColsTimeout: nat, recvRowsTimeout: nat)
      requires out.Valid() && out.Stream() == [] && out.Live() == [] && out.latestAtom == 0 && !out.seenStreamEnd
      requires out.outBuf == null && out.outBufs == [] && out.InOrder() && out.written == []
      requires !out.headerSent && !out.nginx.refused && !out.nginx.unwatched
      requires db.Valid() && db.pos == AtHeader
      ensures Valid() && this.out == out && this.db == db
      ensures state == Connect && connection == NoConn && Unwritten()
    {
      this.out, this.db := out, db;
      this.recvColsTimeout, this.recvRowsTimeout := recvColsTimeout, recvRowsTimeout;
      state, drizzleRow, connection, outputPaused, readTimeout := Connect, 0, NoConn, false, 0;
      broken, limit, since, spent, clamps, late := false, 0, 0, 0, 0, 0;
      new;
      out.UnsentIsCounted();
    }

    /** The client is sent a beginning of the right encoding, and unless a write
        failed, exactly the encoding of what has been read. */
    ghost predicate Faithful()
      requires out.Valid() && db.Valid()
      reads `broken, out, out.nginx`refused, out.nginx`headed, out.nginx`handed, out.nginx`held, out.bufs, out.mem,
            db`pos
    {
      && out.Stream() <= Encode(out.enc, db.res)
      && (!broken ==> out.Stream() == Prefix(out.enc, db.res, db.pos))
    }

    /** Every buffer was filled with whole atoms of this result, and the client's side has
        been given what it is thought to have. */
    ghost predicate Atomic()
      requires out.Valid()
      reads out, out.nginx`refused, out.nginx`headed, out.nginx`handed, out.nginx`held, out.bufs, out.mem
    {
      out.InOrder() && forall a | a in out.written :: IsAtom(out.enc, db.res, a)
    }

    function LiveLimit(): nat
      requires out.bufSize > 0 && out.maxBuffered > 0
    {
      (out.maxBuffered - 1) / out.bufSize + 2
    }

    /** Memory in use does not depend on the size of the result. */
    ghost predicate Bounded()
      requires out.Valid()
      reads out, out.nginx`refused, out.nginx`headed, out.nginx`handed, out.nginx`held, out.bufs, out.mem
    {
      && |out.Live()| <= LiveLimit()
      && out.Unsent() < out.maxBuffered + out.latestAtom
    }

    ghost predicate Valid()
      reads `broken, out, out.nginx`refused, out.nginx`headed, out.nginx`handed, out.nginx`held, out.bufs, out.mem,
            db`pos
    {
      out.Valid() && db.Valid() && Faithful() && Bounded() && Atomic()
    }

    /** Nothing has failed so far. */
    ghost predicate Going()
      reads `broken, out.nginx`refused, out.nginx`unwatched
    {
      !broken && !out.nginx.refused && !out.nginx.unwatched
    }

    /** A failure that is not the driver's: of the client's side, of nginx's events, or of
        the library at its last call. */
    ghost predicate Excused()
      reads out.nginx`refused, out.nginx`unwatched, db`answers
    {
      out.nginx.refused || out.nginx.unwatched || db.GaveUp()
    }

    /** The client is behind: by its last answer, or by what it was not given yet. */
    ghost predicate Backlogged()
      reads out, out.nginx`held
    {
      out.nginx.held || out.bufferedOutput >= out.maxBuffered
    }

    /** The receive timeout runs only while reading: it strikes when the time spent
        reading reaches the limit, later only by what short pauses rounded up. */
    ghost predicate TimeoutLaw()
      reads this
    {
      && connection.Live? && connection.conn.writeTimer == None
      && var left := limit - spent + clamps + late;
         if outputPaused then connection.conn.readTimer == None && readTimeout == left >= 1
         else connection.conn.readTimer == Some(since + left)
    }

    ghost predicate Positioned()
      reads this, db`pos
    {
      && (state == RecvCols ==> db.pos.AtColumn? && drizzleRow == 0 && limit == recvColsTimeout)
      && (state == RecvRows ==>
            && limit == recvRowsTimeout
            && (if drizzleRow == 0 then db.pos.AtRow? else db.pos.InRow?))
    }

    /** At rest between two events while a result is being received. */
    ghost predicate Receiving()
      requires out.Valid()
      reads this, out, out.nginx`unwatched, out.nginx`refused, out.nginx`headed, out.nginx`handed, out.nginx`held,
            out.bufs, out.mem, db`pos
    {
      && (state == RecvCols || state == RecvRows)
      && Going() && !out.seenStreamEnd
      && TimeoutLaw() && Positioned()
      && (outputPaused ==> out.CurrentIsEmpty() && out.outBufs == [] && out.headerSent && Backlogged())
    }

    /** The library was called, or the client was behind; nothing is taken back. */
    twostate predicate Heard(rc: Rc)
      reads `outputPaused, db`answers, out.nginx
    {
      && old(db.answers) <= db.answers && out.nginx.Onward()
      && (rc == Again ==> outputPaused || (|db.answers| > |old(db.answers)| && db.answers[|db.answers| - 1] == IoWait))
      && (|db.answers| > |old(db.answers)| && db.GaveUp() ==> rc == Error)
    }

    /** Time counts while reading goes on. */
    twostate predicate Ticks(now: int)
      reads this
    {
      since == old(since) && spent == old(spent) + if outputPaused then now - since else 0
    }

    /** A state that is entered starts its time anew. */
    twostate predicate Timed(now: int)
      reads this
    {
      if state == old(state) then Ticks(now) else since == now && spent == 0
    }

    /** The connection is what it was, but for its timers. */
    twostate predicate SameConnection()
      reads this
    {
      old(connection.Live?) && connection.Live? && connection.conn.Untimed() == old(connection.conn.Untimed())
    }

    method SetReadTimer(timer: Option<int>)
      requires connection.Live?
      modifies `connection
      ensures connection == Live(old(connection.conn).(readTimer := timer))
    {
      connection := Live(connection.conn.(readTimer := timer));
    }

    /** Starts a receive timeout. */
    method StartTimeout(now: int, timeout: nat)
      requires connection.Live? && connection.conn.NoTimers()
      modifies `connection, `limit, `since, `spent, `clamps, `late
      ensures SameConnection() && connection.conn.writeTimer == None
      ensures connection.conn.readTimer == Some(since + limit - spent + clamps + late)
      ensures limit == timeout && since == now && spent == 0
    {
      SetReadTimer(Some(now + timeout));
      limit, since, spent, clamps, late := timeout, now, 0, 0, 0;
    }

    /** Stops reading: what is left of the timeout is kept, at least a millisecond. */
    method Suspend(now: int)
      requires TimeoutLaw() && !outputPaused
      modifies `connection, `readTimeout, `outputPaused, `spent, `clamps, `late
      ensures TimeoutLaw() && outputPaused && SameConnection()
      ensures Ticks(now)
      ensures (clamps, late) == if now < old(connection.conn.readTimer.value) then old((clamps, late))
                                else (old(clamps) + 1, old(late) + (now - old(connection.conn.readTimer.value)))
    {
      var left := connection.conn.readTimer.value - now;
      spent := spent + (now - since);
      if left < 1 {
        clamps, late := clamps + 1, late - left;
      }
      readTimeout := if left > 1 then left else 1;
      SetReadTimer(None);
      outputPaused := true;
    }

    /** Reads again, with the timeout that was left. */
    method Resume(now: int)
      requires TimeoutLaw() && outputPaused
      modifies `connection, `outputPaused, `since
      ensures TimeoutLaw() && !outputPaused && SameConnection() && since == now
    {
      outputPaused := false;
      SetReadTimer(Some(now + readTimeout));
      since := now;
    }

    /** Nothing of the result has been read or written yet. */
    ghost predicate Unwritten()
      reads `broken, `outputPaused, `drizzleRow, out, out.outBuf, out.nginx`refused, out.nginx`unwatched, db`pos
    {
      && db.pos == AtHeader && Going() && !out.seenStreamEnd && !outputPaused && drizzleRow == 0
      && out.CurrentIsEmpty() && out.outBufs == [] && out.bufferedOutput == 0 && !out.headerSent
    }

    /** The library has the result's header. Ok means that columns follow it. */
    method WriteHeader() returns (rc: Rc)
      requires Valid() && Unwritten()
      modifies `broken, db`pos, out, out.nginx, out.bufs, out.mem
      ensures out.nginx.Onward()
      ensures Valid() && out.Grown()
      ensures rc in {Ok, Done, Error}
      ensures !db.pos.AtHeader?
      ensures rc == Ok ==> db.pos == AtColumn(0) && Going() && !out.seenStreamEnd
      ensures rc == Done ==> db.pos == AtEnd && Going() && out.seenStreamEnd
      ensures rc == Error ==> Excused()
    {
      hide Output.Valid, Output.Stream, Output.Unsent, Output.Live, Output.Pipeline, Output.NewestEndsWith,
           Output.InOrder, Output.Follows, IsAtom, Encode, Prefix, HeaderAtom;
      out.NothingBuffered();
      HeaderStep(out.enc, db.res);
      HeaderIsAtom(out.enc, db.res);
      db.HeaderRead();
      rc := WriteTop();
    }

    method WriteTop() returns (rc: Rc)
      requires Behind(HeaderAtom(out.enc, db.res.header, |db.res.columns|)) && !out.seenStreamEnd
      requires IsAtom(out.enc, db.res, HeaderAtom(out.enc, db.res.header, |db.res.columns|))
      modifies `broken, out, out.nginx, out.bufs, out.mem
      ensures out.nginx.Onward()
      ensures Valid() && out.Grown()
      ensures rc in {Ok, Done, Error} && if rc == Error then out.nginx.refused else Going()
      ensures rc == Ok ==> db.res.columns != [] && !out.seenStreamEnd
      ensures rc == Done ==> db.res.columns == [] && out.seenStreamEnd
    {
      hide Output.Valid, Output.Stream, Output.Unsent, Output.Live, Output.Pipeline, Output.NewestEndsWith,
           Output.InOrder, Output.Follows, IsAtom, Encode, Prefix, HeaderAtom;
      PrefixOfWhole(out.enc, db.res, db.pos);
      BeforeWrite();
      rc := out.OutputHeader(db.res.header, |db.res.columns|);
      out.StreamLength();
      broken := rc != Ok;
      if rc == Ok && db.res.columns == [] {
        return Done;
      }
    }

    /** Offers the full buffers to the client while the database is waited for. */
    method OfferMore() returns (rc: Rc)
      requires Valid() && !out.seenStreamEnd
      modifies out, out.nginx, out.bufs
      ensures Valid() && rc in {Ok, Error} && !out.seenStreamEnd
      ensures out.bufs == old(out.bufs) && out.mem == old(out.mem)
      ensures if rc == Ok then out.outBufs == [] && (old(Going()) ==> Going()) else out.nginx.refused
      ensures rc == Ok && out.headerSent ==> out.nginx.offers > old(out.nginx.offers)
      ensures out.nginx.Asked() && (old(Unwritten()) ==> rc == Ok && Unwritten())
    {
      hide Output.Valid, Output.Stream, Output.Unsent, Output.Live, Output.Pipeline,
           Output.InOrder, Output.Follows, IsAtom, Encode, Prefix;
      out.StreamLength();
      rc := out.OutputBufs();
      out.StreamLength();
      if rc != Ok {
        return Error;
      }
    }

    /** Offers the rest of a response. Unless the client's side refuses, nothing stays behind. */
    method FlushLast()
      requires Valid()
      modifies out, out.nginx, out.bufs
      ensures Valid() && out.bufs == old(out.bufs) && out.mem == old(out.mem) && out.nginx.Asked()
      ensures out.nginx.refused || (out.outBufs == [] && (old(out.seenStreamEnd) ==> out.CurrentIsEmpty()))
    {
      hide Output.Valid, Output.Stream, Output.Unsent, Output.Live, Output.Pipeline,
           Output.InOrder, Output.Follows, IsAtom, Encode, Prefix;
      out.StreamLength();
      var rc := out.OutputBufs();
      out.StreamLength();
    }

    method MarkHeaderSent()
      requires Valid() && (out.nginx.headed || out.nginx.refused)
      modifies out`headerSent
      ensures Valid() && out.headerSent
    {
      hide Distinct, Flat, Capacity, Encode, Prefix;
      out.headerSent := true;
    }

    /** Something was handed over, so the header went first. */
    lemma HeaderIsOut()
      requires Valid() && !broken && db.pos == AtEnd
      requires out.nginx.refused || (out.outBufs == [] && out.CurrentIsEmpty())
      ensures out.nginx.headed || out.nginx.refused
    {
      hide Output.WholeAtoms, IsAtom, HeaderAtom, Bounded;
      if !out.nginx.refused {
        AllWritten();
        SomethingToSend();
        out.InOrderIs();
      }
    }

    lemma SomethingToSend()
      ensures Encode(out.enc, db.res) != []
    {
      hide StatusBytes, CountsBytes;
    }

    /** The run is over: whatever is left goes to the client. */
    method FlushRest(complete: bool)
      requires Valid() && (complete ==> !broken && db.pos == AtEnd && out.seenStreamEnd)
      modifies out, out.nginx, out.bufs
      ensures Valid() && out.bufs == old(out.bufs) && out.mem == old(out.mem) && out.nginx.Asked()
      ensures out.nginx.refused || (out.outBufs == [] && (old(out.seenStreamEnd) ==> out.CurrentIsEmpty()))
      ensures complete ==> out.headerSent
      ensures out.outBuf != null ==> out.outBuf in out.bufs
    {
      hide Valid;
      FlushLast();
      CurrentIsOwned();
      if complete {
        HeaderIsOut();
        MarkHeaderSent();
      }
    }

    lemma CurrentIsOwned()
      requires Valid()
      ensures out.outBuf != null ==> out.outBuf in out.bufs
    {
      hide Distinct, Flat, Capacity, Encode, Prefix;
    }

    lemma AllWritten()
      requires Valid() && !broken && db.pos == AtEnd
      ensures out.Stream() == Encode(out.enc, db.res)
      ensures !out.nginx.refused && out.outBufs == [] && out.CurrentIsEmpty() ==>
                out.nginx.handed == Encode(out.enc, db.res)
    {
      hide Output.Stream, Output.InOrder, Output.WholeAtoms, Flat, Distinct, IsAtom;
      if !out.nginx.refused && out.outBufs == [] && out.CurrentIsEmpty() {
        out.AllHanded();
      }
    }

    /** Offers everything written so far to the client. */
    method Flush() returns (rc: Rc)
      requires Valid() && !out.seenStreamEnd
      modifies out, out.nginx, out.bufs
      ensures Valid() && rc in {Ok, Error} && !out.seenStreamEnd
      ensures out.bufs == old(out.bufs) && out.mem == old(out.mem)
      ensures out.CurrentIsEmpty() && out.nginx.Asked()
      ensures if rc == Ok then out.outBufs == [] && (old(Going()) ==> Going()) else out.nginx.refused
    {
      hide Output.Valid, Output.Stream, Output.Unsent, Output.Live, Output.Pipeline,
           Output.InOrder, Output.Follows, IsAtom, Encode, Prefix;
      out.StreamLength();
      out.QueueBuf();
      rc := out.OutputBufs();
      out.StreamLength();
      if rc != Ok {
        return Error;
      }
    }

    /** May more be read? If the client is behind, reading is suspended. */
    method OutputReady(now: int) returns (rc: Rc)
      requires Valid() && Receiving() && !outputPaused
      modifies this, out, out.nginx, out.bufs
      ensures Valid() && SameConnection() && rc in {Ok, Again, Error}
      ensures out.bufs == old(out.bufs) && out.mem == old(out.mem)
      ensures state == old(state) && drizzleRow == old(drizzleRow)
      ensures out.nginx.Onward()
      ensures old(!out.nginx.held && out.Pending() < out.maxBuffered) ==>
                rc == Ok && unchanged(this) && unchanged(out) && unchanged(out.nginx)
      ensures rc == Ok ==> Receiving() && !outputPaused && !out.nginx.held && out.Pending() < out.maxBuffered
      ensures rc == Again ==> Receiving() && outputPaused
      ensures if rc == Error then out.nginx.refused || out.nginx.unwatched else Ticks(now)
    {
      hide Output.Valid, Output.Stream, Output.Unsent, Output.Live, Output.Pipeline,
           Output.InOrder, Output.Follows, IsAtom, Encode, Prefix;
      FlagsAgree();
      if !out.outputBlocked && out.Pending() < out.maxBuffered {
        return Ok;
      }
      rc := Flush();
      if rc != Ok {
        return Error;
      }
      FlagsAgree();
      if !out.outputBlocked && out.Pending() < out.maxBuffered {
        return Ok;
      }
      rc := Pause(now);
    }

    /** The flag is the client's last answer; and there is no backlog before the header. */
    lemma FlagsAgree()
      requires Valid() && !out.nginx.refused
      ensures out.outputBlocked == out.nginx.held
      ensures out.outBufs == [] && out.CurrentIsEmpty() ==> out.Pending() == out.bufferedOutput
      ensures out.outBufs == [] && (out.outputBlocked || out.bufferedOutput >= out.maxBuffered) ==> out.headerSent
    {
      hide Flat, Distinct, Output.WholeAtoms, Encode, Prefix, IsAtom;
      if out.outBufs == [] && out.busyBufs == [] {
        assert out.busyBufs + out.outBufs == [];
      }
    }

    method Pause(now: int) returns (rc: Rc)
      requires Valid() && Receiving() && !outputPaused
      requires out.CurrentIsEmpty() && out.outBufs == [] && out.headerSent && Backlogged()
      modifies `connection, `readTimeout, `outputPaused, `spent, `clamps, `late, out.nginx`unwatched
      ensures Valid() && SameConnection() && rc in {Again, Error}
      ensures if rc == Again then Receiving() && outputPaused && Ticks(now) else out.nginx.unwatched
    {
      hide Output.Valid, Output.InOrder, Faithful, Bounded, Atomic;
      var eventsOff := out.nginx.Watch();
      if !eventsOff {
        return Error;
      }
      Suspend(now);
      var clientWatched := out.nginx.Watch();
      rc := if clientWatched then Again else Error;
    }

    /** Reads a column, if it is there, and writes it. Done means that there are no more. */
    method ReadColumn() returns (rc: Rc)
      requires Valid() && Receiving() && !outputPaused && state == RecvCols && out.Pending() < out.maxBuffered
      modifies `broken, db, out, out.nginx, out.bufs, out.mem
      ensures Valid() && out.Grown()
      ensures Heard(rc)
      ensures rc in {Ok, Again, Done, Error}
      ensures rc == Again ==> db.pos == old(db.pos)
      ensures rc == Ok ==> db.pos == AtColumn(old(db.pos.column) + 1)
      ensures rc == Done ==> db.pos == AtRow(0)
      ensures rc != Error ==> Going() && !out.seenStreamEnd
      ensures rc == Error ==> Excused()
      ensures !db.pos.AtHeader?
    {
      hide Output.Valid, Output.Stream, Output.Unsent, Output.Live, Output.Pipeline, Output.NewestEndsWith,
           Output.InOrder, Output.Follows, IsAtom, Encode, Prefix, ColumnAtom;
      var ret, col := db.ColumnRead();
      if ret == IoWait {
        return Again;
      }
      if ret != OK {
        return Error;
      }
      if col.None? {
        ColumnsDone(out.enc, db.res);
        return Done;
      }
      ColumnStep(out.enc, db.res, old(db.pos.column));
      ColumnIsAtom(out.enc, db.res, old(db.pos.column));
      rc := WriteColumn(col.value);
    }

    /** The reader is one atom ahead of the stream. */
    ghost predicate Behind(atom: seq<Byte>)
      reads `broken, out, out.nginx`unwatched, out.nginx`refused, out.nginx`headed, out.nginx`handed, out.nginx`held,
            out.bufs, out.mem, db`pos
    {
      && out.Valid() && db.Valid() && Bounded() && Atomic() && Going()
      && out.Stream() + atom == Prefix(out.enc, db.res, db.pos)
      && out.Pending() < out.maxBuffered
    }

    method WriteColumn(col: Column) returns (rc: Rc)
      requires Behind(ColumnAtom(out.enc, col)) && IsAtom(out.enc, db.res, ColumnAtom(out.enc, col))
      modifies `broken, out, out.nginx, out.bufs, out.mem
      ensures out.nginx.Onward()
      ensures Valid() && out.Grown()
      ensures if rc == Ok then Going() else rc == Error && out.nginx.refused
      ensures out.seenStreamEnd ==> old(out.seenStreamEnd)
    {
      hide Output.Valid, Output.Stream, Output.Unsent, Output.Live, Output.Pipeline, Output.NewestEndsWith,
           Output.InOrder, Output.Follows, IsAtom, Encode, Prefix, ColumnAtom;
      PrefixOfWhole(out.enc, db.res, db.pos);
      BeforeWrite();
      rc := out.OutputCol(col);
      out.StreamLength();
      broken := rc != Ok;
    }

    method WriteRow(row: nat) returns (rc: Rc)
      requires Behind(U8(if row != 0 then 1 else 0)) && !out.seenStreamEnd
      modifies `broken, out, out.nginx, out.bufs, out.mem
      ensures out.nginx.Onward()
      ensures Valid() && out.Grown()
      ensures if rc == Ok then Going() else rc == Error && out.nginx.refused
      ensures rc == Ok ==> (out.seenStreamEnd <==> row == 0)
    {
      hide Output.Valid, Output.Stream, Output.Unsent, Output.Live, Output.Pipeline, Output.NewestEndsWith,
           Output.InOrder, Output.Follows, IsAtom, Encode, Prefix, U8;
      PrefixOfWhole(out.enc, db.res, db.pos);
      FlagIsAtom(out.enc, db.res, if row != 0 then 1 else 0);
      BeforeWrite();
      rc := out.OutputRow(row);
      out.StreamLength();
      broken := rc != Ok;
    }

    /** A stalled field is not an error: there is nothing to write yet. */
    method WriteField(chunk: Chunk) returns (rc: Rc)
      requires chunk.Valid() && (chunk.data.None? ==> chunk.len == 0)
      requires Behind(if chunk.Stalled() then [] else ChunkAtom(out.enc.endian, chunk))
      requires IsAtom(out.enc, db.res, ChunkAtom(out.enc.endian, chunk))
      modifies `broken, out, out.nginx, out.bufs, out.mem
      ensures out.nginx.Onward()
      ensures Valid() && out.Grown()
      ensures if rc == Ok then Going() else rc == Error && out.nginx.refused
      ensures chunk.Stalled() ==> rc == Ok
      ensures out.seenStreamEnd ==> old(out.seenStreamEnd)
    {
      hide Output.Valid, Output.Stream, Output.Unsent, Output.Live, Output.Pipeline, Output.NewestEndsWith,
           Output.InOrder, Output.Follows, IsAtom, Encode, Prefix, ChunkAtom;
      PrefixOfWhole(out.enc, db.res, db.pos);
      BeforeWrite();
      rc := out.OutputField(chunk);
      out.StreamLength();
      if rc == Done {
        rc := Ok;
      }
      broken := rc != Ok;
    }

    /** Reads the beginning of a row and writes its flag, or the end of the rows. */
    method ReadRow() returns (rc: Rc)
      requires Valid() && Receiving() && !outputPaused && state == RecvRows && drizzleRow == 0
      requires out.Pending() < out.maxBuffered
      modifies `broken, `drizzleRow, db, out, out.nginx, out.bufs, out.mem
      ensures Valid() && out.Grown()
      ensures Heard(rc)
      ensures rc in {Ok, Again, Error}
      ensures rc == Again ==> db.pos == old(db.pos) && drizzleRow == 0
      ensures rc == Ok && drizzleRow != 0 ==> db.pos == InRow(old(db.pos.row), 0, 0) && !out.seenStreamEnd
      ensures rc == Ok && drizzleRow == 0 ==> db.pos == AtEnd && out.seenStreamEnd
      ensures rc == Again ==> !out.seenStreamEnd
      ensures rc != Error ==> Going()
      ensures rc == Error ==> Excused()
      ensures !db.pos.AtHeader?
    {
      hide Output.Valid, Output.Stream, Output.Unsent, Output.Live, Output.Pipeline, Output.NewestEndsWith,
           Output.InOrder, Output.Follows, IsAtom, Encode, Prefix;
      var ret, row := db.RowRead();
      if ret == IoWait {
        drizzleRow := 0;
        return Again;
      }
      if ret != OK {
        return Error;
      }
      drizzleRow := row;
      RowStep(out.enc, db.res, old(db.pos.row));
      rc := WriteRow(row);
    }

    /** Reads a piece of a field and writes it. Done means that the row is over. */
    method ReadField() returns (rc: Rc)
      requires Valid() && Receiving() && !outputPaused && state == RecvRows && drizzleRow != 0
      requires out.Pending() < out.maxBuffered
      modifies `broken, db, out, out.nginx, out.bufs, out.mem
      ensures Valid() && out.Grown()
      ensures Heard(rc)
      ensures rc in {Ok, Again, Done, Error}
      ensures rc == Again ==> db.pos == old(db.pos)
      ensures rc == Ok ==> db.pos.InRow? && FieldProgress(old(db.pos), old(db.stalls))
      ensures rc == Done ==> db.pos == AtRow(old(db.pos.row) + 1)
      ensures rc != Error ==> Going() && !out.seenStreamEnd
      ensures rc == Error ==> Excused()
      ensures !db.pos.AtHeader?
    {
      hide Output.Valid, Output.Stream, Output.Unsent, Output.Live, Output.Pipeline, Output.NewestEndsWith,
           Output.InOrder, Output.Follows, IsAtom, Encode, Prefix, ChunkAtom;
      var InRow(i, j, offset) := db.pos;
      var ret, chunk := db.FieldRead();
      if ret == IoWait {
        return Again;
      }
      if ret == RowEnd {
        RowDone(out.enc, db.res, i);
        return Done;
      }
      if ret != OK {
        return Error;
      }
      ChunkStep(out.enc, db.res, i, j, offset, chunk.len);
      ChunkIsAtom(out.enc, db.res, i, j, offset, chunk.len);
      rc := WriteField(chunk);
    }

    ghost predicate FieldProgress(was: Position, stalls: nat)
      requires was.InRow? && db.pos.InRow?
      reads db`pos, db`stalls
    {
      && db.pos.row == was.row
      && (db.pos.field > was.field
          || (db.pos.field == was.field && db.pos.offset > was.offset)
          || (db.pos == was && db.stalls < stalls))
    }

    lemma BeforeWrite()
      requires out.Valid() && out.Pending() < out.maxBuffered
      ensures |out.busyBufs + out.outBufs| + 2 <= LiveLimit()
      ensures |out.Stream()| == |out.sent| + out.Unsent() && out.Unsent() < out.maxBuffered
    {
      out.StreamLength();
      out.UnsentIsCounted();
      out.WaitingIsBounded();
    }

    /** The client can take more. Ok means that reading goes on, in the state in which
        it was suspended; as long as it does not, the client is what it waits for. */
    method Drain(now: int) returns (rc: Rc)
      requires Valid() && Receiving() && outputPaused
      modifies this, out, out.nginx, out.bufs
      ensures Valid() && SameConnection() && rc in {Ok, Again, Error, Special(500)}
      ensures out.bufs == old(out.bufs) && out.mem == old(out.mem)
      ensures state == old(state) && drizzleRow == old(drizzleRow) && !broken && !out.seenStreamEnd
      ensures out.nginx.Onward() && out.nginx.offers > old(out.nginx.offers)
      ensures rc == Ok ==> Receiving() && !outputPaused && since == now && spent == old(spent)
      ensures !rc.Fails() ==> out.outBufs == []
      ensures rc == Again ==> Receiving() && outputPaused
      ensures rc == Again ==> out.nginx.held || (out.Pending() >= out.maxBuffered && out.Unsent() > 0)
      ensures rc == Error ==> out.nginx.refused
      ensures rc == Special(500) ==> out.nginx.unwatched
    {
      hide Output.Valid, Output.Stream, Output.Unsent, Output.Live, Output.Pipeline,
           Output.InOrder, Output.Follows, IsAtom, Encode, Prefix;
      out.StreamLength();
      rc := out.OutputBufs();
      out.StreamLength();
      if rc != Ok {
        return Error;
      }
      FlagsAgree();
      out.NothingBuffered();
      if out.outputBlocked || out.Pending() >= out.maxBuffered {
        return Again;
      }
      var readEventOn := out.nginx.Watch();
      if !readEventOn {
        outputPaused := false;
        return Special(500);
      }
      Resume(now);
      return Ok;
    }

    /** All of the result was read and written; no timer runs. */
    ghost predicate Finished()
      reads this, out, out.nginx`refused, out.nginx`unwatched, db`pos
    {
      && db.pos == AtEnd && Going() && out.seenStreamEnd && !outputPaused
      && connection.Live? && connection.conn.NoTimers()
    }

    /** Ready to enter a state of receiving from an earlier one. */
    ghost predicate Entering(pos: Position)
      reads this, out, out.nginx`refused, out.nginx`unwatched, db`pos
    {
      && db.pos == pos && Going() && !out.seenStreamEnd && !outputPaused && drizzleRow == 0
      && connection.Live? && connection.conn.NoTimers()
    }

    /** The columns, and after them the rows. */
    method ReceiveColumns(now: int) returns (rc: Rc)
      requires Valid() && !outputPaused
      requires if state == RecvCols then Receiving() else state != RecvRows && Entering(AtColumn(0))
      modifies this, db, out, out.nginx, out.bufs, out.mem
      ensures Valid() && SameConnection() && out.Grown()
      ensures Heard(rc)
      ensures rc in {Again, Done, Error}
      ensures rc == Again ==> Receiving()
      ensures rc == Done ==> Finished()
      ensures rc == Again ==> Timed(now)
      ensures rc == Error ==> Excused()
      ensures !db.pos.AtHeader?
    {
      hide Output.Valid, Output.Stream, Output.Unsent, Output.Live, Output.Pipeline,
           Output.InOrder, Output.Follows, IsAtom, Encode, Prefix, Faithful, Bounded,
           Atomic;
      if state != RecvCols {
        state := RecvCols;
        StartTimeout(now, recvColsTimeout);
      }
      rc := ColumnLoop(now);
      if rc == Done {
        SetReadTimer(None);
        rc := ReceiveRows(now);
      }
    }

    method ColumnLoop(now: int) returns (rc: Rc)
      requires Valid() && Receiving() && !outputPaused && state == RecvCols
      modifies this, db, out, out.nginx, out.bufs, out.mem
      ensures Valid() && SameConnection() && out.Grown()
      ensures Heard(rc)
      ensures rc in {Again, Done, Error}
      ensures rc == Again ==> Receiving()
      ensures rc == Done ==> db.pos == AtRow(0) && Going() && !out.seenStreamEnd && !outputPaused && drizzleRow == 0
      ensures rc == Done ==> connection.conn.writeTimer == None
      ensures if rc == Error then Excused() else Ticks(now) && state == RecvCols
      ensures !db.pos.AtHeader?
    {
      hide Output.Valid, Output.Stream, Output.Unsent, Output.Live, Output.Pipeline,
           Output.InOrder, Output.Follows, IsAtom, Encode, Prefix, Faithful, Bounded, Atomic;
      while true
        invariant Valid() && Receiving() && !outputPaused && state == RecvCols && SameConnection()
        invariant Ticks(now)
        invariant Heard(Ok)
        invariant out.Grown()
        decreases |db.res.columns| - db.pos.column
      {
        rc := NextColumn(now);
        if rc != Ok {
          return;
        }
      }
    }

    /** One column, or the end of them. */
    method NextColumn(now: int) returns (rc: Rc)
      requires Valid() && Receiving() && !outputPaused && state == RecvCols
      modifies this, db, out, out.nginx, out.bufs, out.mem
      ensures Valid() && SameConnection() && out.Grown()
      ensures Heard(rc)
      ensures rc in {Ok, Again, Done, Error}
      ensures rc == Ok ==> Receiving() && !outputPaused && state == RecvCols
      ensures rc == Ok ==> db.pos == AtColumn(old(db.pos.column) + 1)
      ensures rc == Again ==> Receiving()
      ensures rc == Error ==> Excused()
      ensures rc != Error ==> Ticks(now) && state == old(state)
      ensures !db.pos.AtHeader?
      ensures rc == Done ==> db.pos == AtRow(0) && Going() && !out.seenStreamEnd && !outputPaused && drizzleRow == 0
      ensures rc == Done ==> state == RecvCols && connection.conn.writeTimer == None
    {
      hide Output.Valid, Output.Stream, Output.Unsent, Output.Live, Output.Pipeline,
           Output.InOrder, Output.Follows, IsAtom, Encode, Prefix, Faithful, Bounded, Atomic;
      rc := OutputReady(now);
      if rc == Ok {
        rc := ReadColumn();
      }
    }

    /** The rows of the result, field by field. */
    method ReceiveRows(now: int) returns (rc: Rc)
      requires Valid() && !outputPaused
      requires if state == RecvRows then Receiving() else Entering(AtRow(0))
      modifies this, db, out, out.nginx, out.bufs, out.mem
      ensures Valid() && SameConnection() && out.Grown()
      ensures Heard(rc)
      ensures rc in {Again, Done, Error}
      ensures rc == Again ==> Receiving()
      ensures rc == Done ==> Finished()
      ensures rc == Again ==> Timed(now)
      ensures rc == Error ==> Excused()
      ensures !db.pos.AtHeader?
    {
      hide Output.Valid, Output.Stream, Output.Unsent, Output.Live, Output.Pipeline,
           Output.InOrder, Output.Follows, IsAtom, Encode, Prefix, Faithful, Bounded,
           Atomic;
      if state != RecvRows {
        state := RecvRows;
        StartTimeout(now, recvRowsTimeout);
      }
      while true
        invariant Valid() && Receiving() && !outputPaused && state == RecvRows && SameConnection()
        invariant if old(state) == RecvRows then Ticks(now) else since == now && spent == 0
        invariant Heard(Ok)
        invariant out.Grown()
        decreases |db.res.rows| - db.pos.row
      {
        rc := ReceiveRow(now);
        if rc != Ok {
          return;
        }
      }
    }

    /** One row, from wherever it was left. Ok when it is over, Done when there are no more. */
    method ReceiveRow(now: int) returns (rc: Rc)
      requires Valid() && Receiving() && !outputPaused && state == RecvRows
      modifies this, db, out, out.nginx, out.bufs, out.mem
      ensures Valid() && SameConnection() && out.Grown()
      ensures Heard(rc)
      ensures rc in {Ok, Again, Done, Error}
      ensures rc == Ok ==> Receiving() && !outputPaused && state == RecvRows && db.pos == AtRow(old(db.pos.row) + 1)
      ensures rc == Again ==> Receiving()
      ensures rc == Error ==> Excused()
      ensures rc != Error ==> Ticks(now) && state == old(state)
      ensures !db.pos.AtHeader?
      ensures rc == Done ==> Finished()
    {
      hide Output.Valid, Output.Stream, Output.Unsent, Output.Live, Output.Pipeline,
           Output.InOrder, Output.Follows, IsAtom, Encode, Prefix, Faithful, Bounded,
           Atomic;
      rc := BeginRow(now);
      if rc == Ok {
        rc := ReceiveFields(now);
        if rc == Done {
          drizzleRow := 0;
          rc := Ok;
        }
      }
    }

    /** Up to the fields of a row, if it was not begun before. Done when there is no more. */
    method BeginRow(now: int) returns (rc: Rc)
      requires Valid() && Receiving() && !outputPaused && state == RecvRows
      modifies this, db, out, out.nginx, out.bufs, out.mem
      ensures Valid() && SameConnection() && out.Grown()
      ensures Heard(rc)
      ensures rc in {Ok, Again, Done, Error}
      ensures rc == Ok ==> Receiving() && !outputPaused && state == RecvRows && drizzleRow != 0
      ensures rc == Ok ==> db.pos.InRow? && db.pos.row == old(db.pos.row)
      ensures rc == Again ==> Receiving()
      ensures rc == Error ==> Excused()
      ensures rc != Error ==> Ticks(now) && state == old(state)
      ensures !db.pos.AtHeader?
      ensures rc == Done ==> Finished()
    {
      hide Output.Valid, Output.Stream, Output.Unsent, Output.Live, Output.Pipeline,
           Output.InOrder, Output.Follows, IsAtom, Encode, Prefix, Faithful, Bounded,
           Atomic;
      rc := OutputReady(now);
      if rc != Ok || drizzleRow != 0 {
        return;
      }
      rc := ReadRow();
      if rc == Ok && drizzleRow == 0 {
        SetReadTimer(None);
        rc := Done;
      }
    }

    /** The rest of one row; Done when it is over. */
    method ReceiveFields(now: int) returns (rc: Rc)
      requires Valid() && Receiving() && !outputPaused && state == RecvRows && drizzleRow != 0
      modifies this, db, out, out.nginx, out.bufs, out.mem
      ensures Valid() && SameConnection() && out.Grown()
      ensures Heard(rc)
      ensures rc in {Again, Done, Error}
      ensures rc == Again ==> Receiving()
      ensures rc == Error ==> Excused()
      ensures rc != Error ==> Ticks(now) && state == old(state)
      ensures !db.pos.AtHeader?
      ensures rc == Done ==> db.pos == AtRow(old(db.pos.row) + 1) && state == RecvRows && !outputPaused
      ensures rc == Done ==> Going() && !out.seenStreamEnd && TimeoutLaw() && limit == recvRowsTimeout
    {
      hide Output.Valid, Output.Stream, Output.Unsent, Output.Live, Output.Pipeline,
           Output.InOrder, Output.Follows, IsAtom, Encode, Prefix, Faithful, Bounded,
           Atomic;
      while true
        invariant Valid() && Receiving() && !outputPaused && state == RecvRows && drizzleRow != 0 && SameConnection()
        invariant db.pos.row == old(db.pos.row)
        invariant Ticks(now)
        invariant Heard(Ok)
        invariant out.Grown()
        decreases |db.res.rows[db.pos.row]| - db.pos.field, FieldLeft(), db.stalls
      {
        rc := OutputReady(now);
        if rc != Ok {
          return;
        }
        rc := ReadField();
        if rc != Ok {
          return;
        }
      }
    }

    ghost function FieldLeft(): nat
      requires db.Valid() && db.pos.InRow?
      reads db`pos
    {
      var fs := db.res.rows[db.pos.row];
      if db.pos.field < |fs| && fs[db.pos.field].Some? then |fs[db.pos.field].value| - db.pos.offset else 0
    }
  }
}
