/** The response side of a request: RDS atoms are written into the current
    buffer, full buffers wait in a chain, the client filter consumes the chain,
    and consumed buffers are used again. */
module Output {
  import opened Wrappers
  import opened Rds
  import opened Buffers

  /** One answer of the library to a read of a field: `len` bytes at `offset` of
      a field of `total` bytes. No data means NULL. */
  datatype Chunk = Chunk(offset: nat, len: nat, total: nat, data: Option<seq<Byte>>) {
    predicate Valid() { data.Some? ==> |data.value| == len }

    /** A field was announced but none of its bytes are there yet. */
    predicate Stalled() { offset == 0 && len == 0 && total != 0 }
  }

  function ChunkAtom(e: Endian, c: Chunk): seq<Byte>
    requires c.Valid()
  {
    (if c.offset == 0 then Fixed32(e, if c.data.None? then NULL_LENGTH else c.total) else [])
    + if c.data.Some? then c.data.value[..c.len % 0x1_0000_0000] else []
  }

  lemma DivisionBounds(n: nat, d: nat, x: nat)
    requires d > 0 && n * d <= x
    ensures n <= x / d
  {
    FactorOrder(n, x / d + 1, d);
  }

  lemma FactorOrder(n: nat, m: nat, d: nat)
    requires n * d < m * d
    ensures n < m
  {
  }

  class Output {
    const nginx: Nginx
    const enc: Encoding
    const bufSize: nat
    const maxBuffered: nat

    var outBuf: Buf?         // the buffer being filled
    var availOut: nat
    var outBufs: seq<Buf>    // full, not yet handed to the filter
    var busyBufs: seq<Buf>   // handed over, not yet consumed
    var freeBufs: seq<Buf>   // consumed, to be used again
    var bufferedOutput: nat
    var headerSent: bool
    var seenStreamEnd: bool
    var outputBlocked: bool

    ghost var sent: seq<Byte>          // what the client has consumed
    ghost var written: seq<seq<Byte>>  // the atoms submitted, in order
    ghost var latestAtom: nat   // length of the last atom written
    ghost var bufs: set<Buf>          // the buffers in use
    ghost var mem: set<array<Byte>>   // and their memory

    ghost function Current(): seq<Buf>
      reads `outBuf
    {
      if outBuf == null then [] else [outBuf]
    }

    /** The buffers that hold unconsumed bytes, oldest first. */
    ghost function Pipeline(): seq<Buf>
      reads `busyBufs, `outBufs, `outBuf
    {
      busyBufs + outBufs + Current()
    }

    ghost function Live(): seq<Buf>
      reads `busyBufs, `outBufs, `outBuf, `freeBufs
    {
      Pipeline() + freeBufs
    }

    ghost predicate Owned(bs: seq<Buf>)
      reads `bufs, `mem, bufs
    {
      forall b | b in bs :: b in bufs && b.data in mem && b.Valid() && b.data.Length >= bufSize
    }

    ghost predicate ValidBufs()
      reads `busyBufs, `outBufs, `outBuf, `freeBufs, `availOut, `bufs, `mem, bufs
    {
      && Owned(Live())
      && Distinct(Live())
      && (outBuf != null ==> outBuf in Live() && outBuf.pos == 0 && availOut == outBuf.data.Length - outBuf.last)
      && (outBuf == null ==> availOut == 0)
    }

    ghost predicate Valid()
      reads `busyBufs, `outBufs, `outBuf, `freeBufs, `availOut, `bufferedOutput, `headerSent, `outputBlocked,
            `bufs, `mem, bufs, nginx`refused, nginx`headed
    {
      && 0 < bufSize <= maxBuffered
      && (busyBufs != [] || outputBlocked ==> headerSent)
      && (headerSent ==> nginx.headed || nginx.refused)
      && ValidBufs()
      && bufferedOutput == Capacity(busyBufs + outBufs)
    }

    /** All memory in use was so before, or is new. */
    twostate predicate Grown()
      reads `bufs, `mem
    {
      && (forall b | b in bufs :: b in old(bufs) || fresh(b))
      && (forall m | m in mem :: m in old(mem) || fresh(m))
    }

    ghost function Waiting(): seq<Byte>
      requires ValidBufs()
      reads `busyBufs, `outBufs, `outBuf, `freeBufs, `availOut, `bufs, `mem, bufs, mem
    {
      Flat(Pipeline())
    }

    /** Everything emitted so far: consumed by the client or waiting. */
    ghost function Stream(): seq<Byte>
      requires ValidBufs()
      reads `sent, `busyBufs, `outBufs, `outBuf, `freeBufs, `availOut, `bufs, `mem, bufs, mem
    {
      sent + Waiting()
    }

    /** No atom was ever cut by the end of a buffer. */
    ghost predicate WholeAtoms()
      requires ValidBufs()
      reads `written, `busyBufs, `outBufs, `outBuf, `freeBufs, `availOut, `bufs, `mem, bufs, mem
    {
      forall b | b in Live() :: Whole(b, written)
    }

    /** Filled as before. */
    twostate predicate Kept(b: Buf)
      reads b`data, b`last, b`atoms, b.data
    {
      && b.data == old(b.data) && b.last == old(b.last) <= b.data.Length && b.atoms == old(b.atoms)
      && forall i :: 0 <= i < b.last ==> b.data[i] == old(b.data[i])
    }

    twostate lemma StillWhole()
      requires old(ValidBufs()) && ValidBufs() && written == old(written)
      requires forall b | b in Live() :: b in old(Live()) && Kept(b)
      ensures old(WholeAtoms()) ==> WholeAtoms()
    {
      hide Distinct, Join;
      forall b | b in Live() && old(WholeAtoms())
        ensures Whole(b, written)
      {
        assert old(Whole(b, written)) && Kept(b);
        assert b.data[..b.last] == old(b.data[..b.last]);
      }
    }

    twostate lemma FewerWhole()
      requires old(ValidBufs()) && ValidBufs() && written == old(written)
      requires forall b | b in Live() :: b in old(Live()) && unchanged(b) && unchanged(b.data)
      ensures old(WholeAtoms()) ==> WholeAtoms()
    {
      hide Distinct, Join;
      assert forall b | b in Live() :: Kept(b);
      StillWhole();
    }

    /** Unless it failed, the client's filter was given all that was consumed and all that
        is busy, and the flag says what it answered last. */
    ghost predicate Agreed()
      reads `sent, `busyBufs, `outputBlocked, nginx`refused, nginx`headed, nginx`handed, nginx`held,
            busyBufs, set b | b in busyBufs :: b.data
    {
      !nginx.refused ==>
        && nginx.handed == sent + Content(busyBufs) && outputBlocked == nginx.held
        && (nginx.handed != [] ==> nginx.headed)
    }

    /** No atom was cut, and the client's side has what it was given. */
    ghost predicate InOrder()
      requires ValidBufs()
      reads `written, `busyBufs, `outBufs, `outBuf, `freeBufs, `availOut, `bufs, `mem, bufs, mem,
            `sent, `outputBlocked, nginx`refused, nginx`headed, nginx`handed, nginx`held
    {
      assert forall b | b in busyBufs :: b in Live();
      WholeAtoms() && Agreed()
    }

    lemma InOrderIs()
      requires ValidBufs()
      ensures InOrder() <==> WholeAtoms() && Agreed()
    {
    }

    lemma BusyIsValid()
      requires ValidBufs()
      ensures AllValid(busyBufs) && AllValid(outBufs) && AllValid(busyBufs + outBufs)
      ensures Content(busyBufs) == Flat(busyBufs)
    {
      assert forall b | b in busyBufs + outBufs :: b in Live();
      assert forall i :: 0 <= i < |busyBufs| ==> (busyBufs + outBufs)[i] == busyBufs[i];
      assert forall i :: 0 <= i < |outBufs| ==> (busyBufs + outBufs)[|busyBufs| + i] == outBufs[i];
    }

    /** When nothing is left over here, everything was given to the client's filter. */
    lemma AllHanded()
      requires Valid() && InOrder() && !nginx.refused && outBufs == [] && CurrentIsEmpty()
      ensures nginx.handed == Stream()
    {
      hide Distinct, Flat, Capacity;
      BusyIsValid();
      assert busyBufs + outBufs == busyBufs;
      ChainApart();
      if outBuf != null {
        FlatOfOne(outBuf);
      } else {
        FlatNothing();
      }
    }

    ghost function Unsent(): nat
      requires ValidBufs()
      reads `busyBufs, `outBufs, `outBuf, `freeBufs, `availOut, `bufs, `mem, bufs, mem
    {
      |Waiting()|
    }

    ghost predicate CurrentIsEmpty()
      reads `outBuf, outBuf
    {
      outBuf != null ==> outBuf.last == outBuf.pos
    }

    function Pending(): nat
      requires Valid()
      reads `busyBufs, `outBufs, `outBuf, `freeBufs, `availOut, `bufferedOutput, `headerSent, `outputBlocked,
            `bufs, `mem, bufs, nginx`refused, nginx`headed
    {
      bufferedOutput + if outBuf != null then outBuf.last - outBuf.pos else 0
    }

    lemma NothingBuffered()
      requires Valid() && CurrentIsEmpty()
      ensures Pending() == bufferedOutput && maxBuffered > 0
      ensures busyBufs == [] && outBufs == [] ==> bufferedOutput == 0
    {
    }

    lemma StreamLength()
      requires Valid()
      ensures |Stream()| == |sent| + Unsent()
    {
    }

    /** The accounting never promises more room than there is. */
    lemma UnsentIsCounted()
      requires Valid()
      ensures Unsent() <= Pending()
    {
      hide Distinct, Flat, Capacity;
      var chain := busyBufs + outBufs;
      ChainApart();
      FlatFits(chain);
      if outBuf != null {
        FlatOfOne(outBuf);
      } else {
        FlatNothing();
      }
    }

    /** Below the threshold, only so many buffers can be waiting. */
    lemma WaitingIsBounded()
      requires Valid() && Pending() < maxBuffered
      ensures |busyBufs + outBufs| <= (maxBuffered - 1) / bufSize
    {
      hide Distinct, Flat, Capacity;
      var chain := busyBufs + outBufs;
      assert forall b | b in chain :: b in Live();
      CapacityCounts(chain, bufSize);
      assert |chain| * bufSize <= maxBuffered - 1;
      DivisionBounds(|chain|, bufSize, maxBuffered - 1);
    }

    constructor (nginx: Nginx, enc: Encoding, bufSize: nat, maxBuffered: nat)
      requires 0 < bufSize <= maxBuffered && nginx.handed == [] && !nginx.held
      ensures Valid() && bufs == {} && mem == {}
      ensures this.nginx == nginx && this.enc == enc && this.bufSize == bufSize && this.maxBuffered == maxBuffered
      ensures InOrder() && Live() == [] && Stream() == [] && latestAtom == 0 && written == []
      ensures !headerSent && !seenStreamEnd && !outputBlocked && outBuf == null && bufferedOutput == 0
    {
      this.nginx := nginx;
      this.enc, this.bufSize, this.maxBuffered := enc, bufSize, maxBuffered;
      outBuf, availOut, bufferedOutput := null, 0, 0;
      outBufs, busyBufs, freeBufs := [], [], [];
      headerSent, seenStreamEnd, outputBlocked := false, false, false;
      sent, written, latestAtom, bufs, mem := [], [], 0, {}, {};
    }

    /** Links the current buffer at the end of the chain. */
    method LinkCurrent()
      requires Valid() && outBuf != null
      modifies `outBuf, `availOut, `outBufs, `bufferedOutput
      ensures Valid()
      ensures outBuf == null && outBufs == old(outBufs) + [old(outBuf)]
      ensures Pipeline() == old(Pipeline()) && Live() == old(Live()) && Stream() == old(Stream())
      ensures old(InOrder()) ==> InOrder()
      ensures forall atom :: old(NewestEndsWith(atom)) ==> NewestEndsWith(atom)
    {
      hide Distinct, Flat, Capacity;
      ghost var before := Live();
      ghost var b := outBuf;
      CapacityConcat(busyBufs + outBufs, [b]);
      CapacityOne(b);
      assert busyBufs + (outBufs + [b]) == busyBufs + outBufs + [b];
      bufferedOutput := bufferedOutput + outBuf.data.Length;
      outBufs := outBufs + [outBuf];
      outBuf := null;
      availOut := 0;
      assert Live() == before;
    }

    /** A current buffer with bytes in it joins the chain; an empty one stays. */
    method QueueBuf()
      requires Valid()
      modifies `outBuf, `availOut, `outBufs, `bufferedOutput
      ensures Valid()
      ensures Pipeline() == old(Pipeline()) && Live() == old(Live()) && CurrentIsEmpty()
      ensures Stream() == old(Stream())
      ensures old(InOrder()) ==> InOrder()
      ensures forall atom :: old(NewestEndsWith(atom)) ==> NewestEndsWith(atom)
      ensures old(CurrentIsEmpty()) ==> unchanged(this)
      ensures !old(CurrentIsEmpty()) ==> outBuf == null && |outBufs| == old(|outBufs|) + 1
    {
      hide ValidBufs, Stream, InOrder, NewestEndsWith, Pipeline, Live, Capacity;
      if outBuf == null || outBuf.last == outBuf.pos {
        return;
      }
      LinkCurrent();
    }

    /** Moves the oldest handed-over buffer, all of it consumed, to the free list. */
    method RelinkHead()
      requires ValidBufs() && busyBufs != [] && busyBufs[0].pos == busyBufs[0].last
      modifies `busyBufs, `freeBufs
      ensures ValidBufs()
      ensures busyBufs == old(busyBufs[1..]) && freeBufs == old([busyBufs[0]] + freeBufs)
      ensures Waiting() == old(Waiting()) && Content(busyBufs) == old(Content(busyBufs))
      ensures old(WholeAtoms()) ==> WholeAtoms()
    {
      hide Flat, Distinct, WholeAtoms, Content;
      ghost var xs := Pipeline()[1..];
      HeadIsSpent();
      var b := busyBufs[0];
      busyBufs := busyBufs[1..];
      freeBufs := [b] + freeBufs;
      assert Pipeline() == xs;
      assert outBuf != null ==> xs[|xs| - 1] == outBuf;
      FewerWhole();
    }

    /** A consumed buffer at the head holds nothing that the others need. */
    lemma HeadIsSpent()
      requires ValidBufs() && busyBufs != [] && busyBufs[0].pos == busyBufs[0].last
      ensures var b, xs := busyBufs[0], Pipeline()[1..];
              && Distinct(xs + ([b] + freeBufs)) && AllValid(xs) && Flat(xs) == Waiting()
              && (forall c | c in xs + ([b] + freeBufs) :: c in Live())
      ensures Content(busyBufs[1..]) == Content(busyBufs)
    {
      hide Flat, Distinct;
      var b, xs := busyBufs[0], Pipeline()[1..];
      assert Pipeline() == [b] + xs;
      FlatEmptyHead(b, xs);
      BusyIsValid();
      assert busyBufs == [b] + busyBufs[1..];
      FlatEmptyHead(b, busyBufs[1..]);
      DistinctRotate(b, xs, freeBufs);
    }

    lemma FreeIsApart()
      requires ValidBufs() && freeBufs != []
      ensures freeBufs[0] !in Pipeline() && freeBufs[0] !in busyBufs && freeBufs[0] in Live()
      ensures outBuf != freeBufs[0]
    {
      hide Distinct;
      DistinctNoDup(Live());
      assert Live()[|Pipeline()|] == freeBufs[0];
      NotBefore(Live(), |Pipeline()|);
      assert Live()[..|Pipeline()|] == Pipeline();
      assert outBuf != null ==> Pipeline()[|Pipeline()| - 1] == outBuf;
      assert forall c | c in busyBufs :: c in Pipeline();
    }

    /** Makes the whole of the first free buffer available again. */
    method RewindFree()
      requires ValidBufs() && freeBufs != []
      modifies {freeBufs[0]}`pos, {freeBufs[0]}`last, {freeBufs[0]}`atoms
      ensures ValidBufs() && Waiting() == old(Waiting()) && Content(busyBufs) == old(Content(busyBufs))
      ensures old(WholeAtoms()) ==> WholeAtoms()
      ensures old(CurrentIsEmpty()) ==> CurrentIsEmpty()
      ensures freeBufs[0].pos == freeBufs[0].last == 0
    {
      hide Flat, Distinct, Content;
      FreeIsApart();
      var b := freeBufs[0];
      b.pos := 0;
      b.last := 0;
      b.atoms := [];
      EmptyIsWhole(b, written);
    }

    method ReleaseHead()
      requires ValidBufs() && busyBufs != [] && busyBufs[0].pos == busyBufs[0].last
      modifies `busyBufs, `freeBufs, {busyBufs[0]}`pos, {busyBufs[0]}`last, {busyBufs[0]}`atoms
      ensures ValidBufs() && Waiting() == old(Waiting()) && Content(busyBufs) == old(Content(busyBufs))
      ensures busyBufs == old(busyBufs[1..]) && freeBufs == old([busyBufs[0]] + freeBufs)
      ensures old(WholeAtoms()) ==> WholeAtoms()
      ensures old(CurrentIsEmpty()) ==> CurrentIsEmpty()
    {
      hide ValidBufs, Waiting, WholeAtoms, Content;
      RelinkHead();
      RewindFree();
    }

    /** The chain handed to the filter is now the filter's. */
    method HandOver()
      requires ValidBufs()
      modifies `busyBufs, `outBufs
      ensures ValidBufs()
      ensures outBufs == [] && busyBufs == old(busyBufs + outBufs) && Waiting() == old(Waiting())
      ensures Content(busyBufs) == old(Content(busyBufs + outBufs))
      ensures Pipeline() == old(Pipeline()) && Live() == old(Live())
      ensures old(WholeAtoms()) ==> WholeAtoms()
    {
      hide Flat, Distinct;
      assert busyBufs + outBufs + [] == busyBufs + outBufs;
      busyBufs := busyBufs + outBufs;
      outBufs := [];
      assert Pipeline() == old(Pipeline());
    }

    /** Hands the chain over and recycles the buffers that are consumed in full. */
    method UpdateChains() returns (ghost released: nat)
      requires ValidBufs()
      modifies `busyBufs, `outBufs, `freeBufs,
               busyBufs`pos, busyBufs`last, busyBufs`atoms, outBufs`pos, outBufs`last, outBufs`atoms
      ensures ValidBufs() && Content(busyBufs) == old(Content(busyBufs + outBufs))
      ensures outBufs == [] && released <= |old(busyBufs + outBufs)|
      ensures busyBufs == old(busyBufs + outBufs)[released..]
      ensures |freeBufs| == old(|freeBufs|) + released
      ensures busyBufs == [] || busyBufs[0].pos < busyBufs[0].last
      ensures Waiting() == old(Waiting()) && (old(CurrentIsEmpty()) ==> CurrentIsEmpty())
      ensures old(WholeAtoms()) ==> WholeAtoms()
    {
      hide ValidBufs, WholeAtoms, Waiting, Content, CurrentIsEmpty, Follows;
      HandOver();
      ghost var chain, n := busyBufs, |freeBufs|;
      FollowsItself(chain);
      while busyBufs != [] && busyBufs[0].pos == busyBufs[0].last
        modifies `busyBufs, `freeBufs, chain`pos, chain`last, chain`atoms
        invariant ValidBufs() && (old(CurrentIsEmpty()) ==> CurrentIsEmpty()) && (old(WholeAtoms()) ==> WholeAtoms())
        invariant Follows(busyBufs, chain) && |freeBufs| + |busyBufs| == n + |chain|
        invariant Waiting() == old(Waiting()) && Content(busyBufs) == old(Content(busyBufs + outBufs))
      {
        FollowsTail(busyBufs, chain);
        assert busyBufs[0] in old(busyBufs) || busyBufs[0] in old(outBufs);
        ReleaseHead();
      }
      released := FollowsAt(busyBufs, chain);
      BusyIsValid();
    }

    lemma FollowsItself(bs: seq<Buf>)
      ensures Follows(bs, bs)
    {
    }

    lemma FollowsTail(after: seq<Buf>, before: seq<Buf>)
      requires Follows(after, before) && after != []
      ensures Follows(after[1..], before) && after[0] in before
    {
      assert after[0] == before[|before| - |after|];
    }

    lemma FollowsAt(after: seq<Buf>, before: seq<Buf>) returns (n: nat)
      requires Follows(after, before)
      ensures n <= |before| && |after| == |before| - n && after == before[n..]
    {
      n := |before| - |after|;
    }

    /** Takes stock of the buffers that wait for the client. */
    method Recount()
      requires ValidBufs() && outBufs == []
      requires 0 < bufSize <= maxBuffered && (busyBufs != [] || outputBlocked ==> headerSent)
      requires headerSent ==> nginx.headed || nginx.refused
      modifies `bufferedOutput
      ensures Valid()
    {
      hide Flat, Distinct, ValidBufs, Capacity;
      CapacityNone();
      bufferedOutput := 0;
      for i := 0 to |busyBufs|
        modifies `bufferedOutput
        invariant bufferedOutput == Capacity(busyBufs[..i])
      {
        bufferedOutput := bufferedOutput + busyBufs[i].data.Length;
        CapacityConcat(busyBufs[..i], [busyBufs[i]]);
        CapacityOne(busyBufs[i]);
        assert busyBufs[..i + 1] == busyBufs[..i] + [busyBufs[i]];
      }
      assert busyBufs[..|busyBufs|] == busyBufs == busyBufs + outBufs;
    }

    lemma ChainApart()
      requires ValidBufs()
      ensures NoDup(busyBufs + outBufs) && (outBuf != null ==> outBuf !in busyBufs + outBufs)
      ensures AllValid(busyBufs + outBufs) && AllValid(Current())
      ensures outBuf != null ==> forall b | b in busyBufs + outBufs && b in bufs :: b.data != outBuf.data
      ensures Waiting() == Flat(busyBufs + outBufs) + Flat(Current())
    {
      hide Distinct, Flat;
      var chain := busyBufs + outBufs;
      DistinctNoDup(Live());
      assert Live()[..|chain|] == chain;
      assert forall b | b in chain :: b in Live();
      if outBuf != null {
        assert Live() == chain + [outBuf] + freeBufs;
        DistinctRemove(chain, outBuf, freeBufs);
      }
      FlatConcat(chain, Current());
    }

    /** The client's filter is given the chain and takes what it likes. */
    method TakeFromChain() returns (rc: Rc, ghost taken: seq<Byte>)
      requires ValidBufs() && (nginx.headed || nginx.refused)
      modifies busyBufs`pos, outBufs`pos, nginx`buffered, nginx`handed, nginx`held, nginx`refused, nginx`offers
      ensures ValidBufs() && taken + Waiting() == old(Waiting())
      ensures taken + Content(busyBufs + outBufs) == old(Content(busyBufs) + Content(outBufs))
      ensures nginx.handed == old(nginx.handed + Content(outBufs)) && nginx.offers == old(nginx.offers) + 1
      ensures nginx.held == (rc == Again || nginx.buffered) && nginx.refused == (old(nginx.refused) || rc.Fails())
      ensures old(CurrentIsEmpty()) ==> CurrentIsEmpty()
      ensures old(WholeAtoms()) ==> WholeAtoms()
    {
      hide Distinct, Flat, WholeAtoms;
      ChainApart();
      BusyIsValid();
      FlatConcat(busyBufs, outBufs);
      ghost var current := Current();
      rc, taken := nginx.Filter(busyBufs, outBufs);
      assert Flat(current) == old(Flat(current));
      assert forall b | b in busyBufs + outBufs :: b.Valid();
      assert Owned(Live());
      ChainApart();
      StillWhole();
    }

    lemma ChainIsOwned()
      requires ValidBufs()
      ensures forall b | b in busyBufs + outBufs :: b in bufs
    {
      assert forall b | b in busyBufs + outBufs :: b in Live();
    }

    /** What the client consumes is no longer waiting. */
    method Filter() returns (rc: Rc)
      requires Valid() && headerSent
      modifies `sent, bufs, nginx`buffered, nginx`handed, nginx`held, nginx`refused, nginx`offers
      ensures Valid()
      ensures Stream() == old(Stream()) && old(sent) <= sent
      ensures old(CurrentIsEmpty()) ==> CurrentIsEmpty()
      ensures old(WholeAtoms()) ==> WholeAtoms()
      ensures old(Agreed()) && !nginx.refused ==>
                nginx.handed == sent + Content(busyBufs + outBufs) && nginx.headed
      ensures nginx.held == (rc == Again || nginx.buffered) && nginx.refused == (old(nginx.refused) || rc.Fails())
      ensures nginx.offers == old(nginx.offers) + 1
    {
      hide ValidBufs, Capacity, Waiting, WholeAtoms, CurrentIsEmpty, Content;
      ChainIsOwned();
      ghost var before, busy, next := sent, Content(busyBufs), Content(outBufs);
      ghost var taken;
      rc, taken := TakeFromChain();
      sent := sent + taken;
      assert (before + busy) + next == before + (busy + next);
    }

    lemma HeadHasBytes()
      requires ValidBufs()
      ensures busyBufs != [] && busyBufs[0].pos < busyBufs[0].last ==> Unsent() > 0
    {
      if busyBufs != [] {
        assert Pipeline()[0] == busyBufs[0];
        assert Live()[0] == busyBufs[0];
      }
    }

    /** What is left after some buffers at the front are gone. */
    ghost predicate Follows(after: seq<Buf>, before: seq<Buf>) {
      |after| <= |before| && after == before[|before| - |after|..]
    }

    /** The buffers that the client consumed are free, and the others keep their order. */
    method RecycleChains()
      requires ValidBufs()
      modifies `busyBufs, `outBufs, `freeBufs, bufs
      ensures ValidBufs() && Waiting() == old(Waiting())
      ensures Content(busyBufs) == old(Content(busyBufs + outBufs))
      ensures old(WholeAtoms()) ==> WholeAtoms()
      ensures outBufs == [] && |Live()| == old(|Live()|) && Follows(Pipeline(), old(Pipeline()))
      ensures |busyBufs| <= old(|busyBufs + outBufs|)
      ensures busyBufs == [] || Unsent() > 0
      ensures Capacity(busyBufs) <= old(Capacity(busyBufs + outBufs))
      ensures old(CurrentIsEmpty()) ==> CurrentIsEmpty()
    {
      hide ValidBufs, Capacity, WholeAtoms, Waiting, Follows, CurrentIsEmpty, Unsent, Content, Live;
      ghost var chain := busyBufs + outBufs;
      ChainIsOwned();
      LiveCount();
      ghost var released := UpdateChains();
      CapacityTail(chain, released);
      HeadHasBytes();
      FollowsWith(chain, released, Current());
      assert busyBufs + outBufs == busyBufs;
      LiveCount();
    }

    lemma FollowsWith(chain: seq<Buf>, n: nat, more: seq<Buf>)
      requires n <= |chain|
      ensures Follows(chain[n..] + more, chain + more)
    {
    }

    /** What follows the filter's success: new chains, new backlog. */
    method Recycle()
      requires Valid() && headerSent
      modifies `busyBufs, `outBufs, `freeBufs, `bufferedOutput, bufs
      ensures Valid() && Waiting() == old(Waiting())
      ensures Content(busyBufs) == old(Content(busyBufs + outBufs))
      ensures old(WholeAtoms()) ==> WholeAtoms()
      ensures outBufs == [] && |Live()| == old(|Live()|) && Follows(Pipeline(), old(Pipeline()))
      ensures |busyBufs| <= old(|busyBufs + outBufs|)
      ensures busyBufs == [] || Unsent() > 0
      ensures bufferedOutput <= old(bufferedOutput)
      ensures old(CurrentIsEmpty()) ==> CurrentIsEmpty()
    {
      hide ValidBufs, Capacity, WholeAtoms, Waiting, Follows, Pipeline, Live, Unsent, CurrentIsEmpty, Content;
      RecycleChains();
      Recount();
      assert busyBufs + outBufs == busyBufs;
    }

    /** Offers the chain to the client and recycles what the client consumed. */
    method OfferChain() returns (rc: Rc)
      requires Valid()
      modifies `outBufs, `busyBufs, `freeBufs, `bufferedOutput, `headerSent, `outputBlocked, `sent, bufs,
               nginx`buffered, nginx`handed, nginx`held, nginx`refused, nginx`headed, nginx`offers
      ensures Valid()
      ensures Stream() == old(Stream()) && old(sent) <= sent
      ensures old(InOrder()) ==> InOrder()
      ensures Follows(Pipeline(), old(Pipeline()))
      ensures !headerSent ==> sent == old(sent) && busyBufs == []
      ensures rc.Ok? || rc.Fails()
      ensures if rc.Fails() then nginx.refused else nginx.refused == old(nginx.refused)
      ensures old(nginx.offers) <= nginx.offers
      ensures old(headerSent) || (rc.Ok? && headerSent) ==> nginx.offers > old(nginx.offers)
      ensures old(!headerSent && outBufs == []) ==> rc.Ok? && !headerSent
      ensures rc.Ok? ==> outBufs == []
      ensures old(CurrentIsEmpty()) ==> CurrentIsEmpty()
      ensures |Live()| == old(|Live()|) && |busyBufs + outBufs| <= old(|busyBufs + outBufs|)
      ensures bufferedOutput <= old(bufferedOutput)
      ensures rc.Ok? && (old(headerSent) || old(outBufs) != []) ==> headerSent
      ensures rc.Ok? ==> busyBufs == [] || Unsent() > 0
    {
      hide Distinct, Flat, Capacity, Waiting, ValidBufs, InOrder, Pipeline, Live, CurrentIsEmpty, Unsent, Follows;
      FollowsWith(Pipeline(), 0, []);
      assert Pipeline()[0..] + [] == Pipeline() + [] == Pipeline();
      if !headerSent && outBufs != [] {
        rc := StartResponse();
        if rc.Fails() {
          return;
        }
      }
      if !headerSent {
        return Ok;
      }
      rc := PassOn();
    }

    /** The header goes first; nginx may refuse it. */
    method StartResponse() returns (rc: Rc)
      requires Valid()
      modifies `headerSent, nginx`refused, nginx`headed
      ensures Valid() && (old(InOrder()) ==> InOrder())
      ensures if rc.Fails() then nginx.refused && headerSent == old(headerSent)
              else headerSent && nginx.refused == old(nginx.refused)
    {
      hide ValidBufs, WholeAtoms, Content;
      rc := nginx.SendHeader();
      if !rc.Fails() {
        headerSent := true;
      }
    }

    /** The filter is called; if it fails, what was offered stays where it is. */
    method PassOn() returns (rc: Rc)
      requires Valid() && headerSent
      modifies `outBufs, `busyBufs, `freeBufs, `bufferedOutput, `outputBlocked, `sent, bufs,
               nginx`buffered, nginx`handed, nginx`held, nginx`refused, nginx`offers
      ensures Valid() && Stream() == old(Stream()) && old(sent) <= sent
      ensures old(InOrder()) ==> InOrder()
      ensures Follows(Pipeline(), old(Pipeline()))
      ensures if rc.Ok? then outBufs == [] && (busyBufs == [] || Unsent() > 0) else rc.Fails()
      ensures if rc.Fails() then nginx.refused else nginx.refused == old(nginx.refused)
      ensures old(nginx.offers) <= nginx.offers
      ensures nginx.offers > old(nginx.offers)
      ensures old(CurrentIsEmpty()) ==> CurrentIsEmpty()
      ensures |Live()| == old(|Live()|) && |busyBufs + outBufs| <= old(|busyBufs + outBufs|)
      ensures bufferedOutput <= old(bufferedOutput)
    {
      hide Distinct, Flat, Capacity, Waiting, ValidBufs, WholeAtoms, Pipeline, Live, CurrentIsEmpty, Unsent, Follows,
           Content;
      FollowsWith(Pipeline(), 0, []);
      assert Pipeline()[0..] + [] == Pipeline() + [] == Pipeline();
      rc := Filter();
      if rc.Fails() {
        return;
      }
      outputBlocked := rc == Again || nginx.buffered;
      Recycle();
      return Ok;
    }

    /** The last buffer of a response joins the chain before it is offered. */
    method OutputBufs() returns (rc: Rc)
      requires Valid()
      modifies `outBuf, `availOut, `outBufs, `busyBufs, `freeBufs, `bufferedOutput,
               `headerSent, `seenStreamEnd, `outputBlocked, `sent, bufs,
               nginx`buffered, nginx`handed, nginx`held, nginx`refused, nginx`headed, nginx`offers
      ensures Valid()
      ensures Stream() == old(Stream()) && old(sent) <= sent
      ensures old(InOrder()) ==> InOrder()
      ensures Follows(Pipeline(), old(Pipeline()))
      ensures !headerSent ==> sent == old(sent) && busyBufs == []
      ensures rc.Ok? || rc.Fails()
      ensures if rc.Fails() then nginx.refused else nginx.refused == old(nginx.refused)
      ensures old(nginx.offers) <= nginx.offers
      ensures old(headerSent) || (rc.Ok? && headerSent) ==> nginx.offers > old(nginx.offers)
      ensures old(!headerSent && outBufs == [] && CurrentIsEmpty()) ==> rc.Ok? && !headerSent
      ensures rc.Ok? ==> outBufs == [] && !seenStreamEnd
      ensures seenStreamEnd ==> old(seenStreamEnd)
      ensures (old(seenStreamEnd) && rc.Ok?) || old(CurrentIsEmpty()) ==> CurrentIsEmpty()
      ensures |Live()| == old(|Live()|)
      ensures |busyBufs + outBufs|
           <= old(|busyBufs + outBufs|) + if old(seenStreamEnd && !CurrentIsEmpty()) then 1 else 0
      ensures !old(seenStreamEnd) ==> bufferedOutput <= old(bufferedOutput)
      ensures rc.Ok? && (old(headerSent) || old(outBufs) != []) ==> headerSent
      ensures rc.Ok? ==> busyBufs == [] || Unsent() > 0
    {
      hide Distinct, Flat, Capacity, Waiting, ValidBufs, InOrder, Follows, Pipeline, Live;
      if seenStreamEnd {
        seenStreamEnd := false;
        QueueBuf();
      }
      rc := OfferChain();
    }

    lemma FirstFree()
      requires ValidBufs() && freeBufs != []
      ensures var b, live := freeBufs[0], Pipeline() + freeBufs[1..];
              && b in Live() && Distinct(live)
              && (forall c | c in live :: c in Live() && c != b && c.data != b.data)
              && (outBuf != null ==> outBuf in live)
    {
      hide Distinct;
      var b, p := freeBufs[0], Pipeline();
      assert Live() == p + [b] + freeBufs[1..];
      assert b in Live();
      DistinctRemove(p, b, freeBufs[1..]);
      assert outBuf != null ==> p[|p| - 1] == outBuf;
    }

    /** Takes the first buffer off the free list. */
    method PopFree() returns (b: Buf)
      requires Valid() && freeBufs != []
      modifies `freeBufs, `bufs, `mem
      ensures Valid() && Stream() == old(Stream())
      ensures old(InOrder()) ==> InOrder()
      ensures freeBufs == old(freeBufs)[1..] && b == old(freeBufs)[0]
      ensures bufs == old(bufs) - {b} && mem == old(mem) - {b.data} && b in old(bufs) && b.data in old(mem)
    {
      hide Flat, Distinct, WholeAtoms, Agreed, Capacity, InOrder;
      InOrderIs();
      b := freeBufs[0];
      ghost var live := Pipeline() + freeBufs[1..];
      FirstFree();
      freeBufs := freeBufs[1..];
      bufs, mem := bufs - {b}, mem - {b.data};
      assert Live() == live;
      assert Owned(live);
      FewerWhole();
      InOrderIs();
    }

    /** Empties a buffer, giving it more memory if it is too small. */
    method Rewind(b: Buf, size: nat)
      modifies b
      ensures b.Valid() && b.pos == b.last == 0 && b.atoms == []
      ensures old(b.data.Length) >= size ==> b.data == old(b.data)
      ensures b.data.Length >= size && (b.data == old(b.data) || (fresh(b.data) && b.data.Length == size))
    {
      if b.data.Length < size {
        b.data := new Byte[size];
      }
      b.pos := 0;
      b.last := 0;
      b.atoms := [];
    }

    /** Makes an empty buffer of its own memory the current one. */
    method Adopt(b: Buf)
      requires Valid() && CurrentIsEmpty()
      requires b !in bufs && b.data !in mem
      requires b.Valid() && b.pos == b.last == 0 && b.atoms == [] && b.data.Length >= bufSize
      modifies `outBuf, `availOut, `bufs, `mem
      ensures Valid() && Stream() == old(Stream())
      ensures old(InOrder()) ==> InOrder()
      ensures outBuf == b && bufs == old(bufs) + {b} && mem == old(mem) + {b.data}
      ensures availOut == b.data.Length && |Live()| == |busyBufs + outBufs| + 1 + |freeBufs|
    {
      DropEmptyCurrent();
      InsertCurrent(b);
    }

    /** An empty current buffer that is about to be replaced is in no list afterwards. */
    method DropEmptyCurrent()
      requires Valid() && CurrentIsEmpty()
      modifies `outBuf, `availOut
      ensures Valid() && Stream() == old(Stream()) && outBuf == null
      ensures old(InOrder()) ==> InOrder()
    {
      hide Flat, Distinct, WholeAtoms, Agreed, Capacity, InOrder;
      InOrderIs();
      if outBuf != null {
        ghost var chain := busyBufs + outBufs;
        ChainApart();
        FlatOfEmpty(outBuf);
        DistinctRemove(chain, outBuf, freeBufs);
        assert forall c | c in chain + freeBufs :: c in Live();
        outBuf := null;
        availOut := 0;
        assert Pipeline() == chain && Live() == chain + freeBufs;
        assert Waiting() == Flat(chain);
      FewerWhole();
      }
      InOrderIs();
    }

    method InsertCurrent(b: Buf)
      requires Valid() && outBuf == null
      requires b !in bufs && b.data !in mem
      requires b.Valid() && b.pos == b.last == 0 && b.atoms == [] && b.data.Length >= bufSize
      modifies `outBuf, `availOut, `bufs, `mem
      ensures Valid() && Stream() == old(Stream())
      ensures old(InOrder()) ==> InOrder()
      ensures outBuf == b && availOut == b.data.Length
      ensures bufs == old(bufs) + {b} && mem == old(mem) + {b.data}
    {
      hide Flat, Distinct, Capacity;
      ghost var chain := busyBufs + outBufs;
      assert Live() == chain + freeBufs && Pipeline() == chain;
      DistinctInsert(chain, b, freeBufs);
      FlatConcat(chain, [b]);
      FlatOfEmpty(b);
      outBuf := b;
      availOut := b.data.Length - b.last;
      bufs, mem := bufs + {b}, mem + {b.data};
      assert Live() == chain + [b] + freeBufs;
    }

    /** A recycled buffer if there is one, otherwise a new one. */
    method TakeBuffer(size: nat) returns (b: Buf)
      requires Valid() && size >= bufSize
      modifies `freeBufs, `bufs, `mem, bufs
      ensures Valid() && Stream() == old(Stream()) && CurrentIsEmpty() == old(CurrentIsEmpty())
      ensures b !in bufs && b.data !in mem && b.Valid() && b.pos == b.last == 0 && b.atoms == []
      ensures b.data.Length >= size && (b !in old(bufs) ==> freeBufs == [])
      ensures b.data !in old(mem) ==> b.data.Length == size
      ensures old(InOrder()) ==> InOrder()
      ensures (b in old(bufs) || fresh(b)) && (b.data in old(mem) || fresh(b.data))
      ensures bufs <= old(bufs) && mem <= old(mem)
      ensures |freeBufs| == if old(freeBufs) == [] then 0 else old(|freeBufs|) - 1
    {
      hide Distinct, Flat, Capacity, Waiting;
      assert outBuf != null ==> outBuf in Live();
      if freeBufs != [] {
        b := PopFree();
        assert outBuf != null ==> outBuf in Live();
        Rewind(b, size);
      } else {
        b := new Buf(size);
      }
    }

    lemma LiveCount()
      ensures |Live()| == |busyBufs + outBufs| + |Current()| + |freeBufs|
    {
    }

    lemma RoomIsCounted()
      requires Valid() && outBuf != null
      ensures availOut == outBuf.data.Length - outBuf.last && bufSize > 0 && outBuf in bufs && outBuf.data in mem
    {
    }

    /** Makes room for `len` bytes in the current buffer. */
    method RequestMem(len: nat) returns (ok: bool)
      requires Valid()
      modifies `outBuf, `availOut, `outBufs, `busyBufs, `freeBufs, `bufferedOutput,
               `headerSent, `seenStreamEnd, `outputBlocked, `sent, `bufs, `mem, bufs,
               nginx`buffered, nginx`handed, nginx`held, nginx`refused, nginx`headed, nginx`offers
      ensures Valid() && Grown()
      ensures Stream() == old(Stream()) && old(sent) <= sent
      ensures old(InOrder()) ==> InOrder()
      ensures seenStreamEnd ==> old(seenStreamEnd)
      ensures nginx.refused == (old(nginx.refused) || !ok) && nginx.Asked()
      ensures old(outBuf != null && availOut >= len) ==> ok && unchanged(this) && unchanged(nginx)
      ensures ok && outBuf !in old(bufs) ==> freeBufs == []  // consumed buffers are used first
      ensures ok ==> outBuf != null && availOut >= len && outBuf.last + len <= outBuf.data.Length
      ensures ok && outBuf.data !in old(mem) ==> outBuf.data.Length == if len < bufSize then bufSize else len
      ensures |Live()| <= old(|Live()|) || |Live()| <= old(|busyBufs + outBufs|) + 2
    {
      hide Valid, Stream, Pipeline, InOrder, Live, Follows, NewestEndsWith;
      if outBuf != null && availOut >= len {
        RoomIsCounted();
        return true;
      }
      QueueBuf();
      var rc := OutputBufs();
      if rc != Ok {
        return false;
      }
      var size := if len < bufSize then bufSize else len;
      NewCurrent(size);
      return true;
    }

    /** An empty buffer of at least this size becomes the current one. */
    method NewCurrent(size: nat)
      requires Valid() && CurrentIsEmpty() && size >= bufSize
      modifies `outBuf, `availOut, `freeBufs, `bufs, `mem, bufs
      ensures Valid() && Grown()
      ensures Stream() == old(Stream())
      ensures old(InOrder()) ==> InOrder()
      ensures outBuf != null && availOut == outBuf.data.Length - outBuf.last && availOut >= size
      ensures outBuf !in old(bufs) ==> freeBufs == []
      ensures outBuf.data !in old(mem) ==> outBuf.data.Length == size
      ensures |Live()| <= old(|Live()|) || |Live()| <= old(|busyBufs + outBufs|) + 1
    {
      hide Valid, Stream, Pipeline, InOrder;
      LiveCount();
      var b := TakeBuffer(size);
      Adopt(b);
    }

    /** The bytes written behind the current buffer's end and not yet submitted. */
    ghost function Scratch(to: nat): seq<Byte>
      requires outBuf != null && outBuf.last <= to <= outBuf.data.Length
      reads `outBuf, outBuf, outBuf.data
    {
      outBuf.data[outBuf.last..to]
    }

    lemma OwnMemory()
      requires ValidBufs()
      ensures outBuf != null ==> forall b | b in Live() && b != outBuf :: b.data != outBuf.data
    {
    }

    /** Copies bytes to an address inside the room that was requested. */
    method Put(at: nat, bytes: seq<Byte>) returns (last: nat)
      requires Valid() && outBuf != null
      requires outBuf.last <= at && at + |bytes| <= outBuf.data.Length
      modifies mem
      ensures Valid() && Stream() == old(Stream())
      ensures old(InOrder()) ==> InOrder()
      ensures last == at + |bytes| && Scratch(last) == old(Scratch(at)) + bytes
    {
      hide Distinct, Flat, Capacity, WholeAtoms, Agreed, InOrder;
      InOrderIs();
      assert outBuf in Live() && outBuf.data in mem;
      ghost var chain, current := busyBufs + outBufs, [outBuf];
      assert forall b | b in chain :: b in Live();
      ChainApart();
      FlatOfOne(outBuf);
      OwnMemory();
      WriteAll(outBuf.data, at, bytes);
      last := at + |bytes|;
      FlatOfOne(outBuf);
      assert outBuf.data[..outBuf.last] == old(outBuf.data[..outBuf.last]);
      assert Flat(chain) == old(Flat(chain));
      ChainApart();
      assert forall i :: 0 <= i < outBuf.last ==> outBuf.data[..outBuf.last][i] == outBuf.data[i];
      StillWhole();
      InOrderIs();
    }

    method PutPrologue(at: nat) returns (last: nat)
      requires Valid() && outBuf != null
      requires outBuf.last <= at && at + 6 <= outBuf.data.Length
      modifies mem
      ensures Valid() && Stream() == old(Stream())
      ensures old(InOrder()) ==> InOrder()
      ensures last == at + 6 && Scratch(last) == old(Scratch(at)) + PrologueBytes(enc.endian)
    {
      hide Valid, Stream, InOrder, Int;
      last := Put(at, U8(EndianByte(enc.endian)));
      last := Put(last, Fixed32(enc.endian, VERSION));
      last := Put(last, U8(0));
    }

    method PutStatus(at: nat, h: Header) returns (last: nat)
      requires Valid() && outBuf != null
      requires outBuf.last <= at && at + 6 + |Clip16(h.error)| <= outBuf.data.Length
      modifies mem
      ensures Valid() && Stream() == old(Stream())
      ensures old(InOrder()) ==> InOrder()
      ensures last == at + 6 + |Clip16(h.error)|
      ensures Scratch(last) == old(Scratch(at)) + StatusBytes(enc.endian, h)
    {
      hide Valid, Stream, InOrder, Int;
      var text := Clip16(h.error);
      last := Put(at, Fixed16(enc.endian, h.errcode));
      last := Put(last, Fixed16(enc.endian, h.errcode));
      last := Put(last, Fixed16(enc.endian, |h.error|));
      if text != [] {
        last := Put(last, text);
      }
    }

    method PutCounts(at: nat, h: Header, columnCount: U16) returns (last: nat)
      requires Valid() && outBuf != null
      requires outBuf.last <= at && at + 18 <= outBuf.data.Length
      modifies mem
      ensures Valid() && Stream() == old(Stream())
      ensures old(InOrder()) ==> InOrder()
      ensures last == at + 18 && Scratch(last) == old(Scratch(at)) + CountsBytes(enc.endian, h, columnCount)
    {
      hide Valid, Stream, InOrder, Int;
      last := Put(at, Fixed64(enc.endian, h.affected));
      last := Put(last, Fixed64(enc.endian, h.insertId));
      last := Put(last, Fixed16(enc.endian, columnCount));
    }

    method PutHeader(at: nat, h: Header, columnCount: U16) returns (last: nat)
      requires Valid() && outBuf != null
      requires outBuf.last <= at && at + 30 + |Clip16(h.error)| <= outBuf.data.Length
      modifies mem
      ensures Valid() && Stream() == old(Stream())
      ensures old(InOrder()) ==> InOrder()
      ensures last == at + 30 + |Clip16(h.error)|
      ensures Scratch(last) == old(Scratch(at)) + HeaderAtom(enc, h, columnCount)
    {
      hide Valid, Stream, InOrder, PrologueBytes, StatusBytes, CountsBytes;
      last := PutPrologue(at);
      last := PutStatus(last, h);
      last := PutCounts(last, h, columnCount);
    }

    method PutColumn(at: nat, col: Column) returns (last: nat)
      requires Valid() && outBuf != null
      requires outBuf.last <= at && at + 6 + |Clip16(col.name)| <= outBuf.data.Length
      modifies mem
      ensures Valid() && Stream() == old(Stream())
      ensures old(InOrder()) ==> InOrder()
      ensures last == at + 6 + |Clip16(col.name)|
      ensures Scratch(last) == old(Scratch(at)) + ColumnAtom(enc, col)
    {
      hide Valid, Stream, InOrder, Int;
      last := Put(at, Fixed16(enc.endian, enc.std(col.code)));
      last := Put(last, Fixed16(enc.endian, col.code));
      last := Put(last, Fixed16(enc.endian, |col.name|));
      last := Put(last, Clip16(col.name));
    }

    method PutChunk(at: nat, chunk: Chunk) returns (last: nat)
      requires Valid() && outBuf != null && chunk.Valid()
      requires outBuf.last <= at && at + |ChunkAtom(enc.endian, chunk)| <= outBuf.data.Length
      modifies mem
      ensures Valid() && Stream() == old(Stream())
      ensures old(InOrder()) ==> InOrder()
      ensures last == at + |ChunkAtom(enc.endian, chunk)|
      ensures Scratch(last) == old(Scratch(at)) + ChunkAtom(enc.endian, chunk)
    {
      hide Valid, Stream, InOrder, Int;
      last := at;
      if chunk.offset == 0 {
        last := Put(last, Fixed32(enc.endian, if chunk.data.None? then NULL_LENGTH else chunk.total));
      }
      if chunk.len != 0 && chunk.data.Some? {
        last := Put(last, chunk.data.value[..chunk.len % 0x1_0000_0000]);
      }
    }

    /** The newest buffer ends with these bytes, none of them elsewhere. */
    ghost predicate NewestEndsWith(atom: seq<Byte>)
      requires ValidBufs()
      reads `busyBufs, `outBufs, `outBuf, `freeBufs, `availOut, `bufs, `mem, bufs, mem
    {
      && Pipeline() != []
      && var b := Pipeline()[|Pipeline()| - 1];
         b in Live() && |atom| <= |b.Bytes()| && b.Bytes()[|b.Bytes()| - |atom|..] == atom
    }

    /** The current buffer grows by what was written behind its end. */
    method Advance(len: nat, ghost atom: seq<Byte>)
      requires Valid() && outBuf != null && len <= availOut && Scratch(outBuf.last + len) == atom
      modifies `availOut, `latestAtom, `written, bufs`last, bufs`atoms
      ensures Valid() && Stream() == old(Stream()) + atom && written == old(written) + [atom]
      ensures old(InOrder()) ==> InOrder()
      ensures outBuf.last == old(outBuf.last) + len && latestAtom == len
      ensures outBuf == old(outBuf) && availOut == old(availOut) - len && outBufs == old(outBufs)
    {
      hide ValidBufs, Capacity, Waiting, InOrder, Flat, Distinct;
      ChainApart();
      WaitingSplits();
      MoveEnd(len, atom);
      latestAtom := len;
      assert forall b | b in busyBufs + outBufs :: b in Live();
      ChainKept();
      WaitingSplits();
      Regroup(sent, Flat(busyBufs + outBufs), old(outBuf.Bytes()), atom);
    }

    lemma Regroup(a: seq<Byte>, b: seq<Byte>, c: seq<Byte>, d: seq<Byte>)
      ensures a + (b + (c + d)) == a + (b + c) + d
    {
    }

    twostate lemma ChainKept()
      requires busyBufs == old(busyBufs) && outBufs == old(outBufs) && old(AllValid(busyBufs + outBufs))
      requires forall b | b in busyBufs + outBufs :: unchanged(b) && unchanged(b.data)
      ensures AllValid(busyBufs + outBufs) && Flat(busyBufs + outBufs) == old(Flat(busyBufs + outBufs))
    {
      FlatKept(busyBufs + outBufs);
    }

    method MoveEnd(len: nat, ghost atom: seq<Byte>)
      requires Valid() && outBuf != null && len <= availOut && Scratch(outBuf.last + len) == atom
      modifies `availOut, `written, bufs`last, bufs`atoms
      ensures Valid() && outBuf.last == old(outBuf.last) + len && written == old(written) + [atom]
      ensures availOut == old(availOut) - len
      ensures outBuf.Bytes() == old(outBuf.Bytes()) + atom
      ensures forall b | b in Live() && b != outBuf :: unchanged(b) && unchanged(b.data)
      ensures old(InOrder()) ==> InOrder()
    {
      hide Distinct, Flat, Capacity, WholeAtoms, Agreed, InOrder;
      InOrderIs();
      ChainApart();
      assert forall b | b in busyBufs :: b in busyBufs + outBufs;
      outBuf.last := outBuf.last + len;
      availOut := availOut - len;
      outBuf.atoms := outBuf.atoms + [atom];
      written := written + [atom];
      assert outBuf.data[..outBuf.last] == old(outBuf.data[..outBuf.last]) + atom;
      OneMoreAtom(atom);
      InOrderIs();
    }

    twostate lemma OneMoreAtom(atom: seq<Byte>)
      requires old(ValidBufs()) && ValidBufs() && Live() == old(Live()) && outBuf != null && outBuf == old(outBuf)
      requires written == old(written) + [atom] && outBuf.atoms == old(outBuf.atoms) + [atom]
      requires outBuf.data[..outBuf.last] == old(outBuf.data[..outBuf.last]) + atom
      requires forall b | b in Live() && b != outBuf ::
                 b.last == old(b.last) && b.data == old(b.data) && b.atoms == old(b.atoms) && unchanged(b.data)
      ensures old(WholeAtoms()) ==> WholeAtoms()
    {
      hide Distinct;
      forall b | b in Live() && old(WholeAtoms())
        ensures Whole(b, written)
      {
        assert old(Whole(b, written));
        assert (old(b.atoms) + [atom])[..|old(b.atoms)|] == old(b.atoms);
      }
    }

    lemma WaitingSplits()
      requires ValidBufs() && outBuf != null
      ensures AllValid(busyBufs + outBufs) && outBuf.Valid()
      ensures Waiting() == Flat(busyBufs + outBufs) + outBuf.Bytes()
    {
      hide Distinct, Flat;
      ChainApart();
      FlatOfOne(outBuf);
    }

    lemma CurrentIsNewest(n: nat)
      requires Valid() && outBuf != null && n <= outBuf.last
      ensures NewestEndsWith(outBuf.data[outBuf.last - n..outBuf.last])
    {
      hide Distinct, Flat, Capacity;
      assert Pipeline()[|Pipeline()| - 1] == outBuf;
    }

    /** Accepts the bytes that were written; a full buffer joins the chain. */
    method SubmitMem(len: nat, ghost atom: seq<Byte>)
      requires Valid() && outBuf != null && len <= availOut && Scratch(outBuf.last + len) == atom
      modifies `outBuf, `availOut, `outBufs, `bufferedOutput, `latestAtom, `written, bufs`last, bufs`atoms
      ensures Valid() && Stream() == old(Stream()) + atom && NewestEndsWith(atom)
      ensures written == old(written) + [atom]
      ensures old(InOrder()) ==> InOrder()
      ensures availOut == 0 ==> CurrentIsEmpty()  // a full buffer joins the chain, and only that
      ensures old(availOut) > len ==> outBuf == old(outBuf) && availOut == old(availOut) - len
      ensures latestAtom == len && |Live()| == old(|Live()|)
    {
      hide Valid, Stream, Pipeline, NewestEndsWith, InOrder;
      Advance(len, atom);
      CurrentIsNewest(len);
      if availOut == 0 {
        QueueBuf();
      }
    }

    /** The same for what may be the end of the stream. */
    method SubmitLast(len: nat, ghost atom: seq<Byte>, end: bool)
      requires Valid() && outBuf != null && len <= availOut && Scratch(outBuf.last + len) == atom
      modifies `seenStreamEnd,
               `outBuf, `availOut, `outBufs, `bufferedOutput, `latestAtom, `written, bufs`last, bufs`atoms
      ensures Valid() && Stream() == old(Stream()) + atom && NewestEndsWith(atom)
      ensures written == old(written) + [atom] && seenStreamEnd == (old(seenStreamEnd) || end)
      ensures old(InOrder()) ==> InOrder()
      ensures latestAtom == len && |Live()| == old(|Live()|)
    {
      hide Valid, Stream, Pipeline, NewestEndsWith, InOrder;
      if end {
        seenStreamEnd := true;
      }
      SubmitMem(len, atom);
    }

    /** What writing an atom does, whether or not it succeeds: bytes are only added,
        and the buffers in use stay bounded by those waiting plus two. */
    twostate predicate Grows()
      reads this, nginx, bufs, mem
    {
      && Valid()
      && Grown()
      && old(sent) <= sent
      && (old(Valid() && InOrder()) ==> InOrder())
      && nginx.Asked()
      && (|Live()| <= old(|Live()|) || |Live()| <= old(|busyBufs + outBufs|) + 2)
    }

    /** An atom was added to the stream, whole, inside one buffer. */
    twostate predicate Added(atom: seq<Byte>)
      requires old(Valid()) && Valid()
      reads this, nginx, bufs, mem
    {
      && Stream() == old(Stream()) + atom && NewestEndsWith(atom) && latestAtom == |atom|
      && written == old(written) + [atom]
    }

    twostate predicate Unchanged()
      requires old(Valid()) && Valid()
      reads this, nginx, bufs, mem
    {
      Stream() == old(Stream()) && latestAtom == old(latestAtom) && written == old(written)
    }

    method OutputHeader(h: Header, columnCount: U16) returns (rc: Rc)
      requires Valid()
      modifies this, nginx, bufs, mem
      ensures Grows() && rc in {Ok, Error}
      ensures rc == Ok ==> Added(HeaderAtom(enc, h, columnCount))
      ensures rc == Error ==> Unchanged()
      ensures nginx.refused == (old(nginx.refused) || rc == Error)
      ensures seenStreamEnd ==> old(seenStreamEnd) || columnCount == 0
      ensures rc == Ok && columnCount == 0 ==> seenStreamEnd
    {
      hide Valid, Live, Pipeline, Stream, NewestEndsWith, InOrder, HeaderAtom, ColumnAtom, Int, Clip16;
      var text := Clip16(h.error);
      var size := 1 + 4 + 1 + 2 + 2 + 2 + |text| + 8 + 8 + 2;
      var ok := RequestMem(size);
      if !ok {
        return Error;
      }
      FillHeader(h, columnCount, size);
      SubmitLast(size, HeaderAtom(enc, h, columnCount), columnCount == 0);
      return Ok;
    }

    method FillHeader(h: Header, columnCount: U16, size: nat)
      requires Valid() && outBuf != null && size == 30 + |Clip16(h.error)| && outBuf.last + size <= outBuf.data.Length
      modifies mem
      ensures Valid() && Stream() == old(Stream()) && (old(InOrder()) ==> InOrder())
      ensures Scratch(outBuf.last + size) == HeaderAtom(enc, h, columnCount)
    {
      hide Valid, Stream, InOrder, HeaderAtom, Clip16;
      var pos := outBuf.last;
      var last := PutHeader(pos, h, columnCount);
      assert last - pos == size;  // the size check of the source never fails
    }

    method OutputCol(col: Column) returns (rc: Rc)
      requires Valid()
      modifies this, nginx, bufs, mem
      ensures Grows() && rc in {Ok, Error}
      ensures rc == Ok ==> Added(ColumnAtom(enc, col))
      ensures rc == Error ==> Unchanged()
      ensures nginx.refused == (old(nginx.refused) || rc == Error)
      ensures seenStreamEnd ==> old(seenStreamEnd)
    {
      hide Valid, Live, Pipeline, Stream, NewestEndsWith, InOrder, HeaderAtom, ColumnAtom, Int, Clip16;
      var name := Clip16(col.name);
      var size := 2 + 2 + 2 + |name|;
      var ok := RequestMem(size);
      if !ok {
        return Error;
      }
      var pos := outBuf.last;
      var last := PutColumn(pos, col);
      assert last - pos == size;
      SubmitMem(size, ColumnAtom(enc, col));
      return Ok;
    }

    /** `row` is the number of the row, or zero after the last one. */
    method OutputRow(row: nat) returns (rc: Rc)
      requires Valid()
      modifies this, nginx, bufs, mem
      ensures Grows() && rc in {Ok, Error}
      ensures rc == Ok ==> Added(U8(if row != 0 then 1 else 0))
      ensures rc == Error ==> Unchanged()
      ensures nginx.refused == (old(nginx.refused) || rc == Error)
      ensures seenStreamEnd ==> old(seenStreamEnd) || row == 0
      ensures rc == Ok && row == 0 ==> seenStreamEnd
    {
      hide Valid, Live, Pipeline, Stream, NewestEndsWith, InOrder, HeaderAtom, ColumnAtom, Int, Clip16;
      var ok := RequestMem(1);
      if !ok {
        return Error;
      }
      var last := Put(outBuf.last, U8(if row != 0 then 1 else 0));
      SubmitLast(1, U8(if row != 0 then 1 else 0), row == 0);
      return Ok;
    }

    /** A field, or a piece of one, as the database library hands it over. */
    method OutputField(chunk: Chunk) returns (rc: Rc)
      requires Valid() && chunk.Valid()
      modifies this, nginx, bufs, mem
      ensures Grows() && rc in {Ok, Done, Error}
      ensures rc == Done <==> chunk.Stalled()
      ensures rc == Ok ==> Added(ChunkAtom(enc.endian, chunk))
      ensures rc != Ok ==> Unchanged()
      ensures rc != Error ==> nginx.refused == old(nginx.refused)
      ensures rc == Error ==> nginx.refused || (chunk.data.None? && chunk.len % 0x1_0000_0000 != 0)
      ensures seenStreamEnd ==> old(seenStreamEnd)
    {
      hide Valid, Live, Pipeline, Stream, NewestEndsWith, InOrder, HeaderAtom, ColumnAtom, Int, Clip16;
      var e := enc.endian;
      var size := 0;
      if chunk.offset == 0 {
        if chunk.len == 0 && chunk.total != 0 {
          return Done;
        }
        size := 4;
      }
      size := size + chunk.len % 0x1_0000_0000;
      var ok := RequestMem(size);
      if !ok {
        return Error;
      }
      var pos := outBuf.last;
      var last := PutChunk(pos, chunk);
      if last - pos != size {
        return Error;
      }
      SubmitMem(size, ChunkAtom(e, chunk));
      return Ok;
    }
  }
}
