/** Buffers on the heap, chains of them, and what nginx does with the chains that it is
    given. */
module Buffers {
  import opened Rds

  /** Return codes; Special stands for an HTTP status of 300 and above. */
  datatype Rc = Ok | Again | Done | Error | Special(status: nat) {
    predicate Fails() { Error? || Special? }
  }

  class Buf {
    var data: array<Byte>  // start..end
    var pos: nat
    var last: nat

    ghost var atoms: seq<seq<Byte>>  // what it was filled with since it was last emptied

    ghost predicate Valid()
      reads this
    {
      pos <= last <= data.Length
    }

    ghost function Bytes(): (s: seq<Byte>)
      requires Valid()
      reads this, data
      ensures |s| == last - pos
    {
      data[pos..last]
    }

    constructor (size: nat)
      ensures Valid() && pos == last == 0 && atoms == []
      ensures data.Length == size && fresh(data)
    {
      data := new Byte[size];
      pos, last, atoms := 0, 0, [];
    }
  }

  function Join(atoms: seq<seq<Byte>>): seq<Byte> {
    if atoms == [] then [] else Join(atoms[..|atoms| - 1]) + atoms[|atoms| - 1]
  }

  /** The buffer was filled with whole atoms, each of them one of these. */
  ghost predicate Whole(b: Buf, known: seq<seq<Byte>>)
    reads b`data, b`last, b`atoms, b.data
  {
    b.last <= b.data.Length && b.data[..b.last] == Join(b.atoms) && forall a | a in b.atoms :: a in known
  }

  lemma EmptyIsWhole(b: Buf, known: seq<seq<Byte>>)
    requires b.last == 0 && b.atoms == []
    ensures Whole(b, known)
  {
  }

  // --- chains of buffers ---

  ghost predicate NoDup(bs: seq<Buf>) {
    forall i, j :: 0 <= i < j < |bs| ==> bs[i] != bs[j]
  }

  /** No buffer occurs twice, and no two buffers share memory. */
  ghost predicate Distinct(bs: seq<Buf>)
    reads bs`data
  {
    NoDup(bs) && forall i, j :: 0 <= i < j < |bs| ==> bs[i].data != bs[j].data
  }

  ghost predicate AllValid(bs: seq<Buf>)
    reads bs
  {
    forall i :: 0 <= i < |bs| ==> bs[i].Valid()
  }

  ghost function Flat(bs: seq<Buf>): seq<Byte>
    requires AllValid(bs)
    reads bs, set b | b in bs :: b.data
  {
    if bs == [] then [] else bs[0].Bytes() + Flat(bs[1..])
  }

  /** The same for any chain. */
  ghost function Content(bs: seq<Buf>): seq<Byte>
    reads bs, set b | b in bs :: b.data
  {
    if AllValid(bs) then Flat(bs) else []
  }

  ghost function Capacity(bs: seq<Buf>): nat
    reads bs`data
  {
    if bs == [] then 0 else bs[0].data.Length + Capacity(bs[1..])
  }

  lemma {:induction false} FlatConcat(a: seq<Buf>, b: seq<Buf>)
    requires AllValid(a) && AllValid(b)
    ensures AllValid(a + b) && Flat(a + b) == Flat(a) + Flat(b)
  {
    if a == [] {
      assert a + b == b;
    } else {
      FlatConcat(a[1..], b);
      assert (a + b)[1..] == a[1..] + b;
    }
  }

  twostate lemma {:induction false} FlatKept(bs: seq<Buf>)
    requires old(AllValid(bs)) && forall b | b in bs :: unchanged(b) && unchanged(b.data)
    ensures AllValid(bs) && Flat(bs) == old(Flat(bs))
  {
    if bs != [] {
      assert forall b | b in bs[1..] :: b in bs;
      FlatKept(bs[1..]);
      assert bs[0] in bs && bs[0].Bytes() == old(bs[0].Bytes());
    }
  }

  lemma CapacityNone()
    ensures Capacity([]) == 0
  {
  }

  lemma CapacityOne(b: Buf)
    ensures Capacity([b]) == b.data.Length
  {
  }

  lemma {:induction false} CapacityConcat(a: seq<Buf>, b: seq<Buf>)
    ensures Capacity(a + b) == Capacity(a) + Capacity(b)
  {
    if a == [] {
      assert a + b == b;
    } else {
      CapacityConcat(a[1..], b);
      assert (a + b)[1..] == a[1..] + b;
    }
  }

  lemma CapacityTail(bs: seq<Buf>, n: nat)
    requires n <= |bs|
    ensures Capacity(bs[n..]) <= Capacity(bs)
  {
    CapacityConcat(bs[..n], bs[n..]);
    assert bs[..n] + bs[n..] == bs;
  }

  /** The accounted backlog is never less than the bytes really waiting. */
  lemma {:induction false} FlatFits(bs: seq<Buf>)
    requires AllValid(bs)
    ensures |Flat(bs)| <= Capacity(bs)
  {
    if bs != [] {
      FlatFits(bs[1..]);
    }
  }

  lemma {:induction false} CapacityCounts(bs: seq<Buf>, size: nat)
    requires forall i :: 0 <= i < |bs| ==> bs[i].data.Length >= size
    ensures Capacity(bs) >= |bs| * size
  {
    if bs != [] {
      CapacityCounts(bs[1..], size);
      assert |bs| * size == size + (|bs| - 1) * size;
    }
  }

  lemma DistinctNoDup(bs: seq<Buf>)
    requires Distinct(bs)
    ensures NoDup(bs)
  {
  }

  lemma DistinctRemove(xs: seq<Buf>, b: Buf, ys: seq<Buf>)
    requires Distinct(xs + [b] + ys)
    ensures Distinct(xs + ys) && b !in xs + ys
    ensures forall c | c in xs + ys :: c.data != b.data
  {
    var old', new' := xs + [b] + ys, xs + ys;
    assert old'[|xs|] == b;
    assert forall i :: 0 <= i < |xs| ==> new'[i] == old'[i];
    assert forall i :: |xs| <= i < |new'| ==> new'[i] == old'[i + 1];
  }

  lemma DistinctInsert(xs: seq<Buf>, b: Buf, ys: seq<Buf>)
    requires Distinct(xs + ys)
    requires forall c | c in xs + ys :: c != b && c.data != b.data
    ensures Distinct(xs + [b] + ys)
  {
    var old', new' := xs + ys, xs + [b] + ys;
    assert new'[|xs|] == b;
    assert forall i :: 0 <= i < |xs| ==> new'[i] == old'[i];
    assert forall i :: |xs| < i < |new'| ==> new'[i] == old'[i - 1];
    assert forall i :: 0 <= i < |old'| ==> old'[i] in old';
  }

  lemma FlatOfOne(b: Buf)
    requires b.Valid()
    ensures Flat([b]) == b.Bytes()
  {
    assert [b][1..] == [];
  }

  lemma FlatNothing()
    ensures Flat([]) == []
  {
  }

  lemma FlatOfEmpty(b: Buf)
    requires b.Valid() && b.pos == b.last
    ensures Flat([b]) == []
  {
    assert [b][1..] == [];
  }

  lemma NotBefore(bs: seq<Buf>, i: nat)
    requires NoDup(bs) && i < |bs|
    ensures bs[i] !in bs[..i]
  {
  }

  lemma FlatEmptyHead(b: Buf, xs: seq<Buf>)
    requires AllValid([b] + xs) && b.pos == b.last
    ensures AllValid(xs) && Flat([b] + xs) == Flat(xs)
  {
    assert forall i :: 0 <= i < |xs| ==> xs[i] == ([b] + xs)[i + 1];
    assert ([b] + xs)[1..] == xs;
  }

  lemma DistinctRotate(b: Buf, xs: seq<Buf>, ys: seq<Buf>)
    requires Distinct([b] + xs + ys)
    ensures Distinct(xs + ([b] + ys))
    ensures forall c :: c in xs + ([b] + ys) ==> c in [b] + xs + ys
  {
    var old', new' := [b] + xs + ys, xs + ([b] + ys);
    assert forall i :: 0 <= i < |xs| ==> new'[i] == old'[i + 1];
    assert new'[|xs|] == old'[0];
    assert forall i :: |xs| < i < |new'| ==> new'[i] == old'[i];
  }

  /** The client filter takes bytes off the front of a chain: how many is its own affair. */
  method ConsumeChain(chain: seq<Buf>) returns (ghost taken: seq<Byte>)
    requires AllValid(chain) && NoDup(chain)
    modifies chain`pos
    ensures AllValid(chain)
    ensures taken + Flat(chain) == old(Flat(chain))
    decreases |chain|
  {
    hide Flat;
    FlatUnfolds(chain);
    taken := [];
    if chain == [] {
      return;
    }
    var b, rest := chain[0], chain[1..];
    assert b !in rest;
    ghost var whole, later := b.Bytes(), Flat(rest);
    var n :| 0 <= n <= b.last - b.pos;
    b.pos := b.pos + n;
    taken := whole[..n];
    assert b.Bytes() == whole[n..];
    assert Flat(rest) == later;
    if b.pos == b.last {
      ghost var more := ConsumeChain(rest);
      assert b.Bytes() == [];
      taken := whole + more;
    }
    FlatUnfolds(chain);
  }

  lemma FlatUnfolds(bs: seq<Buf>)
    requires AllValid(bs)
    ensures Flat(bs) == if bs == [] then [] else bs[0].Bytes() + Flat(bs[1..])
  {
  }

  /** memcpy */
  method WriteAll(a: array<Byte>, at: nat, bytes: seq<Byte>)
    requires at + |bytes| <= a.Length
    modifies a
    ensures a[..] == old(a[..at]) + bytes + old(a[at + |bytes|..])
  {
    for i := 0 to |bytes|
      invariant forall k :: at <= k < at + i ==> a[k] == bytes[k - at]
      invariant forall k :: 0 <= k < at || at + i <= k < a.Length ==> a[k] == old(a[k])
    {
      a[at + i] := bytes[i];
    }
  }

  /** What nginx does on the client's side of one request, and what it remembers of it.
      It answers as it likes. */
  class Nginx {
    var buffered: bool           // bytes are held back on their way to the client
    var gone: bool               // the client's connection is broken
    ghost var handed: seq<Byte>  // what the filter was given, in order
    ghost var held: bool         // by its last answer the client takes no more for now
    ghost var headed: bool       // the response header was accepted
    ghost var refused: bool      // the header or the filter failed
    ghost var unwatched: bool    // an event could not be registered
    ghost var offers: nat        // calls of the filter

    constructor ()
      ensures handed == [] && !held && !headed && !refused && !unwatched && offers == 0
    {
      buffered, gone := false, false;
      handed, held, headed, refused, unwatched, offers := [], false, false, false, false, 0;
    }

    method SendHeader() returns (rc: Rc)
      modifies `refused, `headed
      ensures refused == (old(refused) || rc.Fails()) && headed == (old(headed) || !rc.Fails())
    {
      rc := *;
      refused, headed := refused || rc.Fails(), headed || !rc.Fails();
    }

    /** The output filter is given a chain, after those that it still has. It takes bytes
        off the front of them all. */
    method Filter(busy: seq<Buf>, chain: seq<Buf>) returns (rc: Rc, ghost taken: seq<Byte>)
      requires headed || refused  // no body without a header
      requires AllValid(busy + chain) && AllValid(chain) && NoDup(busy + chain)
      modifies `buffered, `handed, `held, `refused, `offers, busy`pos, chain`pos
      ensures AllValid(busy + chain) && taken + Flat(busy + chain) == old(Flat(busy + chain))
      ensures handed == old(handed + Flat(chain)) && offers == old(offers) + 1
      ensures held == (rc == Again || buffered) && refused == (old(refused) || rc.Fails())
    {
      hide Flat;
      handed := handed + Flat(chain);
      taken := ConsumeChain(busy + chain);
      rc := *;
      buffered := *;
      held, refused, offers := rc == Again || buffered, refused || rc.Fails(), offers + 1;
    }

    /** Is the client's connection broken? Once it is, it stays so. */
    method ClientGone() returns (yes: bool)
      modifies `gone
      ensures yes == gone && (old(gone) ==> gone)
    {
      var now: bool := *;
      gone := gone || now;
      return gone;
    }

    /** The client is found to have left. */
    method Leave()
      modifies `gone
      ensures gone
    {
      gone := true;
    }

    /** The filter may have been called, and nothing else. */
    twostate predicate Asked()
      reads this
    {
      gone == old(gone) && unwatched == old(unwatched) && (old(refused) ==> refused) && old(offers) <= offers
    }

    /** What has happened stays so. */
    twostate predicate Onward()
      reads this
    {
      && (old(gone) ==> gone) && (old(unwatched) ==> unwatched) && (old(refused) ==> refused)
      && old(offers) <= offers
    }

    /** Registers an event, or takes one back. */
    method Watch() returns (ok: bool)
      modifies `unwatched
      ensures unwatched == (old(unwatched) || !ok)
    {
      ok := *;
      unwatched := unwatched || !ok;
    }
  }
}
