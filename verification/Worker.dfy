/** One nginx worker process: one upstream with its pool, and any number of requests
    whose events interleave in any order. */
module Worker {
  import opened Wrappers
  import opened Rds
  import opened Buffers
  import opened Output
  import opened Database
  import opened Connection
  import opened SendPhase
  import opened Pool
  import opened Receiver
  import opened Request

  /** Two requests share nothing but the pool. */
  ghost predicate Apart(r: Request, s: Request)
    reads r.rx.out, s.rx.out
  {
    && r != s && r.rx != s.rx && r.rx.db != s.rx.db && r.rx.out != s.rx.out && r.rx.out.nginx != s.rx.out.nginx
    && r.rx.out.bufs !! s.rx.out.bufs && r.rx.out.mem !! s.rx.out.mem
  }

  /** What holds of a request between events, the pool left aside. */
  ghost predicate Resting(r: Request)
    reads r, r.rx, r.rx.db, r.rx.out, r.rx.out.nginx, r.rx.out.bufs, r.rx.out.mem
  {
    r.Local() && ((r.AtRest() && r.rx.out.outBufs == []) || r.Over()) && r.Justified()
  }

  /** What can be said of every request at any time between events. The client's filter
      was given a beginning of the right response; if the request ended well it was given
      all of it, unless it refused, and nothing full is kept back while the database is
      waited for. The memory in use is bounded and no atom is cut. No peer was tried
      twice, and a request that ended before any SQL had a reason to. All SQL went to one
      connection, each statement sent afresh at most once. */
  ghost predicate Sound(r: Request)
    reads r, r.rx, r.rx.db, r.rx.out, r.rx.out.nginx, r.rx.out.bufs, r.rx.out.mem
  {
    var out, nginx, res := r.rx.out, r.rx.out.nginx, r.rx.db.res;
    && out.Valid() && out.Stream() <= Encode(out.enc, res)
    && (nginx.refused || nginx.handed <= Encode(out.enc, res))
    && (r.statusN == OK_STATUS ==>
          && out.Stream() == Encode(out.enc, res)
          && (nginx.refused || (nginx.handed == Encode(out.enc, res) && r.HandedOver())))
    && (r.finalized == None ==> out.outBufs == [] && (nginx.refused || out.outputBlocked == nginx.held))
    && |out.Live()| <= (out.maxBuffered - 1) / out.bufSize + 2
    && out.WholeAtoms() && (forall a | a in out.written :: IsAtom(out.enc, res, a))
    && out.Unsent() < out.maxBuffered + out.latestAtom
    && Unrepeated(r.picks) && |r.picks| + r.remainingPeers == |r.pool.peers| && r.Justified()
    && |r.calls| == |r.log| && r.OnePlace()
    && Submitted(r.calls, r.log) <= (if r.namesDue then [SetNames, UserQuery] else [UserQuery])
  }

  lemma RestingIsSound(r: Request)
    requires Resting(r)
    ensures Sound(r)
  {
    hide Request.AtRest, Run, Output.Stream, Output.Live, Output.Unsent, Output.InOrder, Output.WholeAtoms,
         Output.Agreed, Encode, Prefix, IsAtom;
    StatementsOnce(r.namesDue, r.log);
    if r.calls != [] {
      SubmittedOnOne(r.namesDue, r.calls, r.log, r.contacts[|r.contacts| - 1]);
    }
    GivenSoFar(r.rx.out);
    r.rx.out.InOrderIs();
    if r.statusN == OK_STATUS {
      r.rx.AllWritten();
    }
    if r.finalized == None && !r.rx.out.nginx.refused {
      r.rx.FlagsAgree();
    }
  }

  /** What the filter was given is the front of what was written. */
  lemma GivenSoFar(out: Output)
    requires out.Valid() && out.InOrder()
    ensures out.nginx.refused || out.nginx.handed <= out.Stream()
  {
    hide Distinct, Flat, Capacity, Output.WholeAtoms;
    out.BusyIsValid();
    var rest := out.outBufs + out.Current();
    assert out.Pipeline() == out.busyBufs + rest;
    assert forall b | b in rest :: b in out.Live();
    FlatConcat(out.busyBufs, rest);
  }

  /** The open connections in the hands of these requests. */
  ghost function Held(rs: seq<Request>): set<nat>
    reads set r | r in rs :: r.rx
  {
    if rs == [] then {} else rs[0].Own() + Held(rs[1..])
  }

  ghost function LiveCount(rs: seq<Request>): nat
    reads set r | r in rs :: r.rx
  {
    if rs == [] then 0 else (if rs[0].rx.connection.Live? then 1 else 0) + LiveCount(rs[1..])
  }

  lemma {:induction false} HeldMember(rs: seq<Request>, i: nat)
    requires i < |rs|
    ensures rs[i].Own() <= Held(rs)
  {
    if i > 0 {
      HeldMember(rs[1..], i - 1);
    }
  }

  lemma {:induction false} HeldWitness(rs: seq<Request>, id: nat) returns (i: nat)
    requires id in Held(rs)
    ensures i < |rs| && id in rs[i].Own()
  {
    if id in rs[0].Own() {
      i := 0;
    } else {
      i := HeldWitness(rs[1..], id);
      i := i + 1;
    }
  }

  /** Connections that differ can be counted by the requests that hold them. */
  lemma {:induction false} HeldCount(rs: seq<Request>)
    requires forall i, j :: 0 <= i < j < |rs| ==> rs[i].Own() !! rs[j].Own()
    ensures |Held(rs)| == LiveCount(rs)
  {
    if rs != [] {
      HeldCount(rs[1..]);
      forall id | id in Held(rs[1..])
        ensures id !in rs[0].Own()
      {
        var j := HeldWitness(rs[1..], id);
        assert rs[j + 1] == rs[1..][j];
      }
      assert |rs[0].Own() + Held(rs[1..])| == |rs[0].Own()| + |Held(rs[1..])|;
    }
  }

  datatype Event =
    | Socket(broken: bool)
    | ReadTimer
    | WriteTimer
    | ClientReady(timedOut: bool, delayed: bool)
    | ClientGone

  /** A request to come: its settings, and the result its query will have. */
  datatype Job = Job(enc: Encoding, bufSize: nat, maxBuffered: nat, res: ResultSet,
                     connectTimeout: nat, sendTimeout: nat, recvColsTimeout: nat, recvRowsTimeout: nat)
  {
    ghost predicate Valid() { 0 < bufSize <= maxBuffered && res.Valid() }
  }

  /** How many requests a script brings. */
  function Arrivals(script: seq<(Step, int)>): nat {
    if script == [] then 0
    else Arrivals(script[..|script| - 1]) + if script[|script| - 1].0.Arrival? then 1 else 0
  }

  datatype Step = Arrival(job: Job) | OfRequest(k: nat, e: Event) | OfPool(id: nat, stale: bool)

  /** An event of a request, if it can occur where the request stands. */
  method Dispatch(r: Request, e: Event, now: int)
    requires r.Settled() && !r.rx.connection.Placeholder?
    modifies r, r.pool, r.pool.items, r.rx, r.rx.db, r.rx.out, r.rx.out.nginx, r.rx.out.bufs, r.rx.out.mem
    ensures r.Settled() && !r.rx.connection.Placeholder? && r.Progress()
    ensures old(r.rx.connection.Live?) ==> Served(r, e, now)
  {
    hide Request.Base, Request.InSend, Request.InReceive, Request.Connecting, Request.Justified, Request.LeftFor,
         Request.Started;
    if !r.rx.connection.Live? {
      return;
    }
    var c := r.rx.connection.conn;
    match e
    case Socket(broken) =>
      r.SocketEvent(now, broken);
    case ReadTimer =>
      if c.readTimer.Some? && now >= c.readTimer.value {
        r.ReadTimeout(now);
      }
    case WriteTimer =>
      if c.writeTimer.Some? && now >= c.writeTimer.value {
        r.WriteTimeout(now);
      }
    case ClientReady(timedOut, delayed) =>
      if r.rx.outputPaused {
        r.ClientWritable(now, timedOut, delayed);
      }
    case ClientGone =>
      r.ClientAborted();
  }

  /** The event was seen to: no event that can occur is ignored, and none other has effect. */
  twostate predicate Served(r: Request, e: Event, now: int)
    requires old(r.rx.connection.Live?)
    reads r, r.pool, r.rx, r.rx.db, r.rx.out, r.rx.out.nginx
  {
    var c := old(r.rx.connection.conn);
    match e
    case Socket(broken) =>
      if broken then r.LeftFor(ErrorReply)
      else if old(r.rx.outputPaused) then unchanged(r.rx.db) && r.rx.connection == old(r.rx.connection)
      else r.Over() || r.rx.outputPaused || r.Tried()
    case ReadTimer =>
      if c.readTimer.Some? && now >= c.readTimer.value then r.LeftFor(Timeout) else unchanged(r, r.rx, r.pool)
    case WriteTimer =>
      if c.writeTimer.Some? && now >= c.writeTimer.value then r.LeftFor(Timeout) else unchanged(r, r.rx, r.pool)
    case ClientReady(timedOut, delayed) =>
      if !old(r.rx.outputPaused) then unchanged(r, r.rx, r.pool)
      else if timedOut && !delayed then r.Over()
      else timedOut == delayed ==>
             r.rx.out.nginx.offers > old(r.rx.out.nginx.offers) && (r.Over() || r.rx.outputPaused || r.Tried())
    case ClientGone =>
      r.Over() && r.rx.out.nginx.gone
  }

  class Worker {
    const pool: Pool
    var requests: seq<Request>
    ghost var Repr: set<object>

    ghost predicate Inside(r: Request, objects: set<object>)
      reads r.rx.out
    {
      && r in objects && r.rx in objects && r.rx.db in objects && r.rx.out in objects && r.rx.out.nginx in objects
      && (forall b | b in r.rx.out.bufs :: b in objects) && (forall m | m in r.rx.out.mem :: m in objects)
    }

    /** Every open connection is in the pool or in the hands of exactly one request. */
    ghost predicate Accounted()
      reads `requests, pool`held, set r | r in requests :: r.rx
    {
      AccountedWith(requests)
    }

    ghost predicate AccountedWith(rs: seq<Request>)
      reads pool`held, set r | r in rs :: r.rx
    {
      && (forall i :: 0 <= i < |rs| ==> rs[i].Own() <= pool.held)
      && (forall i, j :: 0 <= i < j < |rs| ==> rs[i].Own() !! rs[j].Own())
      && (forall id | id in pool.held :: exists i :: 0 <= i < |rs| && id in rs[i].Own())
    }

    /** The requests share nothing but the pool. */
    ghost predicate Shape()
      reads `requests, `Repr, set r | r in requests :: r.rx.out
    {
      ShapeWithin(Repr)
    }

    ghost predicate ShapeWithin(objects: set<object>)
      reads `requests, set r | r in requests :: r.rx.out
    {
      && pool !in objects && pool.items !in objects && this !in objects
      && (forall i :: 0 <= i < |requests| ==> requests[i].pool == pool && Inside(requests[i], objects))
      && (forall i, j :: 0 <= i < |requests| && 0 <= j < |requests| && i != j ==> Apart(requests[i], requests[j]))
    }

    ghost predicate AllResting()
      reads *
    {
      forall i :: 0 <= i < |requests| ==> Resting(requests[i])
    }

    ghost predicate Valid()
      reads *
    {
      pool.Valid() && Shape() && AllResting() && Accounted()
    }

    constructor (pool: Pool)
      requires pool.Valid() && pool.held == {}
      ensures Valid() && this.pool == pool && requests == []
    {
      this.pool, requests, Repr := pool, [], {};
    }

    /** The count of connections is exact, and a refusing upstream keeps its limit. */
    lemma Conservation()
      requires Valid()
      ensures pool.activeConns == |pool.cache| + LiveCount(requests)
      ensures pool.Limited() ==> pool.activeConns <= pool.maxCached
    {
      hide Shape, AllResting, Partition;
      HeldCount(requests);
      HeldByAll();
    }

    lemma EveryRequest()
      requires Valid()
      ensures forall i :: 0 <= i < |requests| ==> Sound(requests[i])
    {
      hide Shape, Accounted, Resting, Sound;
      forall i | 0 <= i < |requests|
        ensures Sound(requests[i])
      {
        RestingIsSound(requests[i]);
      }
    }

    lemma HeldByAll()
      requires Accounted()
      ensures Held(requests) == pool.held
    {
      forall id | id in Held(requests)
        ensures id in pool.held
      {
        var i := HeldWitness(requests, id);
      }
      forall id | id in pool.held
        ensures id in Held(requests)
      {
        var i :| 0 <= i < |requests| && id in requests[i].Own();
        HeldMember(requests, i);
      }
    }

    /** An event of one request; all the others are untouched. */
    method Deliver(k: nat, e: Event, now: int)
      requires Valid() && k < |requests|
      modifies pool, pool.items, `Repr, Repr
      ensures Valid() && requests == old(requests) && fresh(Repr - old(Repr))
      ensures old(requests[k].rx.connection.Live?) ==> Served(requests[k], e, now)
      ensures forall j :: 0 <= j < |requests| && j != k ==> Untouched(requests[j])
    {
      hide Resting, Accounted, Pool.Valid, ShapeWithin, Served;
      OwnIsHeld(k);
      Isolated(k);
      var r := requests[k];
      DispatchOne(r, e, now);
      assert forall j :: 0 <= j < |requests| && j != k ==> old(Apart(r, requests[j]));
      StillResting(k);
      StillAccounted(k);
      StillShaped(k);
      Repr := Repr + r.rx.out.bufs + r.rx.out.mem;
    }

    /** Nothing of this request has changed. */
    twostate predicate Untouched(r: Request)
      reads r, r.rx, r.rx.db, r.rx.out, r.rx.out.nginx, r.rx.out.bufs, r.rx.out.mem
    {
      && unchanged(r) && unchanged(r.rx) && unchanged(r.rx.db) && unchanged(r.rx.out)
      && unchanged(r.rx.out.nginx)
      && unchanged(r.rx.out.bufs) && unchanged(r.rx.out.mem)
    }

    twostate lemma StillResting(k: nat)
      requires k < |requests| && requests == old(requests) && old(AllResting()) && Resting(requests[k])
      requires forall j :: 0 <= j < |requests| && j != k ==> Untouched(requests[j])
      ensures AllResting()
    {
      hide Resting;
      forall j | 0 <= j < |requests| && j != k
        ensures Resting(requests[j])
      {
        assert old(Resting(requests[j])) && Untouched(requests[j]);
      }
    }

    twostate lemma StillShaped(k: nat)
      requires k < |requests| && requests == old(requests) && Repr == old(Repr) && old(Shape())
      requires forall j :: 0 <= j < |requests| && j != k ==> unchanged(requests[j].rx.out)
      requires var out := requests[k].rx.out; out.Grown()
      ensures ShapeWithin(Repr + requests[k].rx.out.bufs + requests[k].rx.out.mem)
    {
    }

    lemma OwnIsHeld(k: nat)
      requires Accounted() && k < |requests|
      ensures requests[k].Own() <= pool.held
    {
    }

    lemma Isolated(k: nat)
      requires Shape() && k < |requests|
      ensures var r := requests[k];
              && r.pool == pool && Inside(r, Repr) && pool !in Repr && pool.items !in Repr && this !in Repr
              && forall j :: 0 <= j < |requests| && j != k ==> Apart(r, requests[j]) && Inside(requests[j], Repr)
    {
    }

    /** The step, seen from the outside. */
    method DispatchOne(r: Request, e: Event, now: int)
      requires r.pool == pool && pool.Valid() && Resting(r) && r.Own() <= pool.held
      modifies r, pool, pool.items, r.rx, r.rx.db, r.rx.out, r.rx.out.nginx, r.rx.out.bufs, r.rx.out.mem
      ensures old(r.rx.connection.Live?) ==> Served(r, e, now)
      ensures pool.Valid() && Resting(r) && r.Own() <= pool.held
      ensures pool.held - r.Own() == old(pool.held - r.Own())
      ensures r.rx.out.Grown()
    {
      hide Request.Local, Request.Connecting, Request.InSend, Request.InReceive, Pool.Valid, Served;
      Dispatch(r, e, now);
    }

    twostate lemma StillAccounted(k: nat)
      requires k < |requests| && requests == old(requests) && old(Accounted())
      requires forall j :: 0 <= j < |requests| && j != k ==> requests[j].Own() == old(requests[j].Own())
      requires requests[k].Own() <= pool.held
      requires pool.held - requests[k].Own() == old(pool.held - requests[k].Own())
      ensures Accounted()
    {
      forall id | id in pool.held
        ensures exists i :: 0 <= i < |requests| && id in requests[i].Own()
      {
        if id !in requests[k].Own() {
          assert id in pool.held - requests[k].Own();
          var i :| 0 <= i < |old(requests)| && id in old(requests[i].Own());
          assert id in requests[i].Own();
        }
      }
      assert forall j :: 0 <= j < |requests| && j != k ==> old(requests[j].Own()) <= old(pool.held - requests[k].Own());
    }

    /** A new request arrives and is started. */
    method Accept(r: Request, now: int)
      requires Valid() && r.pool == pool && r.Base() && r.Looking()
      requires Newcomer(r)
      modifies `requests, `Repr, pool, pool.items, r, r.rx, r.rx.db, r.rx.out, r.rx.out.nginx, r.rx.out.bufs,
               r.rx.out.mem
      ensures Valid() && requests == old(requests) + [r]
      ensures Repr == old(Repr) + {r, r.rx, r.rx.db, r.rx.out, r.rx.out.nginx} + r.rx.out.bufs + r.rx.out.mem
      ensures r.rx.out.Grown()
      ensures forall j :: 0 <= j < |old(requests)| ==> Untouched(old(requests)[j])
    {
      hide Resting, AccountedWith, Pool.Valid, Request.Base, Request.Looking;
      HandleOne(r, now);
      StillRestingAll();
      JoinAccounts(r);
      Enlist(r);
    }

    method Enlist(r: Request)
      requires pool.Valid() && Shape() && AllResting() && AccountedWith(requests + [r])
      requires r.pool == pool && Resting(r) && Newcomer(r)
      modifies `requests, `Repr
      ensures Valid() && requests == old(requests) + [r]
      ensures Repr == old(Repr) + {r, r.rx, r.rx.db, r.rx.out, r.rx.out.nginx} + r.rx.out.bufs + r.rx.out.mem
    {
      hide Resting, AccountedWith, Pool.Valid;
      requests := requests + [r];
      Repr := Repr + {r, r.rx, r.rx.db, r.rx.out, r.rx.out.nginx} + r.rx.out.bufs + r.rx.out.mem;
    }

    /** A request that shares nothing with those already there. */
    ghost predicate Newcomer(r: Request)
      reads `requests, `Repr, r.rx.out, set s | s in requests :: s.rx.out
    {
      && {r, r.rx, r.rx.db, r.rx.out, r.rx.out.nginx} !! Repr
      && (forall b | b in r.rx.out.bufs :: b !in Repr) && (forall m | m in r.rx.out.mem :: m !in Repr)
    }

    method HandleOne(r: Request, now: int)
      requires r.pool == pool && r.Base() && r.Looking()
      modifies pool, pool.items, r, r.rx, r.rx.db, r.rx.out, r.rx.out.nginx, r.rx.out.bufs, r.rx.out.mem
      ensures pool.Valid() && Resting(r) && r.Own() <= pool.held
      ensures pool.held - r.Own() == old(pool.held)
      ensures r.rx.out.Grown()
    {
      hide Request.Local, Request.Connecting, Request.InSend, Request.InReceive, Pool.Valid;
      r.Handle(now);
    }

    twostate lemma StillRestingAll()
      requires requests == old(requests) && old(AllResting())
      requires forall j :: 0 <= j < |requests| ==> Untouched(requests[j])
      ensures AllResting()
    {
      hide Resting;
      forall j | 0 <= j < |requests|
        ensures Resting(requests[j])
      {
        assert old(Resting(requests[j])) && Untouched(requests[j]);
      }
    }

    twostate lemma JoinAccounts(new r: Request)
      requires requests == old(requests) && old(Accounted())
      requires forall j :: 0 <= j < |requests| ==> requests[j].Own() == old(requests[j].Own())
      requires r.Own() <= pool.held && pool.held - r.Own() == old(pool.held)
      ensures AccountedWith(requests + [r])
    {
      var rs := requests + [r];
      assert forall j :: 0 <= j < |requests| ==> rs[j] == requests[j] && rs[j].Own() <= old(pool.held);
      assert rs[|requests|] == r;
      forall id | id in pool.held
        ensures exists i :: 0 <= i < |rs| && id in rs[i].Own()
      {
        if id in r.Own() {
          assert id in rs[|requests|].Own();
        } else {
          assert id in pool.held - r.Own();
          var i :| 0 <= i < |old(requests)| && id in old(requests[i].Own());
          assert id in rs[i].Own();
        }
      }
    }

    /** A connection that waits in the pool is closed, by its server or by nginx. */
    method IdleClosed(id: nat, stale: bool)
      requires Valid() && id in pool.owner
      modifies pool
      ensures Valid() && pool.held == old(pool.held)
      ensures stale ==> pool.Stack() == old(pool.Stack()) && pool.activeConns == old(pool.activeConns)
      ensures !stale ==> id !in pool.owner && id in pool.closed && pool.activeConns == old(pool.activeConns) - 1
    {
      hide Resting, AccountedWith, Partition;
      ghost var k := pool.CloseIdle(id, stale);
      StillRestingAll();
      StillAllAccounted();
    }

    twostate lemma StillAllAccounted()
      requires requests == old(requests) && old(Accounted()) && pool.held == old(pool.held)
      requires forall j :: 0 <= j < |requests| ==> requests[j].Own() == old(requests[j].Own())
      ensures Accounted()
    {
      forall id | id in pool.held
        ensures exists i :: 0 <= i < |requests| && id in requests[i].Own()
      {
        var i :| 0 <= i < |old(requests)| && id in old(requests[i].Own());
        assert id in requests[i].Own();
      }
    }

    /** A request for this job is made and started. */
    method Admit(job: Job, now: int)
      requires Valid() && job.Valid()
      modifies `requests, `Repr, pool, pool.items
      ensures Valid() && fresh(Repr - old(Repr))
      ensures |requests| == |old(requests)| + 1 && old(requests) <= requests
    {
      hide AllResting, Accounted, Pool.Valid, Request.Base, Request.Looking, ShapeWithin;
      var r := Prepare(job);
      Accept(r, now);
    }

    method Prepare(job: Job) returns (r: Request)
      requires pool.Valid() && job.Valid()
      ensures r.pool == pool && r.Base() && r.Looking()
      ensures fresh(r) && fresh(r.rx) && fresh(r.rx.db) && fresh(r.rx.out) && fresh(r.rx.out.nginx)
      ensures r.rx.out.bufs == {} && r.rx.out.mem == {}
    {
      hide Pool.Valid, Request.Base, Receiver.Valid, Receiver.Unwritten;
      var rx := PrepareReceiver(job);
      r := new Request(pool, rx, job.connectTimeout, job.sendTimeout);
    }

    method PrepareReceiver(job: Job) returns (rx: Receiver)
      requires job.Valid()
      ensures rx.Valid() && rx.Unwritten() && rx.connection == NoConn && rx.state == Connect
      ensures fresh(rx) && fresh(rx.db) && fresh(rx.out) && fresh(rx.out.nginx)
      ensures rx.out.bufs == {} && rx.out.mem == {}
    {
      hide Receiver.Valid, Receiver.Unwritten, Output.Valid, Output.InOrder;
      var nginx := new Nginx();
      var db := new Reader(job.res);
      var out := new Output(nginx, job.enc, job.bufSize, job.maxBuffered);
      rx := new Receiver(out, db, job.recvColsTimeout, job.recvRowsTimeout);
    }

    /** One thing that can happen. What cannot happen where the worker stands is passed over. */
    method Take(step: Step, now: int)
      requires Valid() && (step.Arrival? ==> step.job.Valid())
      modifies `requests, `Repr, Repr, pool, pool.items
      ensures Valid() && fresh(Repr - old(Repr))
      ensures old(requests) <= requests && |requests| == |old(requests)| + if step.Arrival? then 1 else 0
      ensures match step
              case Arrival(_) => true
              case OfRequest(k, e) =>
                k < |old(requests)| && old(requests[k].rx.connection.Live?) ==> Served(requests[k], e, now)
              case OfPool(id, stale) =>
                old(id in pool.owner) && !stale ==> id in pool.closed
    {
      hide Valid, Served;
      match step {
        case Arrival(job) =>
          Admit(job, now);
        case OfRequest(k, e) =>
          if k < |requests| {
            Deliver(k, e, now);
          }
        case OfPool(id, stale) =>
          if id in pool.owner {
            IdleClosed(id, stale);
          }
      }
    }

    /** Everything that can happen, in any order: after each step the books balance. */
    method Run(script: seq<(Step, int)>)
      requires Valid() && forall i :: 0 <= i < |script| && script[i].0.Arrival? ==> script[i].0.job.Valid()
      modifies `requests, `Repr, Repr, pool, pool.items
      ensures Valid() && fresh(Repr - old(Repr))
      ensures |requests| == |old(requests)| + Arrivals(script) && old(requests) <= requests
      ensures pool.activeConns == |pool.cache| + LiveCount(requests)
      ensures pool.Limited() ==> pool.activeConns <= pool.maxCached
      ensures forall i :: 0 <= i < |requests| ==> Sound(requests[i])
    {
      hide Valid, Sound;
      for i := 0 to |script|
        invariant Valid() && fresh(Repr - old(Repr))
        invariant |requests| == |old(requests)| + Arrivals(script[..i]) && old(requests) <= requests
      {
        assert script[..i + 1][..i] == script[..i];
        Take(script[i].0, script[i].1);
      }
      assert script[..|script|] == script;
      Conservation();
      EveryRequest();
    }
  }
}
