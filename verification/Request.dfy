/** One request: it gets a connection, from the pool or by trying the peers in turn,
    sends SET NAMES where that is due and then its query, receives the result, and
    gives the connection back. */
module Request {
  import opened Wrappers
  import opened Rds
  import opened Buffers
  import opened Output
  import opened Database
  import opened Connection
  import opened SendPhase
  import opened Pool
  import opened Receiver

  /** What the search for a connection comes to. */
  datatype Found = Connected | InProgress | NoneLeft | Declined | Broken

  /** Why another peer is tried. */
  datatype Failure = ErrorReply | Timeout | NoLive

  const GATEWAY_TIMEOUT := 504
  const BAD_GATEWAY := 502
  const SERVICE_UNAVAILABLE := 503
  const SERVER_ERROR := 500
  const CLIENT_CLOSED := 499
  const REQUEST_TIMEOUT := 408
  const GONE := 410
  const OK_STATUS := 200
  const FAILURE := 1000  // stands for NGX_ERROR, which is above every status that is sent

  /** The history of a request, and what it leaves to others. */
  datatype Past = Past(others: set<nat>, closed: set<nat>, contacts: seq<nat>, picks: seq<nat>, log: seq<Reply>,
                       calls: seq<Call>, started: bool, answers: seq<Ret>,
                       gone: bool, refused: bool, unwatched: bool, offers: nat)

  /** The connections of other requests are left alone; histories only grow; and once
      SQL was submitted, no other connection or peer is ever turned to. */
  ghost predicate Later(p: Past, q: Past) {
    && q.others == p.others && p.closed <= q.closed
    && p.contacts <= q.contacts && p.picks <= q.picks && p.log <= q.log && p.calls <= q.calls
    && (p.started ==> q.started && q.contacts == p.contacts && q.picks == p.picks)
    && p.answers <= q.answers
    && (p.gone ==> q.gone) && (p.refused ==> q.refused) && (p.unwatched ==> q.unwatched) && p.offers <= q.offers
  }

  lemma LaterStill(p: Past, q: Past, r: Past)
    requires Later(p, q) && Later(q, r)
    ensures Later(p, r)
    ensures |q.calls| <= |r.calls| && |q.answers| <= |r.answers| && (q.gone ==> r.gone)
  {
  }

  class Request {
    const pool: Pool
    const rx: Receiver
    const connectTimeout: nat
    const sendTimeout: nat

    var nextPeer: nat
    var remainingPeers: nat
    var address: nat           // of the peer in use
    var enableCharset: bool
    var hasSetNames: bool
    var queryStarted: bool
    var failed: bool
    var used: nat              // successful uses of the connection before this one
    var statusN: nat           // zero until the result is complete
    var finalized: Option<nat>

    ghost const start: nat       // where the round robin began
    ghost var picks: seq<nat>    // peers tried afresh, in order
    ghost var contacts: seq<nat> // connections used, in order
    ghost var namesDue: bool     // SET NAMES was outstanding when sending began
    ghost var log: seq<Reply>    // answers to the calls that sent SQL
    ghost var calls: seq<Call>   // and those calls

    constructor (pool: Pool, rx: Receiver, connectTimeout: nat, sendTimeout: nat)
      requires pool.Valid() && rx.Valid() && rx.Unwritten() && rx.connection == NoConn && rx.state == Connect
      ensures Base() && this.pool == pool && this.rx == rx
      ensures !queryStarted && Looking() && finalized == None
      ensures start == pool.current % |pool.peers| && picks == [] && contacts == []
    {
      assert pool.peers != [];
      hide Pool.Valid, Receiver.Valid, Receiver.Unwritten, AsDue, Run, Session, Cursor;
      var first: nat := pool.current % |pool.peers|;
      this.pool, this.rx := pool, rx;
      this.connectTimeout, this.sendTimeout := connectTimeout, sendTimeout;
      nextPeer := first;
      remainingPeers := |pool.peers|;
      address, enableCharset, hasSetNames, queryStarted, failed, used, statusN := 0, false, false, false, false, 0, 0;
      finalized := None;
      start := first;
      picks, contacts, namesDue, log, calls := [], [], false, [], [];
      new;
      CursorStarts();
    }

    lemma CursorStarts()
      requires nextPeer == start < |pool.peers| && remainingPeers == |pool.peers| && picks == []
      ensures Cursor()
    {
    }

    // --- invariants ---

    ghost predicate Cursor()
      reads `nextPeer, `remainingPeers, `picks
    {
      var n := |pool.peers|;
      && n > 0 && start < n
      && |picks| + remainingPeers == n
      && nextPeer == (if |picks| == n then start else Wrap(start + |picks|, n))
      && forall i :: 0 <= i < |picks| ==> picks[i] == Wrap(start + i, n)
    }

    /** The request's view of its connection agrees with the server's. */
    ghost predicate Session(c: Conn)
      reads `address, `hasSetNames, `enableCharset, `used, `statusN
    {
      && c.address == address
      && c.namesSet == (if hasSetNames then 1 else 0)
      && (c.charsetPeer && !hasSetNames ==> enableCharset)
      && c.served == used + (if statusN != 0 then 1 else 0)
    }

    ghost function Own(): set<nat>
      reads rx`connection
    {
      if rx.connection.Live? then {rx.connection.conn.id} else {}
    }

    ghost function Sent(): Send
      reads `namesDue, `log
    {
      Run(namesDue, log)
    }

    /** A request that ended well has read all of the result and written it, and unless
        the client's side refused, kept nothing back. */
    ghost predicate Fulfilled()
      reads `statusN, rx`broken, rx.db`pos, rx.out, rx.out.nginx`refused, rx.out.bufs
    {
      statusN == OK_STATUS ==>
        && rx.db.pos == AtEnd && !rx.broken && rx.out.headerSent
        && (rx.out.nginx.refused || HandedOver())
    }

    /** Nothing that was written is kept back from the client's side. */
    ghost predicate HandedOver()
      reads rx.out, rx.out.bufs
    {
      && rx.out.outBufs == []
      && (rx.out.outBuf != null ==> rx.out.outBuf in rx.out.bufs && rx.out.outBuf.last == rx.out.outBuf.pos)
    }

    /** All SQL went to one connection, the last that the request turned to, and since the
        first of it the request turned to no other connection and tried no other peer. A
        query to a charset peer found the charset set. */
    ghost predicate OnePlace()
      reads `picks, `contacts, `calls
    {
      forall i :: 0 <= i < |calls| ==>
        && contacts != [] && calls[i].conn == contacts[|contacts| - 1]
        && calls[i].picks == picks && calls[i].contacts == contacts
        && (calls[i].sql == UserQuery && calls[i].charsetPeer ==> calls[i].namesSet == 1)
    }

    /** The calls are those of the fold. */
    ghost predicate CallsAsDue()
      reads `namesDue, `log, `calls, `contacts
    {
      && |calls| == |log|
      && (calls != [] ==> contacts != [] && AsDue(namesDue, calls, log, contacts[|contacts| - 1]))
    }

    /** What the request keeps on its own. */
    ghost predicate Local()
      reads `nextPeer, `remainingPeers, `picks, `address, `hasSetNames, `enableCharset, `used, `statusN,
            `queryStarted, `namesDue, `log, `calls, `contacts, rx, rx.db`pos, rx.out,
            rx.out.nginx`refused, rx.out.nginx`headed, rx.out.nginx`handed, rx.out.nginx`held, rx.out.bufs, rx.out.mem
    {
      && rx.Valid() && Cursor()
      && (rx.connection.Live? ==> Session(rx.connection.conn))
      && (queryStarted <==> log != []) && CallsAsDue() && OnePlace()
      && (statusN == 0 || statusN == OK_STATUS || statusN == GONE) && Fulfilled()
      && (rx.connection.Live? ==> |contacts| > 0 && rx.connection.conn.id == contacts[|contacts| - 1])
    }

    /** What every step keeps: the pool is sound and the request's connection counts. */
    ghost predicate Base()
      reads `nextPeer, `remainingPeers, `picks, `address, `hasSetNames, `enableCharset, `used, `statusN,
            `queryStarted, `namesDue, `log, `calls, `contacts, pool, pool.items,
            rx, rx.db`pos, rx.out,
            rx.out.nginx`refused, rx.out.nginx`headed, rx.out.nginx`handed, rx.out.nginx`held, rx.out.bufs, rx.out.mem
    {
      pool.Valid() && Local() && Own() <= pool.held
    }

    // --- where a request can be ---

    /** Without a connection and free to look for one. */
    ghost predicate Looking()
      reads `queryStarted, `statusN, `used, `hasSetNames, `finalized, rx, rx.db`pos, rx.out,
            rx.out.nginx`refused, rx.out.nginx`headed, rx.out.nginx`handed, rx.out.nginx`held,
            rx.out.nginx`unwatched, rx.out.outBuf
    {
      && rx.connection == NoConn && rx.state == Connect
      && !queryStarted && statusN == 0 && used == 0 && !hasSetNames && finalized == None
      && rx.Unwritten()
    }

    ghost predicate Unsent(ready: bool)
      reads `queryStarted, `statusN, `failed, `finalized, rx, rx.db`pos, rx.out,
            rx.out.nginx`refused, rx.out.nginx`headed, rx.out.nginx`handed, rx.out.nginx`held,
            rx.out.nginx`unwatched, rx.out.outBuf
    {
      && rx.connection.Live? && !queryStarted && statusN == 0 && !failed && finalized == None
      && rx.connection.conn.ready == ready && !rx.connection.conn.unread
      && rx.connection.conn.readTimer == None
      && rx.Unwritten()
    }

    /** A connection that is ready and on which nothing was sent yet. */
    ghost predicate Opened()
      reads `queryStarted, `statusN, `failed, `finalized, rx, rx.db`pos, rx.out,
            rx.out.nginx`refused, rx.out.nginx`headed, rx.out.nginx`handed, rx.out.nginx`held,
            rx.out.nginx`unwatched, rx.out.outBuf
    {
      Unsent(true) && (rx.state == Connect || rx.state == Idle) && rx.connection.conn.NoTimers()
    }

    // --- finding a connection ---

    /** Takes over an idle connection of the pool. */
    method Adopt(item: Item)
      requires rx.connection == NoConn && Quiescent(item) && statusN == 0
      modifies `address, `hasSetNames, `used, `contacts, rx`connection
      ensures rx.connection == Live(item.conn) && Session(item.conn)
      ensures address == item.address && hasSetNames == item.hasSetNames && used == item.used
      ensures contacts == old(contacts) + [item.conn.id]
    {
      address := item.address;
      hasSetNames := item.hasSetNames;
      used := item.used;
      rx.connection := Live(item.conn);
      contacts := contacts + [item.conn.id];
    }

    method TakeAny() returns (item: Option<Item>)
      requires Base() && Looking()
      modifies pool`cache, pool`free, pool`owner, pool`held
      ensures Base() && Looking()
      ensures |pool.cache| == old(|pool.cache|) - if item.Some? then 1 else 0
      ensures var s := old(pool.Stack());
              if s == [] then item == None && pool.Stack() == s && pool.held == old(pool.held)
              else item == Some(s[0]) && pool.Stack() == s[1..] && pool.Taken(s[0], old(pool.held))
    {
      hide Receiver.Valid, Receiver.Unwritten, Cursor, Run, Quiescent;
      item := pool.GetSingle();
      assert |pool.Stack()| == |pool.cache|;
    }

    method TakeFor(address: nat) returns (item: Option<Item>)
      requires Base() && Looking()
      modifies pool`cache, pool`free, pool`owner, pool`held
      ensures Base() && Looking()
      ensures |pool.cache| == old(|pool.cache|) - if item.Some? then 1 else 0
      ensures var s := old(pool.Stack()); var k := Newest(s, address);
              if k == |s| then item == None && pool.Stack() == s && pool.held == old(pool.held)
              else item == Some(s[k]) && pool.Stack() == RemoveAt(s, k) && pool.Taken(s[k], old(pool.held))
    {
      hide Receiver.Valid, Receiver.Unwritten, Cursor, Run, Quiescent;
      item := pool.GetMulti(address);
      assert |pool.Stack()| == |pool.cache|;
    }

    /** The next peer of the round robin. */
    method PickPeer() returns (peer: nat)
      requires Base() && Looking() && remainingPeers > 0
      modifies `nextPeer, `remainingPeers, `address, `enableCharset, `picks, pool`current
      ensures Base() && Looking() && peer < |pool.peers|
      ensures remainingPeers == old(remainingPeers) - 1 && picks == old(picks) + [peer]
      ensures address == pool.peers[peer].address && enableCharset == pool.peers[peer].charset
      ensures finalized == None && peer == old(nextPeer) && pool.current == nextPeer
      ensures pool.Stack() == old(pool.Stack())
    {
      hide Base, Looking, Pool.Stack;
      peer := TakePeer();
      SetPeer(peer);
    }

    method TakePeer() returns (peer: nat)
      requires Base() && Looking() && remainingPeers > 0
      modifies `nextPeer, `remainingPeers, `picks
      ensures Base() && Looking() && finalized == None && peer == old(nextPeer) && peer < |pool.peers|
      ensures remainingPeers == old(remainingPeers) - 1 && picks == old(picks) + [peer]
    {
      hide Pool.Valid, Receiver.Valid, Receiver.Unwritten, Run, Cursor, CallsAsDue, Fulfilled, Session;
      NoCalls();
      peer := AdvanceCursor();
    }

    method SetPeer(peer: nat)
      requires Base() && Looking() && peer < |pool.peers|
      modifies `address, `enableCharset, pool`current
      ensures Base() && Looking() && pool.Stack() == old(pool.Stack()) && pool.current == nextPeer
      ensures address == pool.peers[peer].address && enableCharset == pool.peers[peer].charset
    {
      hide Pool.Valid, Receiver.Valid, Receiver.Unwritten, Run, Cursor, CallsAsDue, OnePlace, Fulfilled, Session;
      pool.current := nextPeer;
      address := pool.peers[peer].address;
      enableCharset := pool.peers[peer].charset;
    }

    lemma NoCalls()
      requires Local() && !queryStarted
      ensures calls == []
    {
      hide Receiver.Valid, Cursor, Session, AsDue, OnePlace, Fulfilled;
    }

    method AdvanceCursor() returns (peer: nat)
      requires Cursor() && remainingPeers > 0
      modifies `nextPeer, `remainingPeers, `picks
      ensures Cursor() && peer == old(nextPeer) && peer < |pool.peers|
      ensures remainingPeers == old(remainingPeers) - 1 && picks == old(picks) + [peer]
    {
      peer := nextPeer;
      NextIndex(nextPeer, |pool.peers|);
      nextPeer := (nextPeer + 1) % |pool.peers|;
      remainingPeers := remainingPeers - 1;
      picks := picks + [peer];
    }

    /** Opens a new connection to a peer, unless the upstream is at its limit. */
    method OpenFresh(peer: nat) returns (found: Found)
      requires Base() && Looking() && !failed && peer < |pool.peers|
      requires address == pool.peers[peer].address && enableCharset == pool.peers[peer].charset
      modifies `contacts, pool`activeConns, pool`nextId, pool`held, pool`closed, rx`connection, rx`state,
               rx.db`answers, rx.out.nginx`unwatched
      ensures Base() && FoundState(found) && found != NoneLeft
      ensures old(pool.HasRoom()) ==> !rx.connection.Placeholder? && (found == Declined ==> pool.HasRoom())
      ensures !old(pool.HasRoom()) ==> found == InProgress && rx.connection.Placeholder?
      ensures old(pool.closed) <= pool.closed
      ensures rx.out.nginx.Onward() && old(rx.db.answers) <= rx.db.answers
      ensures old(pool.HasRoom()) ==>
                |rx.db.answers| == |old(rx.db.answers)| + 1
                && var last := rx.db.answers[|old(rx.db.answers)|];
                   && (found == Declined <==> last == Failed)
                   && (found == InProgress ==> last == Ret.IoWait) && (found == Connected ==> last == OK)
      ensures pool.held == old(pool.held) + Own() && Own() !! old(pool.held)
      ensures old(contacts) <= contacts && pool.Stack() == old(pool.Stack())
    {
      hide Pool.Valid, Receiver.Valid, Receiver.Unwritten, Cursor, Session, Run, Unsent;
      LookingIsOpen();
      if !pool.HasRoom() {
        rx.connection := Placeholder(None);
        return InProgress;
      }
      var ret := rx.db.Connect(false);
      if ret == Failed {
        return Declined;
      }
      found := Register(peer, ret == OK);
    }

    /** The library has a socket: nginx is to watch it. */
    method Register(peer: nat, ready: bool) returns (found: Found)
      requires Base() && Looking() && !failed && peer < |pool.peers| && pool.HasRoom()
      requires address == pool.peers[peer].address && enableCharset == pool.peers[peer].charset
      modifies `contacts, pool`activeConns, pool`nextId, pool`held, pool`closed, rx`connection, rx`state,
               rx.out.nginx`unwatched
      ensures old(pool.closed) <= pool.closed
      ensures rx.out.nginx.Onward()
      ensures found == if rx.out.nginx.unwatched then Broken else if ready then Connected else InProgress
      ensures Base() && found in {Connected, InProgress, Broken}
      ensures FoundState(found) && !rx.connection.Placeholder?
      ensures pool.held == old(pool.held) + Own() && Own() !! old(pool.held)
      ensures old(contacts) <= contacts && pool.Stack() == old(pool.Stack())
    {
      hide Local, Pool.Valid, Looking, Opened, Dialling;
      LookingIsOpen();
      var conn := pool.Open(peer, ready);
      var registered := rx.out.nginx.Watch();
      if !registered {
        pool.Destroy(conn.id);
        return Broken;
      }
      Attach(conn);
      return if ready then Connected else InProgress;
    }

    lemma LookingIsOpen()
      requires Looking()
      ensures rx.connection == NoConn && !queryStarted && statusN == 0 && finalized == None
      ensures !rx.out.headerSent && !rx.out.nginx.unwatched && rx.Unwritten()
    {
    }

    /** The request has a new connection. */
    method Attach(conn: Conn)
      requires Base() && Looking() && !failed && conn.id in pool.held
      requires conn == Conn(conn.id, conn.peer, address, enableCharset, conn.ready, 0, false, 0, None, None)
      modifies `contacts, rx`connection, rx`state
      ensures Base() && rx.connection == Live(conn) && contacts == old(contacts) + [conn.id]
      ensures if conn.ready then Opened() else Dialling()
    {
      hide Pool.Valid, Receiver.Valid, Receiver.Unwritten, Cursor, Run, AsDue, Fulfilled;
      rx.connection := Live(conn);
      contacts := contacts + [conn.id];
      rx.state := if conn.ready then Idle else Connect;
    }

    /** Waiting for a connection to be made; the timer is yet to be set. */
    ghost predicate Dialling()
      reads `queryStarted, `statusN, `failed, `finalized, rx, rx.db`pos, rx.out,
            rx.out.nginx`refused, rx.out.nginx`headed, rx.out.nginx`handed, rx.out.nginx`held,
            rx.out.nginx`unwatched, rx.out.outBuf
    {
      Unsent(false) && rx.state == Connect
    }

    /** Another peer was tried, or another connection taken. */
    twostate predicate WentOn()
      reads `picks, `contacts
    {
      |picks| > |old(picks)| || |contacts| > |old(contacts)|
    }

    /** What finding a connection leaves alone, and how far it gets: every attempt but
        the last uses up a peer or an idle connection. */
    twostate predicate Searched(found: Found)
      reads this, pool, rx, rx.db, rx.out.nginx
    {
      && queryStarted == old(queryStarted) && log == old(log) && calls == old(calls) && namesDue == old(namesDue)
      && old(picks) <= picks && old(contacts) <= contacts && (old(remainingPeers) > 0 ==> WentOn())
      && old(pool.closed) <= pool.closed && old(rx.db.answers) <= rx.db.answers && rx.out.nginx.Onward()
      && pool.held == old(pool.held) + Own() && Own() !! old(pool.held)
      && (found in {Connected, InProgress, Declined} ==>
            remainingPeers + |pool.cache| < old(remainingPeers + |pool.cache|))
      && remainingPeers + |pool.cache| <= old(remainingPeers + |pool.cache|)
      && (found == NoneLeft ==> remainingPeers == 0) && finalized == None
      && (old(pool.HasRoom()) ==> !rx.connection.Placeholder? && (found == Declined ==> pool.HasRoom()))
    }

    /** Where a connection stands after the search for one. */
    ghost predicate FoundState(found: Found)
      reads this, rx, rx.db`pos, rx.out,
            rx.out.nginx`refused, rx.out.nginx`headed, rx.out.nginx`handed, rx.out.nginx`held,
            rx.out.nginx`unwatched, rx.out.outBuf
    {
      && (found == Connected ==> Opened())
      && (found == InProgress ==>
            || Dialling()
            || (rx.connection == Placeholder(None) && !queryStarted && statusN == 0 && finalized == None
                && !rx.out.headerSent && pool.Limited()))
      && (found in {NoneLeft, Declined} ==> Looking())
      && (found == Broken ==> Stranded())
    }

    /** nginx could not watch the new connection. */
    ghost predicate Stranded()
      reads `queryStarted, `statusN, `finalized, rx`connection, rx.out`headerSent, rx.out.nginx`unwatched
    {
      && rx.connection == NoConn && !queryStarted && statusN == 0 && finalized == None
      && !rx.out.headerSent && rx.out.nginx.unwatched
    }

    /** The request has entry `k` of this stack, and the pool has the others. */
    ghost predicate Took(s: seq<Item>, k: nat)
      requires pool.Valid() && k < |s|
      reads rx`connection, pool, pool.items
    {
      rx.connection == Live(s[k].conn) && pool.Stack() == RemoveAt(s, k)
    }

    /** The upstream may open no more connections, and has no idle one. */
    ghost predicate AtLimit()
      reads `remainingPeers, pool`cache, pool`activeConns
    {
      !pool.HasRoom() && pool.cache == [] && remainingPeers > 0
    }

    /** Takes over an idle connection that the pool gave out. */
    method Reuse(item: Item)
      requires Base() && Looking() && !failed
      requires Quiescent(item) && item.conn.id in pool.held
      modifies `address, `hasSetNames, `used, `contacts, rx`connection
      ensures Base() && Opened() && Own() == {item.conn.id} && rx.connection == Live(item.conn)
      ensures contacts == old(contacts) + [item.conn.id]
    {
      hide Pool.Valid, Receiver.Valid, Receiver.Unwritten, Cursor, Run;
      Adopt(item);
    }

    /** get_peer: in single mode any idle connection; otherwise the next peer, by an
        idle connection to it if there is one, or by a new one. */
    method GetPeer() returns (found: Found)
      requires Base() && Looking()
      modifies this, pool, rx`connection, rx`state, rx.db`answers, rx.out.nginx`unwatched
      ensures Base() && FoundState(found) && Searched(found)
      ensures pool.maxCached > 0 && pool.single && old(pool.Stack()) != [] ==>
                found == Connected && Took(old(pool.Stack()), 0) && picks == old(picks)
      ensures old(AtLimit()) ==> found == InProgress && rx.connection.Placeholder?
    {
      hide Base, Opened, Dialling, Pool.HasRoom, Receiver.Unwritten, Took, Pool.Stack, Pool.Valid;
      BaseIsSound();
      failed := false;
      if pool.maxCached > 0 && pool.single {
        var done := ReuseAny();
        if done {
          return Connected;
        }
      }
      if remainingPeers == 0 {
        return NoneLeft;
      }
      found := TryNextPeer();
    }

    method TryNextPeer() returns (found: Found)
      requires Base() && Looking() && !failed && remainingPeers > 0
      modifies this, pool, rx`connection, rx`state, rx.db`answers, rx.out.nginx`unwatched
      ensures Base() && FoundState(found) && Searched(found) && picks == old(picks) + [old(nextPeer)]
      ensures var s := old(pool.Stack()); var k := Newest(s, pool.peers[old(nextPeer)].address);
              if pool.maxCached > 0 && !pool.single && k < |s| then found == Connected && Took(s, k)
              else pool.Stack() == s
      ensures old(AtLimit()) ==> found == InProgress && rx.connection.Placeholder?
    {
      hide Base, Looking, Opened, Dialling, Pool.HasRoom, Took, Pool.Stack, FoundState;
      var peer := PickPeer();
      found := TryPeer(peer);
    }

    /** An idle connection to this peer if there is one, or else a new one. */
    method TryPeer(peer: nat) returns (found: Found)
      requires Base() && Looking() && !failed && peer < |pool.peers|
      requires address == pool.peers[peer].address && enableCharset == pool.peers[peer].charset
      modifies this, pool, rx`connection, rx`state, rx.db`answers, rx.out.nginx`unwatched
      ensures Base() && FoundState(found) && found != NoneLeft && finalized == None && old(contacts) <= contacts
      ensures var s := old(pool.Stack()); var k := Newest(s, old(address));
              if pool.maxCached > 0 && !pool.single && k < |s| then found == Connected && Took(s, k)
              else pool.Stack() == s
      ensures |pool.cache| <= old(|pool.cache|) && remainingPeers == old(remainingPeers) && picks == old(picks)
      ensures calls == old(calls) && log == old(log) && namesDue == old(namesDue) && queryStarted == old(queryStarted)
      ensures pool.held == old(pool.held) + Own() && Own() !! old(pool.held) && old(pool.closed) <= pool.closed
      ensures old(rx.db.answers) <= rx.db.answers && rx.out.nginx.Onward()
      ensures old(pool.HasRoom()) ==> !rx.connection.Placeholder? && (found == Declined ==> pool.HasRoom())
      ensures old(!pool.HasRoom() && pool.cache == []) ==> found == InProgress && rx.connection.Placeholder?
    {
      hide Base, Looking, Opened, FoundState, Pool.HasRoom, Pool.Valid, Took, Pool.Stack;
      BaseIsSound();
      LookingIsOpen();
      if pool.maxCached > 0 && !pool.single {
        var done := ReuseFor();
        if done {
          OpenedIsFound();
          return Connected;
        }
      }
      found := OpenFresh(peer);
    }

    lemma OpenedIsFound()
      requires Opened()
      ensures FoundState(Connected) && finalized == None
    {
    }

    lemma BaseIsSound()
      requires Base()
      ensures pool.Valid() && |pool.Stack()| == |pool.cache|
    {
      hide Local;
    }

    /** Takes over the newest idle connection of all, if there is one. */
    method ReuseAny() returns (done: bool)
      requires Base() && Looking() && !failed
      modifies `address, `hasSetNames, `used, `contacts, rx`connection,
               pool`cache, pool`free, pool`owner, pool`held
      ensures Base()
      ensures var s := old(pool.Stack());
              done == (s != []) && if done then Opened() && Took(s, 0) else pool.Stack() == s && Looking()
      ensures pool.held == old(pool.held) + Own() && Own() !! old(pool.held)
      ensures |pool.cache| == old(|pool.cache|) - if done then 1 else 0
      ensures if done then old(contacts) < contacts && rx.connection.Live?
              else contacts == old(contacts) && rx.connection == NoConn
    {
      hide Base, Unsent, Quiescent, Receiver.Unwritten;
      var item := TakeAny();
      done := item.Some?;
      if done {
        Reuse(item.value);
      }
    }

    /** Takes over the newest idle connection to the address, if there is one. */
    method ReuseFor() returns (done: bool)
      requires Base() && Looking() && !failed
      modifies `address, `hasSetNames, `used, `contacts, rx`connection,
               pool`cache, pool`free, pool`owner, pool`held
      ensures Base()
      ensures var s := old(pool.Stack()); var k := Newest(s, old(address));
              done == (k < |s|) && if done then Opened() && Took(s, k) else pool.Stack() == s && Looking()
      ensures pool.held == old(pool.held) + Own() && Own() !! old(pool.held)
      ensures |pool.cache| == old(|pool.cache|) - if done then 1 else 0
      ensures if done then old(contacts) < contacts && rx.connection.Live?
              else contacts == old(contacts) && address == old(address) && rx.connection == NoConn
    {
      hide Base, Unsent, Quiescent, Receiver.Unwritten;
      var item := TakeFor(address);
      done := item.Some?;
      if done {
        Reuse(item.value);
      }
    }

    // --- giving a connection back ---

    /** The slot that a connection would get in the pool. */
    ghost function ItemOf(c: Conn): Item
      reads `address, `hasSetNames, `used
    {
      Item(c.Untimed(), address, hasSetNames, used + 1)
    }

    /** A connection whose request came to an end of its own is quiescent. */
    ghost predicate Returnable()
      reads `address, `hasSetNames, `used, `statusN, `failed, rx
    {
      rx.connection.Live? && statusN != 0 && !failed ==> Quiescent(ItemOf(rx.connection.conn))
    }

    predicate Keeps(peerFailed: bool)
      reads `statusN, `failed, rx`connection, rx.out`headerSent
    {
      && pool.maxCached > 0 && !failed && !peerFailed && rx.connection.Live?
      && (statusN == GONE || (statusN == OK_STATUS && rx.out.headerSent))
    }

    /** free_peer: the connection goes to the pool if its result was read to the end,
        and is closed otherwise. Without a connection, nothing happens. */
    method FreePeer(peerFailed: bool)
      requires Base() && !rx.connection.Placeholder? && Returnable()
      modifies `failed, `used, pool`cache, pool`free, pool`owner, pool`held, pool`closed, pool`activeConns,
               pool.items, rx`connection
      ensures Base() && rx.connection == NoConn && failed == (old(failed) || (peerFailed && pool.maxCached > 0))
      ensures old(pool.closed) <= pool.closed
      ensures pool.held == old(pool.held) - old(Own())
      ensures old(Keeps(peerFailed)) ==>
                pool.Stack() == Push(old(pool.Stack()), old(ItemOf(rx.connection.conn)), pool.maxCached)
      ensures !old(Keeps(peerFailed)) ==> pool.Stack() == old(pool.Stack()) && |pool.cache| == old(|pool.cache|)
      ensures !old(Keeps(peerFailed)) ==>
                pool.activeConns == old(pool.activeConns) - if old(rx.connection.Live?) then 1 else 0
      ensures old(rx.connection.Live?) && !old(Keeps(peerFailed)) ==>
                pool.HasRoom() && old(rx.connection.conn.id) in pool.closed
    {
      hide Local, Pool.Valid, Quiescent;
      var keep := Keeps(peerFailed);
      if peerFailed && pool.maxCached > 0 {
        failed := true;
      }
      if keep {
        SaveConnection();
      } else if rx.connection.Live? {
        CloseConnection();
      }
    }

    method SaveConnection()
      requires Base() && Keeps(false) && Returnable()
      modifies `used, pool`cache, pool`free, pool`owner, pool`held, pool`closed, pool`activeConns, pool.items,
               rx`connection
      ensures Base() && rx.connection == NoConn && used == old(used) + 1
      ensures old(pool.closed) <= pool.closed
      ensures pool.held == old(pool.held) - old(Own())
      ensures pool.Stack() == Push(old(pool.Stack()), old(ItemOf(rx.connection.conn)), pool.maxCached)
    {
      hide Pool.Valid, Receiver.Valid, Cursor, Run, Quiescent;
      var c := rx.connection.conn;
      pool.Save(Item(c.Untimed(), address, hasSetNames, used + 1));
      used := used + 1;
      rx.connection := NoConn;
    }

    method CloseConnection()
      requires Base() && rx.connection.Live?
      modifies pool`held, pool`closed, pool`activeConns, rx`connection
      ensures Base() && rx.connection == NoConn
      ensures pool.held == old(pool.held) - old(Own()) && pool.activeConns == old(pool.activeConns) - 1
      ensures pool.Stack() == old(pool.Stack()) && pool.HasRoom()
      ensures pool.closed == old(pool.closed) + old(Own())
    {
      hide Receiver.Valid, Cursor, Run, Quiescent, Partition;
      pool.Destroy(rx.connection.conn.id);
      rx.connection := NoConn;
    }

    // --- at rest between events ---

    /** Waiting for a connection to be made: the connect timeout runs. */
    ghost predicate Connecting()
      reads `queryStarted, `statusN, `failed, `finalized, rx, rx.db`pos, rx.out,
            rx.out.nginx`refused, rx.out.nginx`headed, rx.out.nginx`handed, rx.out.nginx`held,
            rx.out.nginx`unwatched, rx.out.outBuf
    {
      Dialling() && rx.connection.conn.writeTimer.Some?
    }

    ghost predicate Started(outcome: Outcome)
      reads `queryStarted, `statusN, `failed, `finalized, `namesDue, `log, `enableCharset, `hasSetNames, rx`connection
    {
      && queryStarted && statusN == 0 && !failed && finalized == None
      && rx.connection.Live? && rx.connection.conn.ready
      && Sent().outcome == outcome && Sent().pending == (enableCharset && !hasSetNames)
    }

    /** Waiting for a query to be sent and answered. */
    ghost predicate InSend()
      reads `queryStarted, `statusN, `failed, `finalized, `namesDue, `log, `enableCharset, `hasSetNames,
            rx, rx.db`pos, rx.out,
            rx.out.nginx`refused, rx.out.nginx`headed, rx.out.nginx`handed, rx.out.nginx`held,
            rx.out.nginx`unwatched, rx.out.outBuf
    {
      && Started(Sending) && rx.Unwritten() && rx.state == SendQuery
      && Sent().entered && Yielded(log)
      && rx.connection.conn.readTimer == None
      && rx.connection.conn.writeTimer.Some? == Sent().writeTimer
    }

    /** Waiting for more of the result, or for the client. */
    ghost predicate InReceive()
      requires rx.out.Valid()
      reads `queryStarted, `statusN, `failed, `finalized, `namesDue, `log, `enableCharset, `hasSetNames,
            rx, rx.db`pos, rx.out,
            rx.out.nginx`refused, rx.out.nginx`headed, rx.out.nginx`handed, rx.out.nginx`held,
            rx.out.nginx`unwatched, rx.out.bufs, rx.out.mem
    {
      Started(Outcome.Receiving) && !Sent().pending && rx.Receiving()
    }

    ghost predicate AtRest()
      requires rx.out.Valid()
      reads `queryStarted, `statusN, `failed, `finalized, `namesDue, `log, `enableCharset, `hasSetNames,
            rx, rx.db`pos, rx.out,
            rx.out.nginx`refused, rx.out.nginx`headed, rx.out.nginx`handed, rx.out.nginx`held,
            rx.out.nginx`unwatched, rx.out.bufs, rx.out.mem
    {
      rx.connection.Live? && (Connecting() || InSend() || InReceive())
    }

    ghost predicate Over()
      reads `finalized, rx`connection
    {
      rx.connection == NoConn && finalized.Some?
    }

    /** Refused: the placeholder waits to be cleaned up by the handler. */
    ghost predicate Rejected()
      reads `queryStarted, `statusN, `finalized, rx`connection, rx.out`headerSent
    {
      && rx.connection.Placeholder? && !queryStarted && statusN == 0 && finalized == None
      && !rx.out.headerSent && pool.Limited()
    }

    /** An error page goes out only before the response. A request that ends before any
        SQL was sent was left by its client, could not be watched, was refused at the
        limit, or has tried every peer. */
    ghost predicate Justified()
      reads `queryStarted, `remainingPeers, `finalized, rx.out`headerSent, rx.out.nginx`gone, rx.out.nginx`unwatched
    {
      finalized.Some? ==>
        var status := finalized.value;
        && (rx.out.headerSent ==> status < 300)
        && (!queryStarted ==>
              || (status == CLIENT_CLOSED && rx.out.nginx.gone)
              || (status == SERVER_ERROR && rx.out.nginx.unwatched)
              || (status == SERVICE_UNAVAILABLE && pool.Limited())
              || (status in {BAD_GATEWAY, GATEWAY_TIMEOUT} && remainingPeers == 0))
    }

    /** The state between two events: what is full has been offered to the client. */
    ghost predicate Settled()
      reads this, pool, pool.items, rx, rx.db, rx.out, rx.out.nginx, rx.out.bufs, rx.out.mem
    {
      Base() && ((AtRest() && rx.out.outBufs == []) || Over() || Rejected()) && Justified()
    }

    /** The status that a request ends with. */
    function Ended(status: nat): (end: Option<nat>)
      reads rx.out`headerSent
      ensures end.Some? && (end.value == status || (end.value == 0 && status >= 300 && rx.out.headerSent))
      ensures rx.out.headerSent ==> end.value < 300
    {
      Some(if rx.out.headerSent && status >= 300 then 0 else status)
    }

    /** Why a request may end while its connection is sound: it is complete, the client's
        side or the library failed, or the server refused a statement. */
    ghost predicate Reason()
      reads `queryStarted, `statusN, `log, rx.db`answers, rx.out.nginx`refused, rx.out.nginx`unwatched
    {
      || !queryStarted || statusN != 0 || rx.Excused()
      || (log != [] && log[|log| - 1] in {OtherError, Answered(false)})
    }

    /** The library was called, for a query or for anything else. */
    twostate predicate Tried()
      reads `calls, rx.db`answers
    {
      |calls| > |old(calls)| || |rx.db.answers| > |old(rx.db.answers)|
    }

    // --- what every step keeps ---

    /** What every step keeps. */
    twostate predicate Progress()
      reads this, pool, rx, rx.db, rx.out, rx.out.nginx
    {
      && Later(old(Now()), Now())
      && rx.out.Grown()
    }

    ghost function Now(): Past
      reads `contacts, `picks, `log, `calls, `queryStarted, pool`held, pool`closed, rx`connection, rx.db`answers,
            rx.out.nginx
    {
      var n := rx.out.nginx;
      Past(pool.held - Own(), pool.closed, contacts, picks, log, calls, queryStarted, rx.db.answers,
           n.gone, n.refused, n.unwatched, n.offers)
    }

    /** Ends the request: the status is dropped if the response header is out. */
    method Finalize(status: nat)
      requires Base() && !rx.connection.Placeholder? && Returnable() && finalized == None
      modifies `failed, `used, `finalized, pool, pool.items, rx`connection
      ensures Base() && Over() && Progress() && finalized == Ended(status) && rx.connection == NoConn
      ensures old(Keeps(false)) ==>
                pool.Stack() == Push(old(pool.Stack()), old(ItemOf(rx.connection.conn)), pool.maxCached)
      ensures !old(Keeps(false)) ==> pool.Stack() == old(pool.Stack())
      ensures old(rx.connection.Live?) && !old(Keeps(false)) ==> old(rx.connection.conn.id) in pool.closed
      ensures queryStarted ==> Justified()
      ensures queryStarted == old(queryStarted) && remainingPeers == old(remainingPeers)
    {
      hide Base, Quiescent, Pool.Valid;
      FreePeer(false);
      finalized := Ended(status);
    }

    method StartOver()
      requires Base() && rx.connection == NoConn && !queryStarted && statusN == 0 && finalized == None && rx.Unwritten()
      modifies `hasSetNames, `used, rx`state
      ensures Base() && Looking()
    {
      hide Pool.Valid, Receiver.Valid, Receiver.Unwritten, Cursor, Session, Run;
      rx.state := Connect;
      hasSetNames := false;
      used := 0;
    }

    /** A failed connection is left for good. Where nothing was sent and a peer is left,
        the search goes on, unless the client is gone; otherwise the request ends. */
    twostate predicate LeftFor(why: Failure)
      reads this, rx, rx.out, rx.out.nginx
    {
      var mayRetry := why != NoLive && old(!queryStarted && remainingPeers > 0 && !rx.out.headerSent);
      && old(Own()) !! Own()
      && (if WentOn() then mayRetry
          else Over() && finalized == Ended(if rx.out.nginx.gone then CLIENT_CLOSED else Blame(why)))
      && (mayRetry && !rx.out.nginx.gone ==> WentOn())
    }

    /** upstream_next: the connection failed, or none was found. Another peer is tried if
        there is one left and nothing was sent; otherwise the request ends. */
    method Next(why: Failure, now: int)
      requires Base() && statusN == 0 && finalized == None && !rx.connection.Placeholder?
      requires why == NoLive ==> rx.connection == NoConn && remainingPeers == 0
      requires !queryStarted ==> rx.Unwritten()
      modifies this, pool, pool.items, rx, rx.db, rx.out, rx.out.nginx, rx.out.bufs, rx.out.mem
      ensures Settled() && Progress() && LeftFor(why)
      ensures old(rx.connection.Live? || pool.HasRoom()) || why == NoLive ==> !rx.connection.Placeholder?
      ensures Over() && (WentOn() || old(Reason())) ==> Reason()
      decreases remainingPeers + |pool.cache|, if why == NoLive then 0 else 4, 1
    {
      hide Base, Pool.Valid, Pool.HasRoom, Receiver.Unwritten, AtRest, Rejected, Later, Local, Reason;
      ghost var before := Now();
      var gone := LetGo(why);
      ghost var between := Now();
      MoveOn(why, gone, now);
      LaterStill(before, between, Now());
    }

    /** Without a connection: the search goes on, or the request ends. */
    method MoveOn(why: Failure, gone: bool, now: int)
      requires Base() && rx.connection == NoConn && statusN == 0 && finalized == None && gone == rx.out.nginx.gone
      requires why == NoLive ==> remainingPeers == 0
      requires !queryStarted ==> rx.Unwritten()
      modifies this, pool, pool.items, rx, rx.db, rx.out, rx.out.nginx, rx.out.bufs, rx.out.mem
      ensures Settled() && Progress() && Own() !! old(pool.closed)
      ensures why == NoLive || old(pool.HasRoom()) ==> !rx.connection.Placeholder?
      ensures WentOn() <==> old(!gone && !queryStarted && remainingPeers > 0 && !rx.out.headerSent) && why != NoLive
      ensures !WentOn() ==> Over() && finalized == Ended(if rx.out.nginx.gone then CLIENT_CLOSED else Blame(why))
      ensures Over() && (WentOn() || old(Reason())) ==> Reason()
      decreases remainingPeers + |pool.cache|, if why == NoLive then 0 else 4, 0
    {
      hide Base, Pool.Valid, Pool.HasRoom, Receiver.Unwritten, AtRest, Rejected, Local;
      BeforeSql();
      if gone {
        Finalize(CLIENT_CLOSED);
      } else if !queryStarted && remainingPeers > 0 && !rx.out.headerSent && why != NoLive {
        TryAnother(now);
      } else {
        Finalize(Blame(why));
      }
    }

    /** The connection, if there is one, is closed; and is the client still there? */
    method LetGo(why: Failure) returns (gone: bool)
      requires Base() && statusN == 0 && finalized == None && !rx.connection.Placeholder?
      requires why == NoLive ==> rx.connection == NoConn
      modifies `failed, `used, pool`cache, pool`free, pool`owner, pool`held, pool`closed, pool`activeConns, pool.items,
               rx`connection, rx.out.nginx`gone
      ensures Base() && rx.connection == NoConn && Later(old(Now()), Now()) && gone == rx.out.nginx.gone
      ensures failed == (old(failed) || (why != NoLive && pool.maxCached > 0))
      ensures old(Own()) <= pool.closed && |pool.cache| == old(|pool.cache|)
      ensures old(rx.connection.Live? || pool.HasRoom()) ==> pool.HasRoom()
    {
      hide Local, Pool.Valid, Quiescent;
      if why != NoLive {
        FreePeer(true);
      }
      gone := rx.out.nginx.ClientGone();
    }

    lemma BeforeSql()
      ensures rx.Unwritten() ==> !rx.out.headerSent && rx.out.outBufs == []
    {
    }

    lemma OwnIsOpen()
      requires Base()
      ensures Own() !! pool.closed
    {
      hide Local;
    }

    method TryAnother(now: int)
      requires Base() && rx.connection == NoConn && !queryStarted && statusN == 0 && finalized == None && rx.Unwritten()
      requires remainingPeers > 0
      modifies this, pool, pool.items, rx, rx.db, rx.out, rx.out.nginx, rx.out.bufs, rx.out.mem
      ensures Settled() && Progress() && WentOn() && (Over() ==> Reason())
      ensures old(pool.closed) !! Own()
      ensures old(pool.HasRoom()) ==> !rx.connection.Placeholder?
      decreases remainingPeers + |pool.cache|, 3
    {
      hide Base, Pool.Valid, Receiver.Unwritten, Looking, AtRest, Over, Rejected;
      StartOver();
      DbdConnect(now);
      OwnIsOpen();
    }

    function Blame(why: Failure): nat { if why == Timeout then GATEWAY_TIMEOUT else BAD_GATEWAY }

    /** dbd_connect: finds a connection and starts on it. */
    method DbdConnect(now: int)
      requires Base() && Looking()
      modifies this, pool, pool.items, rx, rx.db, rx.out, rx.out.nginx, rx.out.bufs, rx.out.mem
      ensures Settled() && Progress() && (Over() ==> Reason()) && (old(remainingPeers) > 0 ==> WentOn())
      ensures old(pool.HasRoom()) ==> !rx.connection.Placeholder?
      ensures old(AtLimit()) ==> Rejected()
      decreases remainingPeers + |pool.cache|, 2
    {
      hide Base, Quiescent, Pool.Valid, Receiver.Unwritten, FoundState, AtRest, Over;
      var found := GetPeer();
      StartOn(found, now);
    }

    /** Starts on what the search found. */
    method StartOn(found: Found, now: int)
      requires Base() && FoundState(found) && finalized == None && (found == NoneLeft ==> remainingPeers == 0)
      modifies this, pool, pool.items, rx, rx.db, rx.out, rx.out.nginx, rx.out.bufs, rx.out.mem
      ensures Settled() && Progress() && (Over() ==> Reason())
      ensures old(rx.connection.Placeholder?) || (found == Declined && old(!pool.HasRoom())) ||
              !rx.connection.Placeholder?
      ensures found == InProgress && old(rx.connection.Placeholder?) ==> Rejected()
      decreases remainingPeers + |pool.cache|, if found in {NoneLeft, Broken} then 1 else 8
    {
      hide Base, Quiescent, Pool.Valid, Receiver.Unwritten, Connecting, Over, Rejected, AtRest, Looking, Opened,
           LeftFor;
      BeforeSql();
      FoundSays(found);
      match found
      case Broken =>
        Finalize(SERVER_ERROR);
      case NoneLeft =>
        Next(NoLive, now);
      case Declined =>
        Next(ErrorReply, now);
      case InProgress =>
        StartConnectTimer(now);
        if rx.connection.Live? {
          Rested();
        }
      case Connected =>
        ProcessEvents(now);
    }

    lemma FoundSays(found: Found)
      requires FoundState(found) && finalized == None
      ensures !queryStarted && statusN == 0 && !rx.out.headerSent
      ensures found in {NoneLeft, Declined} ==> rx.connection == NoConn && rx.Unwritten()
      ensures found == InProgress ==> rx.connection.Live? || rx.connection.Placeholder?
    {
    }

    method StartConnectTimer(now: int)
      requires Base() && FoundState(InProgress)
      modifies rx`connection
      ensures Base() && Own() == old(Own()) && rx.connection.Live? == old(rx.connection.Live?)
      ensures rx.connection.Placeholder? == old(rx.connection.Placeholder?) && finalized == None
      ensures if old(rx.connection.Live?)
              then Connecting() && rx.connection.conn.writeTimer == Some(now + connectTimeout)
              else Rejected()
    {
      hide Pool.Valid, Receiver.Valid, Receiver.Unwritten, Cursor, Run;
      rx.connection := match rx.connection
        case Live(c) => Live(c.(writeTimer := Some(now + connectTimeout)))
        case _ => Placeholder(Some(now + connectTimeout));
    }

    // --- the protocol ---

    /** Ready to call the library's query function, for the first time or again. */
    ghost predicate Sendable()
      reads `queryStarted, `statusN, `failed, `finalized, `namesDue, `log, `enableCharset, `hasSetNames,
            rx, rx.db`pos, rx.out,
            rx.out.nginx`refused, rx.out.nginx`headed, rx.out.nginx`handed, rx.out.nginx`held,
            rx.out.nginx`unwatched, rx.out.outBuf
    {
      && statusN == 0 && !failed && finalized == None
      && rx.connection.Live? && rx.connection.conn.ready && rx.connection.conn.readTimer == None
      && rx.Unwritten() && rx.state in {Connect, Idle, SendQuery}
      && Sent().outcome.Sending?
      && Sent().entered == (rx.state == SendQuery)
      && Sent().writeTimer == rx.connection.conn.writeTimer.Some?
      && (queryStarted ==> Sent().pending == (enableCharset && !hasSetNames))
    }

    /** The library's query function was called and has answered; the driver has not
        acted on it yet. */
    ghost predicate Called(reply: Reply)
      reads `queryStarted, `statusN, `failed, `finalized, `namesDue, `log, `enableCharset, `hasSetNames,
            rx, rx.db`pos, rx.out,
            rx.out.nginx`refused, rx.out.nginx`headed, rx.out.nginx`handed, rx.out.nginx`held,
            rx.out.nginx`unwatched, rx.out.outBuf
    {
      && queryStarted && statusN == 0 && !failed && finalized == None
      && rx.connection.Live? && rx.connection.conn.ready && rx.connection.conn.readTimer == None
      && rx.Unwritten() && rx.state in {Connect, Idle, SendQuery}
      && log != [] && log[|log| - 1] == reply
      && Gist(Sent()) == Gist(OnReply(BeforeCall(), reply))
    }

    /** One call of the query function. The user's query goes to a connection of a
        charset peer only when its SET NAMES was answered. */
    method Submit() returns (reply: Reply)
      requires Base() && Sendable()
      modifies `queryStarted, `namesDue, `log, `calls, rx`connection
      ensures Base() && Called(reply) && queryStarted && log == old(log) + [reply]
      ensures calls == old(calls) + [ThisCall()]
      ensures (enableCharset && !hasSetNames) || (rx.connection.conn.charsetPeer ==> rx.connection.conn.namesSet == 1)
      ensures rx.connection == Live(old(rx.connection.conn).(unread := true))
    {
      hide Base, Run, OnReply, Called, Receiver.Unwritten;
      CharsetFirst();
      ReplyExpected();
      reply := *;
      Record(reply);
    }

    lemma CharsetFirst()
      requires Base() && rx.connection.Live? && statusN == 0
      ensures (enableCharset && !hasSetNames) || (rx.connection.conn.charsetPeer ==> rx.connection.conn.namesSet == 1)
    {
    }

    method ReplyExpected()
      requires Base() && Sendable()
      modifies rx`connection
      ensures Base() && Sendable() && rx.connection == Live(old(rx.connection.conn).(unread := true))
    {
      hide Pool.Valid, Receiver.Valid, Receiver.Unwritten, Cursor, Run;
      rx.connection := Live(rx.connection.conn.(unread := true));
    }

    /** The statement that is due. */
    function Due(): Sql
      reads `enableCharset, `hasSetNames
    {
      if enableCharset && !hasSetNames then SetNames else UserQuery
    }

    ghost function ThisCall(): Call
      requires rx.connection.Live?
      reads `enableCharset, `hasSetNames, `picks, `contacts, rx`connection
    {
      var c := rx.connection.conn;
      Call(c.id, Due(), c.charsetPeer, c.namesSet, picks, contacts)
    }

    method Record(reply: Reply)
      requires Base() && Sendable()
      modifies `queryStarted, `namesDue, `log, `calls
      ensures Base() && Called(reply) && queryStarted
      ensures log == old(log) + [reply] && calls == old(calls) + [ThisCall()]
    {
      hide Pool.Valid, Receiver.Valid, Receiver.Unwritten, Cursor, Session, Run, OnReply, CallsAsDue, OnePlace,
           Fulfilled, AsDue, Gist;
      CharsetFirst();
      NoteCall(reply);
    }

    /** What the next call of the query function starts from. */
    function BeforeCall(): Send
      requires rx.connection.Live?
      reads `enableCharset, `hasSetNames, rx`state, rx`connection
    {
      var c := rx.connection.conn;
      Send(rx.state == SendQuery, c.writeTimer.Some?, enableCharset && !hasSetNames, false, [], Sending)
    }

    method NoteCall(reply: Reply)
      requires CallsAsDue() && OnePlace() && Sendable() && (queryStarted <==> log != [])
      requires contacts != [] && rx.connection.conn.id == contacts[|contacts| - 1]
      requires Due() == UserQuery && rx.connection.conn.charsetPeer ==> rx.connection.conn.namesSet == 1
      modifies `queryStarted, `namesDue, `log, `calls
      ensures queryStarted && CallsAsDue() && OnePlace()
      ensures log == old(log) + [reply] && calls == old(calls) + [ThisCall()]
      ensures Gist(Sent()) == Gist(OnReply(BeforeCall(), reply))
    {
      hide Run, OnReply, AsDue, Receiver.Unwritten;
      NothingRun(namesDue);
      NothingRun(enableCharset && !hasSetNames);
      if !queryStarted {
        namesDue := enableCharset && !hasSetNames;
      }
      queryStarted := true;
      AsDueSnoc(namesDue, calls, log, ThisCall(), reply);
      RunSnoc(namesDue, log, reply);
      GistStep(Sent(), BeforeCall(), reply);
      log, calls := log + [reply], calls + [ThisCall()];
    }

    /** The library waits: the send timeout starts when this state is entered. */
    method WaitToSend(now: int)
      requires Base() && Called(Reply.IoWait)
      modifies rx`state, rx`connection
      ensures Base() && InSend() && Own() == old(Own())
      ensures old(rx.state) != SendQuery ==> rx.connection.conn.writeTimer == Some(now + sendTimeout)
      ensures old(rx.state) == SendQuery ==> rx.connection == old(rx.connection)
    {
      hide Pool.Valid, Receiver.Valid, Receiver.Unwritten, Cursor, Run;
      if rx.state != SendQuery {
        rx.state := SendQuery;
        rx.connection := Live(rx.connection.conn.(writeTimer := Some(now + sendTimeout)));
      }
    }

    method StopWriteTimer()
      requires Base() && rx.connection.Live?
      modifies rx`connection
      ensures Base() && rx.connection == Live(old(rx.connection.conn).(writeTimer := None))
    {
      hide Pool.Valid, Receiver.Valid, Cursor, Run;
      rx.connection := Live(rx.connection.conn.(writeTimer := None));
    }

    /** SET NAMES is answered, with a result or with error 1146: the query comes next. */
    method NamesAnswered(reply: Reply)
      requires Base() && Called(reply) && enableCharset && !hasSetNames
      requires reply == NoSuchTable || reply == Answered(true)
      modifies `hasSetNames, rx`connection, rx`state
      ensures Base() && Sendable() && hasSetNames && Own() == old(Own())
    {
      hide Pool.Valid, Receiver.Valid, Receiver.Unwritten, Cursor, Run, CallsAsDue, OnePlace, Fulfilled, OnReply, Gist,
           BeforeCall;
      AfterNames(reply);
      hasSetNames := true;
      var c := rx.connection.conn;
      rx.connection := Live(c.(writeTimer := None, unread := false, namesSet := c.namesSet + 1));
      if reply != NoSuchTable {
        rx.state := Idle;
      }
    }

    lemma AfterNames(reply: Reply)
      requires Called(reply) && enableCharset && !hasSetNames
      requires reply == NoSuchTable || reply == Answered(true)
      ensures Sent().outcome.Sending? && !Sent().pending && !Sent().writeTimer
      ensures Sent().entered == (reply == NoSuchTable && rx.state == SendQuery)
    {
      hide Run, Receiver.Unwritten;
    }

    /** The user's query is answered: with a result, or with error 1146. */
    method QueryAnswered(reply: Reply)
      requires Base() && Called(reply) && !(enableCharset && !hasSetNames)
      requires reply == NoSuchTable || reply.Answered?
      modifies rx`connection
      ensures Base() && Own() == old(Own())
      ensures rx.connection.Live? && rx.connection.conn.id == old(rx.connection.conn.id)
      ensures reply == NoSuchTable ==> Spent()
      ensures reply.Answered? ==>
                Started(Outcome.Receiving) && !Sent().pending && rx.Unwritten() && rx.connection.conn.NoTimers()
    {
      hide Pool.Valid, Receiver.Valid, Receiver.Unwritten, Cursor, Run;
      var c := rx.connection.conn;
      rx.connection := Live(c.(writeTimer := None, unread := reply != NoSuchTable && c.unread));
    }

    /** The reply was read to its end. */
    method ReplyRead()
      requires Base() && rx.connection.Live? && rx.db.pos == AtEnd
      modifies rx`connection
      ensures Base() && rx.connection == Live(old(rx.connection.conn).(unread := false))
    {
      hide Pool.Valid, Receiver.Valid, Cursor, Run;
      rx.connection := Live(rx.connection.conn.(unread := false));
    }

    /** The connection has nothing left to say and can serve another request. */
    ghost predicate Spent()
      reads `queryStarted, `statusN, `failed, `finalized, `namesDue, `log, `enableCharset, `hasSetNames, rx`connection
    {
      && queryStarted && statusN == 0 && !failed && finalized == None
      && rx.connection.Live? && rx.connection.conn.ready && !rx.connection.conn.unread
      && rx.connection.conn.NoTimers() && !(enableCharset && !hasSetNames)
    }

    /** The client's filter was given all of the right response, or has refused. */
    ghost predicate Complete()
      reads rx`broken, rx.db`pos, rx.out,
            rx.out.nginx`refused, rx.out.nginx`headed, rx.out.nginx`handed, rx.out.nginx`held, rx.out.bufs, rx.out.mem
    {
      && rx.Valid() && rx.db.pos == AtEnd
      && (rx.out.nginx.refused || (rx.out.nginx.handed == Encode(rx.out.enc, rx.db.res) && HandedOver()))
    }

    /** Notes that the result is complete, with the status of the response. */
    method MarkDone(status: nat)
      requires Base() && Spent() && (status == OK_STATUS || status == GONE)
      requires status == OK_STATUS ==>
                 rx.out.headerSent && rx.db.pos == AtEnd && !rx.broken && (rx.out.nginx.refused || HandedOver())
      modifies `statusN, rx`connection, rx`state
      ensures Base() && statusN == status && Returnable() && finalized == None && queryStarted
      ensures Keeps(false) <==> pool.maxCached > 0
      ensures rx.connection.Live? && rx.connection.conn.id == old(rx.connection.conn.id) && Own() == old(Own())
      ensures rx.db.pos == old(rx.db.pos) && rx.broken == old(rx.broken)
    {
      hide Pool.Valid, Receiver.Valid, Cursor, Run;
      statusN := status;
      rx.connection := Live(rx.connection.conn.(served := rx.connection.conn.served + 1));
      rx.state := Idle;
    }

    /** done: what is left is handed to the client and the connection is kept. */
    method Finish(status: nat)
      requires Base() && Spent() && (status == OK_STATUS || status == GONE)
      requires status == OK_STATUS ==> rx.db.pos == AtEnd && !rx.broken && rx.out.seenStreamEnd
      modifies this, pool, pool.items, rx, rx.out, rx.out.nginx, rx.out.bufs
      ensures Base() && Over() && Progress() && statusN == status && queryStarted && Justified()
      ensures finalized == Ended(if status == OK_STATUS then 0 else status)
      ensures status == OK_STATUS ==> Complete()
      ensures pool.maxCached > 0 ==>
                pool.OnTop(old(rx.connection.conn.id)) && pool.Stack()[1..] <= old(pool.Stack())
    {
      hide Base, Spent, Complete, Later, Keeps, Returnable, Over, Justified, Ended, Pool.OnTop, Pool.Stack;
      ghost var before := Now();
      WrapUp(status);
      ghost var between := Now();
      GiveBack(status);
      LaterStill(before, between, Now());
    }

    /** The connection goes back to the pool, and the request is over. */
    method GiveBack(status: nat)
      requires Base() && statusN == status && Returnable() && finalized == None && queryStarted
      requires (Keeps(false) <==> pool.maxCached > 0) && rx.connection.Live?
      modifies `failed, `used, `finalized, pool, pool.items, rx`connection
      ensures Base() && Over() && Progress() && Justified()
      ensures finalized == Ended(if status == OK_STATUS then 0 else status)
      ensures pool.maxCached > 0 ==>
                pool.OnTop(old(rx.connection.conn.id)) && pool.Stack()[1..] <= old(pool.Stack())
    {
      hide Base, Pool.Valid, Returnable, Quiescent, Push, Later, Over, Justified;
      BaseFacts();
      if pool.maxCached > 0 {
        PushThenPop(pool.Stack(), ItemOf(rx.connection.conn), pool.maxCached);
      }
      Finalize(if status == OK_STATUS then 0 else status);
      BaseFacts();
    }

    /** What is left is handed over, and the result is complete. */
    method WrapUp(status: nat)
      requires Base() && Spent() && (status == OK_STATUS || status == GONE)
      requires status == OK_STATUS ==> rx.db.pos == AtEnd && !rx.broken && rx.out.seenStreamEnd
      modifies `statusN, rx`connection, rx`state, rx.out, rx.out.nginx, rx.out.bufs
      ensures Base() && Progress() && statusN == status && Returnable() && finalized == None && queryStarted
      ensures Keeps(false) <==> pool.maxCached > 0
      ensures rx.connection.Live? && rx.connection.conn.id == old(rx.connection.conn.id)
      ensures status == OK_STATUS ==> Complete()
    {
      hide Base, Pool.Valid, Receiver.Valid, Output.Valid, Output.Stream, Quiescent, Returnable, Encode, Session, Run,
           Spent, Complete, HandedOver;
      HandOverRest(status);
      CompleteMeans();
      MarkDone(status);
    }

    lemma CompleteMeans()
      ensures Complete() ==> rx.out.nginx.refused || HandedOver()
    {
    }

    lemma BaseFacts()
      requires Base()
      ensures rx.Valid() && pool.Valid() && |pool.Stack()| <= pool.maxCached
    {
      hide Receiver.Valid, Cursor, Run, Session;
    }

    method HandOverRest(status: nat)
      requires Base() && Spent()
      requires status == OK_STATUS ==> rx.db.pos == AtEnd && !rx.broken && rx.out.seenStreamEnd
      modifies rx.out, rx.out.nginx, rx.out.bufs
      ensures Base() && Spent() && rx.out.nginx.Onward()
      ensures rx.out.bufs == old(rx.out.bufs) && rx.out.mem == old(rx.out.mem)
      ensures status == OK_STATUS ==> rx.out.headerSent && Complete()
    {
      hide Pool.Valid, Receiver.Valid, Cursor, Run, Encode;
      rx.FlushRest(status == OK_STATUS);
      if status == OK_STATUS {
        rx.AllWritten();
      }
    }

    /** A step failed and the connection is still held. */
    ghost predicate Failing()
      reads `queryStarted, `statusN, `finalized, rx, rx.db`pos, rx.out,
            rx.out.nginx`refused, rx.out.nginx`headed, rx.out.nginx`handed, rx.out.nginx`held,
            rx.out.nginx`unwatched, rx.out.outBuf
    {
      && rx.connection.Live? && statusN == 0 && finalized == None
      && (!queryStarted ==> rx.Unwritten())
    }

    /** How a step of the protocol can come out. */
    twostate predicate Stepped(rc: Rc)
      reads this, pool, pool.items, rx, rx.db, rx.out, rx.out.nginx, rx.out.bufs, rx.out.mem
    {
      && Base() && Progress() && rc != Ok && (rc.Special? ==> rc.status == SERVER_ERROR && queryStarted)
      && (rc == Again ==> AtRest())
      && (rc == Done ==> Over() && Justified() && queryStarted && statusN != 0)
      && (rc != Again ==> Reason())
      && (rc.Fails() ==>
            Failing() && remainingPeers == old(remainingPeers) && pool.cache == old(pool.cache))
    }

    /** A step that comes back has called the library, or the client is behind, or the
        request cannot go on. */
    twostate predicate Busy(rc: Rc)
      reads `calls, `queryStarted, rx.db`answers, rx`outputPaused
    {
      rc == Done || (rc == Again && rx.outputPaused) || Tried() || (queryStarted && rc.Fails())
    }

    /** A statement was sent, and this one first. */
    twostate predicate NextWas(sql: Sql)
      reads `calls
    {
      |calls| > |old(calls)| && calls[|old(calls)|].sql == sql
    }

    /** Receives what there is. */
    method ReceiveSome(now: int) returns (rc: Rc)
      requires Base() && Started(Outcome.Receiving) && !Sent().pending && !rx.outputPaused
      requires rx.Receiving() || (rx.state in {Connect, Idle, SendQuery} && rx.Entering(AtColumn(0)))
      modifies rx, rx.db, rx.out, rx.out.nginx, rx.out.bufs, rx.out.mem
      ensures Base() && Started(Outcome.Receiving) && Own() == old(Own())
      ensures rx.out.Grown()
      ensures rx.Heard(rc) && !rx.db.pos.AtHeader? && (rc == Error ==> rx.Excused())
      ensures rc == Again && rx.state != old(rx.state) ==> rx.since == now && rx.spent == 0
      ensures rc in {Again, Done, Error}
      ensures rc == Again ==> rx.out.Valid() && rx.Receiving()
      ensures rc == Done ==> rx.Finished()
    {
      hide Pool.Valid, Receiver.Valid, Receiver.Receiving, Cursor, Run;
      StateOfReceiving();
      if rx.state == RecvRows {
        rc := rx.ReceiveRows(now);
      } else {
        rc := rx.ReceiveColumns(now);
      }
      OutIsValid();
    }

    lemma StateOfReceiving()
      requires rx.Valid()
      ensures rx.Receiving() ==> rx.state in {RecvCols, RecvRows} && rx.connection.Live?
    {
    }

    lemma OutIsValid()
      requires Base()
      ensures rx.out.Valid() && rx.Valid()
    {
    }

    /** The result is complete. */
    method Conclude()
      requires Base() && Started(Outcome.Receiving) && !Sent().pending
      requires rx.connection.conn.NoTimers() && rx.db.pos == AtEnd && !rx.broken && rx.out.seenStreamEnd
      modifies this, pool, pool.items, rx, rx.out, rx.out.nginx, rx.out.bufs
      ensures Base() && Over() && Progress() && Justified() && statusN == OK_STATUS && queryStarted
      ensures rx.db.pos == old(rx.db.pos)
    {
      hide Base, Pool.Valid, Receiver.Valid, Run, Complete;
      ReplyRead();
      if enableCharset && !hasSetNames {
        assert false;  // the source's check for an outstanding SET NAMES is dead code
      }
      Finish(OK_STATUS);
    }

    /** Receives what there is, and ends the request after the last row. */
    method ReceiveMore(now: int) returns (rc: Rc)
      requires Base() && Started(Outcome.Receiving) && !Sent().pending && !rx.outputPaused
      requires rx.Receiving() || (rx.state in {Connect, Idle, SendQuery} && rx.Entering(AtColumn(0)))
      modifies this, pool, pool.items, rx, rx.db, rx.out, rx.out.nginx, rx.out.bufs, rx.out.mem
      ensures Stepped(rc) && Busy(rc) && !rx.db.pos.AtHeader? && (rc.Fails() ==> rx.Excused())
    {
      hide Base, Pool.Valid, Receiver.Valid, Receiver.Receiving, Run, Started, Failing, Over, AtRest;
      StartedSays();
      rc := ReceiveSome(now);
      StartedSays();
      if rc == Done {
        Conclude();
      } else if rc == Again {
        ReceivingRests();
      }
    }

    lemma StartedSays()
      requires Started(Outcome.Receiving)
      ensures statusN == 0 && finalized == None && Failing() && queryStarted && rx.connection.Live?
    {
      hide Run;
    }

    lemma ReceivingRests()
      requires Base() && Started(Outcome.Receiving) && !Sent().pending && rx.out.Valid() && rx.Receiving()
      ensures AtRest()
    {
      hide Base, Run;
    }

    method BeginResult() returns (rc: Rc)
      requires Base() && Started(Outcome.Receiving) && !Sent().pending
      requires rx.Unwritten() && rx.connection.conn.NoTimers()
      modifies rx`broken, rx.db`pos, rx.out, rx.out.nginx, rx.out.bufs, rx.out.mem
      ensures Base() && Started(Outcome.Receiving)
      ensures rx.out.Grown()
      ensures rx.out.nginx.Onward() && !rx.db.pos.AtHeader? && (rc == Error ==> rx.Excused())
      ensures rc in {Ok, Done, Error}
      ensures rc == Ok ==> rx.Entering(AtColumn(0))
      ensures rc == Done ==> rx.db.pos == AtEnd && !rx.broken && rx.out.seenStreamEnd
    {
      hide Pool.Valid, Receiver.Valid, Cursor, Run;
      rc := rx.WriteHeader();
    }

    /** The answer to the user's query begins to arrive. */
    method TakeResult(now: int) returns (rc: Rc)
      requires Base() && Started(Outcome.Receiving) && !Sent().pending && rx.Unwritten()
      requires rx.connection.conn.NoTimers() && rx.state in {Connect, Idle, SendQuery}
      modifies this, pool, pool.items, rx, rx.db, rx.out, rx.out.nginx, rx.out.bufs, rx.out.mem
      ensures Stepped(rc) && !rx.db.pos.AtHeader? && (rc.Fails() ==> rx.Excused())
    {
      hide Base, Pool.Valid, Receiver.Valid, Receiver.Receiving, Run;
      rc := BeginResult();
      if rc == Ok {
        rc := ReceiveMore(now);
      } else if rc == Done {
        Conclude();
      }
    }

    /** Sends SET NAMES, where it is outstanding, or the query. */
    method SendStatement(now: int) returns (rc: Rc)
      requires Base() && Sendable()
      modifies this, pool, pool.items, rx, rx.db, rx.out, rx.out.nginx, rx.out.bufs, rx.out.mem
      ensures Stepped(rc)
      ensures NextWas(old(Due()))
      decreases enableCharset && !hasSetNames, 2
    {
      hide Base, AtRest, Failing, Over, InSend, Called, Sendable;
      SendableIsLive();
      var reply := Submit();
      rc := Act(reply, now);
    }

    /** Acts on an answer of the library. */
    method Act(reply: Reply, now: int) returns (rc: Rc)
      requires Base() && Called(reply) && queryStarted
      modifies this, pool, pool.items, rx, rx.db, rx.out, rx.out.nginx, rx.out.bufs, rx.out.mem
      ensures Stepped(rc)
      decreases enableCharset && !hasSetNames, 1
    {
      hide Base, AtRest, Failing, Over, InSend, Called;
      if reply == Reply.IoWait {
        MustWait(now);
        rc := Again;
      } else if enableCharset && !hasSetNames {
        rc := OnNamesReply(reply, now);
      } else {
        rc := OnQueryReply(reply, now);
      }
    }

    method MustWait(now: int)
      requires Base() && Called(Reply.IoWait)
      modifies rx`state, rx`connection
      ensures Base() && rx.out.Valid() && AtRest() && Own() == old(Own())
    {
      hide Base, AtRest, InSend, Called;
      WaitToSend(now);
      Rested();
    }

    method OnNamesReply(reply: Reply, now: int) returns (rc: Rc)
      requires Base() && Called(reply) && reply != Reply.IoWait && enableCharset && !hasSetNames
      modifies this, pool, pool.items, rx, rx.db, rx.out, rx.out.nginx, rx.out.bufs, rx.out.mem
      ensures Stepped(rc)
      ensures reply == OtherError ==> rc == Special(SERVER_ERROR)
      ensures reply == Answered(false) ==> rc == Error
      ensures reply in {NoSuchTable, Answered(true)} ==> NextWas(UserQuery)
      decreases enableCharset && !hasSetNames, 0
    {
      hide Base, AtRest, Failing, Over, Called, Sendable;
      CalledMayFail(reply);
      if reply == OtherError {
        rc := GiveUp(Special(SERVER_ERROR));
        return;
      }
      if reply == Answered(false) {
        rc := GiveUp(Error);
        return;
      }
      NamesAnswered(reply);
      rc := SendStatement(now);
    }

    method OnQueryReply(reply: Reply, now: int) returns (rc: Rc)
      requires Base() && Called(reply) && reply != Reply.IoWait && !(enableCharset && !hasSetNames)
      modifies this, pool, pool.items, rx, rx.db, rx.out, rx.out.nginx, rx.out.bufs, rx.out.mem
      ensures Stepped(rc)
      ensures reply.Answered? ==> !rx.db.pos.AtHeader? && (rc.Fails() ==> rx.Excused())
      ensures reply == OtherError ==> rc == Special(SERVER_ERROR)
      ensures reply == NoSuchTable ==> rc == Done && statusN == GONE && finalized == Ended(GONE)
      ensures reply == NoSuchTable && pool.maxCached > 0 ==> pool.OnTop(old(rx.connection.conn.id))
    {
      hide Base, AtRest, Failing, Over, Called, Spent, Started, Receiver.Unwritten, Run, Pool.Valid, Ended;
      CalledMayFail(reply);
      if reply == OtherError {
        rc := GiveUp(Special(SERVER_ERROR));
        return;
      }
      if reply == NoSuchTable {
        NoTable();
        return Done;
      }
      QueryAnswered(reply);
      rc := TakeResult(now);
    }

    /** Error 1146: the answer is 410, and the connection can be used again. */
    method NoTable()
      requires Base() && Called(NoSuchTable) && !(enableCharset && !hasSetNames) && rx.connection.Live?
      modifies this, pool, pool.items, rx, rx.out, rx.out.nginx, rx.out.bufs
      ensures Base() && Over() && Progress() && Justified() && queryStarted && statusN == GONE
      ensures finalized == Ended(GONE)
      ensures pool.maxCached > 0 ==> pool.OnTop(old(rx.connection.conn.id))
    {
      hide Base, Called, Spent, Pool.Valid, Pool.Stack, Run, Ended, Complete, Failing, Over,
           Receiver.Valid, Receiver.Unwritten;
      CalledMayFail(NoSuchTable);
      QueryAnswered(NoSuchTable);
      Finish(GONE);
      BaseFacts();
    }

    /** Goes on connecting; a ready connection is sent on at once. */
    method ContinueConnect(now: int) returns (rc: Rc)
      requires Base() && rx.state == Connect && (Opened() || Connecting())
      modifies this, pool, pool.items, rx, rx.db, rx.out, rx.out.nginx, rx.out.bufs, rx.out.mem
      ensures Stepped(rc) && Busy(rc)
      ensures |rx.db.answers| > |old(rx.db.answers)|
      ensures match rx.db.answers[|old(rx.db.answers)|]
              case OK => |calls| > |old(calls)|
              case IoWait => rc == Again && rx.connection == old(rx.connection)
              case _ => rc == Error && calls == old(calls)
    {
      hide Base, AtRest, Failing, Over, Sendable, Opened, Connecting;
      DialledMayFail();
      var ret := rx.db.Connect(rx.connection.conn.ready);
      if ret == OK {
        MakeReady();
        rc := SendStatement(now);
      } else if ret == Ret.IoWait {
        Rested();
        rc := Again;
      } else {
        rc := GiveUp(Error);
      }
    }

    lemma DialledMayFail()
      requires Base() && (Opened() || Connecting())
      ensures Failing() && Reason() && rx.connection.Live? && (!rx.connection.conn.ready ==> Connecting())
    {
      hide Base, Receiver.Unwritten;
    }

    /** A request that waits to be connected or to send is at rest. */
    lemma Rested()
      requires Base() && (Connecting() || InSend())
      ensures rx.out.Valid() && AtRest()
    {
      hide Pool.Valid, Cursor, Run, Receiver.Unwritten;
    }

    lemma SendableIsLive()
      requires Sendable()
      ensures rx.connection.Live?
    {
      hide Run, Receiver.Unwritten;
    }

    lemma CalledMayFail(reply: Reply)
      requires Called(reply)
      ensures Failing() && queryStarted && rx.connection.Live?
      ensures reply in {OtherError, Answered(false)} ==> Reason()
      ensures rx.Unwritten() && rx.state in {Connect, Idle, SendQuery}
    {
      hide Run, Receiver.Unwritten;
    }

    /** The step failed: no timer is to strike on a connection that is about to go. */
    method GiveUp(how: Rc) returns (rc: Rc)
      requires Base() && Failing() && Reason() && (how.Special? ==> queryStarted)
      requires how == Error || how == Special(SERVER_ERROR)
      modifies rx`connection
      ensures Stepped(rc) && rc == how && Own() == old(Own())
    {
      hide Base, Pool.Valid, Receiver.Valid, Receiver.Unwritten, Run;
      StopWriteTimer();
      rc := how;
    }

    /** The connection is made. */
    method MakeReady()
      requires Base() && rx.state == Connect && (Opened() || Connecting())
      modifies rx`connection
      ensures Base() && Sendable() && Own() == old(Own())
    {
      hide Pool.Valid, Receiver.Valid, Receiver.Unwritten, Cursor, Run;
      NothingRun(namesDue);
      rx.connection := Live(rx.connection.conn.(ready := true, writeTimer := None));
    }

    method Dispatch(now: int) returns (rc: Rc)
      requires Base() && (Opened() || AtRest()) && !rx.outputPaused
      modifies this, pool, pool.items, rx, rx.db, rx.out, rx.out.nginx, rx.out.bufs, rx.out.mem
      ensures Stepped(rc) && Busy(rc) && (old(MaySend()) ==> |calls| > |old(calls)|)
    {
      hide Pool.Valid, Receiver.Valid, Cursor, Run;
      NothingRun(namesDue);
      match rx.state
      case Connect =>
        rc := ContinueConnect(now);
      case Idle =>
        rc := SendStatement(now);
      case SendQuery =>
        rc := SendStatement(now);
      case RecvCols =>
        rc := ReceiveMore(now);
      case RecvRows =>
        rc := ReceiveMore(now);
    }

    /** process_events: one round of the protocol, as far as it goes. Nothing is read
        while the client is behind; otherwise the library is called, or the client is now
        behind, or there is a reason why the request is over. */
    method ProcessEvents(now: int)
      requires Base() && (Opened() || AtRest())
      modifies this, pool, pool.items, rx, rx.db, rx.out, rx.out.nginx, rx.out.bufs, rx.out.mem
      ensures Settled() && Progress() && !rx.connection.Placeholder? && (Over() ==> Reason())
      ensures old(rx.outputPaused) ==>
                unchanged(rx.db) && AtRest() && rx.connection == old(rx.connection) && calls == old(calls)
      ensures !old(rx.outputPaused) ==> Over() || rx.outputPaused || Tried()
      ensures old(MaySend()) ==> |calls| > |old(calls)|
      decreases remainingPeers + |pool.cache|, 7
    {
      hide Base, Pool.Valid, AtRest, Opened, Reason, Tried, Justified, MaySend;
      if rx.outputPaused {
        PausedSays();
        return;
      }
      Advance(now);
    }

    method Advance(now: int)
      requires Base() && (Opened() || AtRest()) && !rx.outputPaused
      modifies this, pool, pool.items, rx, rx.db, rx.out, rx.out.nginx, rx.out.bufs, rx.out.mem
      ensures Settled() && Progress() && !rx.connection.Placeholder? && (Over() ==> Reason())
      ensures Over() || rx.outputPaused || Tried()
      ensures old(MaySend()) ==> |calls| > |old(calls)|
      decreases remainingPeers + |pool.cache|, 6
    {
      hide Base, Pool.Valid, Settled, Over, AtRest, Opened, MaySend, Failing, Justified, Reason, Later;
      ghost var before := Now();
      var rc := Dispatch(now);
      ghost var between := Now();
      OutIsValid();
      Resolve(rc, now);
      LaterStill(before, between, Now());
    }

    /** What a step of the protocol came to. */
    method Resolve(rc: Rc, now: int)
      requires Base() && (rc == Ok || rc == Again || rc == Done || rc.Fails()) && rc != Ok
      requires rx.out.Valid() && (rc == Again ==> AtRest())
      requires rc == Done ==> Over() && Justified()
      requires rc.Fails() ==> Failing() && (rc.Special? ==> rc.status == SERVER_ERROR && queryStarted)
      requires rc != Again ==> Reason()
      modifies this, pool, pool.items, rx, rx.db, rx.out, rx.out.nginx, rx.out.bufs, rx.out.mem
      ensures Settled() && Progress() && !rx.connection.Placeholder? && (Over() ==> Reason())
      ensures rc == Done || (old(queryStarted) && rc.Fails()) ==> Over()
      ensures rc == Again ==> rx.outputPaused == old(rx.outputPaused)
      decreases if rc.Fails() then remainingPeers + |pool.cache| else 0, 5, 1
    {
      hide Base, Pool.Valid, AtRest, Failing, Justified, Reason, LeftFor, Run;
      if rc.Fails() {
        StepFailed(rc, now);
      } else if rc == Again {
        AfterWait();
      }
    }

    /** A connection that is ready, and SQL to be sent or continued on it. */
    predicate MaySend()
      reads rx`state
    {
      rx.state == SendQuery || rx.state == Idle
    }

    lemma PausedSays()
      requires Base() && (Opened() || AtRest()) && rx.outputPaused
      ensures rx.out.Valid() && AtRest() && rx.out.outBufs == [] && finalized == None && queryStarted && Justified()
      ensures rx.connection.Live? && !MaySend()
    {
      hide Pool.Valid, Cursor, Run;
    }

    /** While the database is waited for, the client is offered what is full. */
    method AfterWait()
      requires Base() && rx.out.Valid() && AtRest()
      modifies this, pool, pool.items, rx, rx.out, rx.out.nginx, rx.out.bufs
      ensures Settled() && Progress() && !rx.connection.Placeholder? && (Over() ==> Reason())
      ensures calls == old(calls) && rx.outputPaused == old(rx.outputPaused)
    {
      hide Base, Pool.Valid, Run, Started, Connecting, InSend, InReceive, Opened;
      if rx.outputPaused {
        PausedSays();
      } else {
        OfferWhileWaiting();
      }
    }

    /** An error may let another peer be tried; a status ends the request. */
    method StepFailed(rc: Rc, now: int)
      requires Base() && Failing() && (rc == Error || rc == Special(SERVER_ERROR)) && Reason()
      requires rc.Special? ==> queryStarted
      modifies this, pool, pool.items, rx, rx.db, rx.out, rx.out.nginx, rx.out.bufs, rx.out.mem
      ensures Settled() && Progress() && !rx.connection.Placeholder? && (Over() ==> Reason())
      ensures old(queryStarted) ==> Over()
      ensures if rc.Special? then Over() && finalized == Ended(SERVER_ERROR) else LeftFor(ErrorReply)
      decreases remainingPeers + |pool.cache|, 5, 0
    {
      hide Base, Pool.Valid, Run, Receiver.Unwritten, AtRest;
      if rc == Error {
        Next(ErrorReply, now);
      } else {
        Finalize(rc.status);
      }
    }

    method OfferWhileWaiting()
      requires Base() && AtRest() && !rx.outputPaused
      modifies this, pool, pool.items, rx, rx.out, rx.out.nginx, rx.out.bufs
      ensures Settled() && Progress() && !rx.connection.Placeholder?
      ensures Over() ==> rx.out.nginx.refused && queryStarted
      ensures Over() ==> finalized == Ended(SERVER_ERROR)
      ensures calls == old(calls) && rx.outputPaused == old(rx.outputPaused)
    {
      hide Base, Pool.Valid, Run, Started, Connecting, InSend, InReceive, Opened;
      RestMayFail();
      var rc := OfferNow();
      if rc != Ok {
        Finalize(SERVER_ERROR);
      }
    }

    method OfferNow() returns (rc: Rc)
      requires Base() && AtRest() && !rx.outputPaused
      modifies rx.out, rx.out.nginx, rx.out.bufs
      ensures Base() && rx.out.nginx.Onward() && rx.out.bufs == old(rx.out.bufs) && rx.out.mem == old(rx.out.mem)
      ensures if rc == Ok then AtRest() && rx.out.outBufs == []
              else rc == Error && rx.out.nginx.refused && queryStarted && Failing()
    {
      hide Pool.Valid, Receiver.Valid, Cursor, Run;
      rc := rx.OfferMore();
    }

    // --- events ---

    /** The content handler: starts the request and clears a placeholder away. */
    method Handle(now: int)
      requires Base() && Looking()
      modifies this, pool, pool.items, rx, rx.db, rx.out, rx.out.nginx, rx.out.bufs, rx.out.mem
      ensures Settled() && Progress() && !rx.connection.Placeholder?
      ensures old(AtLimit()) ==> Over() && finalized == Some(SERVICE_UNAVAILABLE) && !queryStarted
      ensures old(remainingPeers) > 0 ==> WentOn()
    {
      hide Base, Pool.Valid, Receiver.Unwritten, Run, Connecting, InSend, InReceive;
      DbdConnect(now);
      if rx.connection.Placeholder? {
        DropPlaceholder();
        Finalize(SERVICE_UNAVAILABLE);
      }
    }

    method DropPlaceholder()
      requires Base() && Rejected()
      modifies rx`connection
      ensures Base() && rx.connection == NoConn
    {
      hide Pool.Valid, Receiver.Valid, Cursor, Run;
      rx.connection := NoConn;
    }

    /** The receive timeout strikes: its limit was spent reading, pauses not counted. */
    method ReadTimeout(now: int)
      requires Settled() && AtRest() && rx.connection.conn.readTimer.Some? && now >= rx.connection.conn.readTimer.value
      modifies this, pool, pool.items, rx, rx.db, rx.out, rx.out.nginx, rx.out.bufs, rx.out.mem
      ensures Settled() && Progress() && Over() && LeftFor(Timeout)
      ensures old(rx.state) in {RecvCols, RecvRows} && !old(rx.outputPaused)
      ensures old(rx.spent) + (now - old(rx.since)) >= old(rx.limit) + old(rx.clamps) + old(rx.late)
    {
      hide Base, Pool.Valid, Run, Started, LeftFor;
      RestMayFail();
      ReadTimerMeansReceiving();
      TimedOut(false, now);
      QueryOnce();
    }

    /** What a started request has left is over. */
    twostate lemma QueryOnce()
      requires LeftFor(Timeout) && old(queryStarted)
      ensures Over()
    {
    }

    /** The connect or the send timeout strikes. Only the first lets another peer be tried. */
    method WriteTimeout(now: int)
      requires Settled() && AtRest()
      requires rx.connection.conn.writeTimer.Some? && now >= rx.connection.conn.writeTimer.value
      modifies this, pool, pool.items, rx, rx.db, rx.out, rx.out.nginx, rx.out.bufs, rx.out.mem
      ensures Settled() && Progress() && !rx.connection.Placeholder? && LeftFor(Timeout)
      ensures old(rx.state) in {Connect, SendQuery}
      ensures old(rx.state) == SendQuery ==> Over()
    {
      hide Base, Pool.Valid, Run, LeftFor;
      RestMayFail();
      TimedOut(true, now);
      if old(queryStarted) {
        QueryOnce();
      }
    }

    /** The timer that went off is no longer set, and the connection is left. */
    method TimedOut(write: bool, now: int)
      requires Base() && Failing()
      modifies this, pool, pool.items, rx, rx.db, rx.out, rx.out.nginx, rx.out.bufs, rx.out.mem
      ensures Settled() && Progress() && !rx.connection.Placeholder? && LeftFor(Timeout)
    {
      hide Base, Pool.Valid, Receiver.Unwritten, AtRest;
      ClearTimer(write);
      Next(Timeout, now);
    }

    lemma ReadTimerMeansReceiving()
      requires Settled() && AtRest() && rx.connection.conn.readTimer.Some?
      ensures queryStarted && rx.state in {RecvCols, RecvRows} && !rx.outputPaused
      ensures rx.connection.conn.readTimer.value == rx.since + rx.limit - rx.spent + rx.clamps + rx.late
    {
      hide Pool.Valid, Cursor, Run;
    }

    /** A timer that went off is no longer set. */
    method ClearTimer(write: bool)
      requires Base() && Failing()
      modifies rx`connection
      ensures Base() && Failing() && Own() == old(Own())
    {
      hide Pool.Valid, Receiver.Valid, Cursor, Run;
      var c := rx.connection.conn;
      rx.connection := Live(if write then c.(writeTimer := None) else c.(readTimer := None));
    }

    /** The socket of the connection is ready, for reading or for writing. If it is broken
        it is left; otherwise the protocol goes on. */
    method SocketEvent(now: int, broken: bool)
      requires Settled() && AtRest()
      modifies this, pool, pool.items, rx, rx.db, rx.out, rx.out.nginx, rx.out.bufs, rx.out.mem
      ensures Settled() && Progress() && !rx.connection.Placeholder?
      ensures broken ==> LeftFor(ErrorReply)
      ensures !broken && old(rx.outputPaused) ==>
                unchanged(rx.db) && AtRest() && finalized == None && rx.connection == old(rx.connection)
      ensures !broken && !old(rx.outputPaused) ==> (Over() && Reason()) || rx.outputPaused || Tried()
      ensures !broken && old(rx.state) == SendQuery ==> |calls| > |old(calls)|
    {
      hide Base, Pool.Valid, Run, Started, LeftFor, Connecting, InSend, InReceive;
      RestMayFail();
      if broken {
        Next(ErrorReply, now);
      } else {
        ProcessEvents(now);
        if old(rx.outputPaused) {
          RestMayFail();
        }
      }
    }

    lemma RestMayFail()
      requires Base() && AtRest()
      ensures Failing() && (rx.state in {RecvCols, RecvRows, SendQuery} <==> queryStarted) && rx.state != Idle
    {
      hide Pool.Valid, Receiver.Valid, Cursor, Run;
    }

    /** drain_output: the client can take more. While reading is suspended, only this
        ends the wait, and it does unless the client still holds something up. */
    method ClientWritable(now: int, timedOut: bool, delayed: bool)
      requires Settled() && AtRest() && rx.outputPaused
      modifies this, pool, pool.items, rx, rx.db, rx.out, rx.out.nginx, rx.out.bufs, rx.out.mem
      ensures Settled() && Progress() && !rx.connection.Placeholder?
      ensures timedOut && !delayed ==> Over() && finalized == Ended(REQUEST_TIMEOUT)
      ensures delayed && !timedOut ==> rx.out.nginx.offers == old(rx.out.nginx.offers)
      ensures delayed && !timedOut ==> if Over() then rx.out.nginx.unwatched else rx.connection == old(rx.connection)
      ensures timedOut == delayed ==> (Over() && Reason()) || rx.outputPaused || Tried()
      ensures timedOut == delayed ==> rx.out.nginx.offers > old(rx.out.nginx.offers)
    {
      hide Base, Pool.Valid, Run, Started, AtRest;
      PausedMeansReceiving();
      if timedOut && !delayed {
        Finalize(REQUEST_TIMEOUT);
      } else if delayed && !timedOut {
        WatchClient();
      } else {
        DrainOutput(now);
      }
    }

    /** The client's side is offered more; reading goes on, the wait goes on, or the client's
        side has failed. */
    method DrainOutput(now: int)
      requires Settled() && AtRest() && rx.outputPaused
      modifies this, pool, pool.items, rx, rx.db, rx.out, rx.out.nginx, rx.out.bufs, rx.out.mem
      ensures Settled() && Progress() && !rx.connection.Placeholder?
      ensures Over() ==> Reason()
      ensures Over() || rx.outputPaused || Tried()
      ensures rx.out.nginx.offers > old(rx.out.nginx.offers)
    {
      hide Base, Pool.Valid, Run, Started, AtRest;
      PausedMeansReceiving();
      var rc := DrainSome(now);
      if rc.Fails() {
        Finalize(if rc == Error then FAILURE else rc.status);
      } else if rc == Again {
        WatchClient();
      } else {
        ProcessEvents(now);
      }
    }

    method WatchClient()
      requires Settled() && AtRest()
      modifies this, pool, pool.items, rx`connection, rx.out.nginx`unwatched
      ensures Settled() && Progress() && !rx.connection.Placeholder?
      ensures if Over() then rx.out.nginx.unwatched && finalized == Ended(SERVER_ERROR)
              else rx.connection == old(rx.connection)
    {
      hide Base, Pool.Valid, Run, Started, LeftFor;
      RestMayFail();
      var watched := rx.out.nginx.Watch();
      if !watched {
        Finalize(SERVER_ERROR);
      }
    }

    method DrainSome(now: int) returns (rc: Rc)
      requires Settled() && AtRest() && rx.outputPaused
      modifies rx, rx.out, rx.out.nginx, rx.out.bufs
      ensures Base() && Own() == old(Own()) && Failing() && rc in {Ok, Again, Error, Special(SERVER_ERROR)}
      ensures rx.out.bufs == old(rx.out.bufs) && rx.out.mem == old(rx.out.mem)
      ensures rx.out.nginx.Onward() && rx.out.nginx.offers > old(rx.out.nginx.offers)
      ensures !rc.Fails() ==> AtRest() && rx.state == old(rx.state) && rx.outputPaused == (rc == Again)
      ensures !rc.Fails() ==> rx.out.outBufs == []
      ensures rc == Again ==> rx.out.nginx.held || rx.out.Unsent() > 0
      ensures rc == Error ==> rx.out.nginx.refused
      ensures rc.Special? ==> rx.out.nginx.unwatched
    {
      hide Pool.Valid, Receiver.Valid, Receiver.Receiving, Cursor, Run;
      PausedMeansReceiving();
      rc := rx.Drain(now);
    }

    lemma PausedMeansReceiving()
      requires Settled() && AtRest() && rx.outputPaused
      ensures InReceive() && queryStarted && Failing() && !rx.connection.Placeholder?
    {
      hide Pool.Valid, Receiver.Valid, Cursor, Run;
    }

    /** The client went away: a connection in the middle of a result is closed. */
    method ClientAborted()
      requires Settled() && AtRest()
      modifies this, pool, pool.items, rx`connection, rx.out.nginx`gone
      ensures Settled() && Progress() && Over() && finalized == Ended(CLIENT_CLOSED) && rx.out.nginx.gone
      ensures pool.Stack() == old(pool.Stack()) && old(rx.connection.conn.id) in pool.closed
    {
      hide Base, Pool.Valid, Run, Started;
      RestMayFail();
      rx.out.nginx.Leave();
      Finalize(CLIENT_CLOSED);
    }

    // --- what holds whenever the request is at rest ---

    /** While the database is waited for, exactly one timer runs: the connect, send or
        receive timeout. The one exception is a query sent again in place after a late
        error 1146 to SET NAMES. While reading is suspended, no timer runs. */
    lemma TimerCoverage()
      requires Settled() && AtRest()
      ensures var c := rx.connection.conn;
              if rx.outputPaused then c.NoTimers()
              else
                && rx.state != Idle
                && (c.readTimer.Some? <==> rx.state in {RecvCols, RecvRows})
                && (c.writeTimer.Some? <==> rx.state == Connect || (rx.state == SendQuery && !TimerLost(log)))
    {
      hide Pool.Valid, Receiver.Valid, Cursor, Run;
      if InSend() {
        SendTimerCoverage(namesDue, log);
      }
    }

    /** One request tries every peer at most once, whatever other requests do. */
    lemma PeersTriedOnce()
      requires Base()
      ensures Unrepeated(picks) && |picks| <= |pool.peers| && forall p | p in picks :: p < |pool.peers|
    {
      hide Pool.Valid, Receiver.Valid, Run;
    }

    /** Over all connections and peers together, SET NAMES and the user's query are each
        sent afresh at most once, in this order, and all SQL goes to one connection. */
    lemma QuerySubmittedOnce()
      requires Base()
      ensures |calls| == |log|
      ensures Submitted(calls, log) <= (if namesDue then [SetNames, UserQuery] else [UserQuery])
      ensures forall i :: 0 <= i < |calls| ==>
                contacts != [] && calls[i].conn == contacts[|contacts| - 1]
                && calls[i].picks == picks && calls[i].contacts == contacts
    {
      hide Pool.Valid, Receiver.Valid, Run;
      StatementsOnce(namesDue, log);
      if calls != [] {
        SubmittedOnOne(namesDue, calls, log, contacts[|contacts| - 1]);
      }
    }

    /** No call ever sent the user's query to a charset peer before the charset was set. */
    lemma CharsetDiscipline()
      requires Base()
      ensures forall i :: 0 <= i < |calls| ==>
                calls[i].sql == UserQuery && calls[i].charsetPeer ==> calls[i].namesSet == 1
    {
      hide Pool.Valid, Receiver.Valid, Cursor, Run;
    }
  }

  /** What matters for the next call. */
  function Gist(v: Send): Send { v.(waiting := false, starts := []) }

  lemma GistStep(v: Send, w: Send, r: Reply)
    requires Gist(v) == Gist(w)
    ensures Gist(OnReply(v, r)) == Gist(OnReply(w, r))
  {
  }

  /** Indices run round a table of `n`. */
  function Wrap(x: nat, n: nat): nat {
    if x < n then x else x - n
  }

  lemma NextIndex(x: nat, n: nat)
    requires x < n
    ensures (x + 1) % n == if x + 1 == n then 0 else x + 1
  {
  }
}
