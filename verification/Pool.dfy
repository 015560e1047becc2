/** The keepalive pool of one upstream: a fixed array of items, linked in a queue of
    cached connections and a queue of free items, and the count of connections. */
module Pool {
  import opened Wrappers
  import opened Connection

  /** What is done at the limit; Unset is any value that the configuration does not set. */
  datatype Overflow = Ignore | Reject | Unset

  datatype Peer = Peer(address: nat, charset: bool)

  /** A slot of the pool. What it holds means something only while it is cached. */
  datatype Item = Item(conn: Conn, address: nat, hasSetNames: bool, used: nat)

  const NO_CONN := Conn(0, 0, 0, false, false, 0, false, 0, None, None)

  // --- the reference: a bounded stack of idle connections ---

  /** The newest goes on top; when there is no room, the oldest goes. */
  function Push(s: seq<Item>, x: Item, max: nat): seq<Item> {
    [x] + if |s| < max then s else if s == [] then [] else s[..|s| - 1]
  }

  /** All but one, in their order. */
  function RemoveAt<T>(s: seq<T>, k: nat): (r: seq<T>)
    requires k < |s|
    ensures |r| == |s| - 1
    ensures forall i :: 0 <= i < k ==> r[i] == s[i]
    ensures forall i :: k <= i < |r| ==> r[i] == s[i + 1]
  {
    s[..k] + s[k + 1..]
  }

  /** The place of the newest item for an address, or the length if there is none. */
  function Newest(s: seq<Item>, address: nat): (k: nat)
    ensures k <= |s|
    ensures k < |s| ==> s[k].address == address
    ensures forall i :: 0 <= i < k ==> s[i].address != address
  {
    if s == [] then 0
    else if s[0].address == address then 0
    else 1 + Newest(s[1..], address)
  }

  lemma NewestIs(s: seq<Item>, address: nat, k: nat)
    requires k <= |s| && forall i :: 0 <= i < k ==> s[i].address != address
    requires k < |s| ==> s[k].address == address
    ensures Newest(s, address) == k
  {
  }

  /** LIFO: what was put back last is what is taken next, and the rest is as before
      unless the pool was full. */
  lemma PushThenPop(s: seq<Item>, x: Item, max: nat)
    requires |s| <= max && max > 0
    ensures Push(s, x, max) != [] && Push(s, x, max)[0] == x && |Push(s, x, max)| <= max
    ensures |s| < max ==> Push(s, x, max)[1..] == s
    ensures |s| == max ==> Push(s, x, max)[1..] == s[..max - 1]
    ensures Newest(Push(s, x, max), x.address) == 0
  {
  }

  // --- queues of item numbers ---

  ghost predicate Unrepeated(s: seq<nat>) {
    forall i, j :: 0 <= i < j < |s| ==> s[i] != s[j]
  }

  /** Every item number below `n` is in exactly one of the two queues, once. */
  ghost predicate Partition(a: seq<nat>, b: seq<nat>, n: nat) {
    && |a| + |b| == n
    && forall k: nat :: multiset(a)[k] + multiset(b)[k] == if k < n then 1 else 0
  }

  lemma CountTwice(s: seq<nat>, i: nat, j: nat)
    requires i < j < |s| && s[i] == s[j]
    ensures multiset(s)[s[i]] >= 2
  {
    assert s == s[..j] + ([s[j]] + s[j + 1..]);
    assert s[..j][i] in multiset(s[..j]);
  }

  lemma PartitionFacts(a: seq<nat>, b: seq<nat>, n: nat)
    requires Partition(a, b, n)
    ensures Unrepeated(a) && forall k | k in a :: k < n && k !in b
    ensures forall k | k in b :: k < n
  {
    forall i, j | 0 <= i < j < |a|
      ensures a[i] != a[j]
    {
      if a[i] == a[j] {
        CountTwice(a, i, j);
      }
    }
    assert forall k | k in a :: multiset(a)[k] > 0;
    assert forall k | k in b :: multiset(b)[k] > 0;
  }

  lemma PartitionMove(a: seq<nat>, b: seq<nat>, n: nat, i: nat)
    requires Partition(a, b, n) && i < |a|
    ensures Partition(RemoveAt(a, i), [a[i]] + b, n)
    ensures Partition([a[i]] + b, RemoveAt(a, i), n)
    ensures forall x :: x in RemoveAt(a, i) <==> x in a && x != a[i]
  {
    PartitionFacts(a, b, n);
    assert a == a[..i] + ([a[i]] + a[i + 1..]);
    assert multiset(a) == multiset(RemoveAt(a, i)) + multiset{a[i]};
    assert multiset([a[i]] + b) == multiset{a[i]} + multiset(b);
    assert multiset(a)[a[i]] == 1;
    assert forall x :: x in a <==> multiset(a)[x] > 0;
    assert forall x :: x in RemoveAt(a, i) <==> multiset(RemoveAt(a, i))[x] > 0;
  }

  lemma PartitionMoveBack(a: seq<nat>, b: seq<nat>, n: nat)
    requires Partition(a, b, n) && b != []
    ensures Partition([b[0]] + a, b[1..], n)
    ensures b[0] < n && b[0] !in a
  {
    assert b == [b[0]] + b[1..];
    assert multiset(b) == multiset{b[0]} + multiset(b[1..]);
    assert multiset([b[0]] + a) == multiset{b[0]} + multiset(a);
    assert multiset(b)[b[0]] > 0;
    assert b[0] in a ==> multiset(a)[b[0]] > 0;
  }

  /** The items that a queue names, in its order. */
  function Entries(items: seq<Item>, q: seq<nat>): (s: seq<Item>)
    requires forall i :: 0 <= i < |q| ==> q[i] < |items|
    ensures |s| == |q| && forall i :: 0 <= i < |q| ==> s[i] == items[q[i]]
  {
    seq(|q|, i requires 0 <= i < |q| => items[q[i]])
  }

  lemma EntriesRemove(items: seq<Item>, q: seq<nat>, k: nat)
    requires k < |q| && forall i :: 0 <= i < |q| ==> q[i] < |items|
    ensures forall i :: 0 <= i < |q| - 1 ==> RemoveAt(q, k)[i] < |items|
    ensures Entries(items, RemoveAt(q, k)) == RemoveAt(Entries(items, q), k)
  {
  }

  lemma EntriesStore(items: seq<Item>, a: seq<nat>, q: nat, item: Item)
    requires q < |items| && q !in a && forall k | k in a :: k < |items|
    ensures forall i :: 0 <= i < |a| ==> a[i] < |items|
    ensures Entries(items[q := item], [q] + a) == [item] + Entries(items, a)
  {
    assert forall i :: 0 <= i < |a| ==> a[i] in a;
  }

  /** What must be true of a connection that waits in the pool: nothing is left to
      read from it, no timer runs, and its session is as the item says. */
  predicate Quiescent(it: Item) {
    var c := it.conn;
    && c.ready && !c.unread && c.NoTimers()
    && it.address == c.address && it.used == c.served
    && c.namesSet == (if it.hasSetNames then 1 else 0) && (c.charsetPeer ==> it.hasSetNames)
  }

  class Pool {
    const peers: seq<Peer>
    const maxCached: nat
    const single: bool
    const overflow: Overflow
    const items: array<Item>

    var cache: seq<nat>        // newest first
    var free: seq<nat>
    var owner: map<nat, nat>   // the item that an idle connection points back to
    var current: nat           // where the next request starts its round robin
    var activeConns: nat
    var nextId: nat

    ghost var held: set<nat>   // open connections in the hands of requests
    ghost var closed: set<nat> // connections that were open once; they never come back

    ghost predicate Cached(k: nat)
      reads `owner, `nextId, `held, items
    {
      && k < items.Length
      && Quiescent(items[k])
      && items[k].conn.id in owner && owner[items[k].conn.id] == k
      && items[k].conn.id < nextId && items[k].conn.id !in held
    }

    ghost predicate Valid()
      reads `cache, `free, `owner, `activeConns, `nextId, `held, `closed, items
    {
      && peers != [] && items.Length == maxCached
      && Partition(cache, free, maxCached)
      && (forall k | k in cache :: Cached(k))
      && (forall id | id in owner :: owner[id] in cache && items[owner[id]].conn.id == id)
      && (forall id | id in held :: id < nextId && id !in owner)
      && (forall id | id in closed :: id < nextId && id !in owner && id !in held)
      && activeConns == |cache| + |held|
      && (Limited() ==> activeConns <= maxCached)
    }

    /** The upstream counts its connections and refuses more than the pool holds. */
    predicate Limited() { maxCached > 0 && overflow == Reject }

    predicate HasRoom()
      reads `activeConns
    {
      Limited() ==> activeConns < maxCached
    }

    /** The cached connections, newest first. */
    ghost function Stack(): seq<Item>
      requires Valid()
      reads `cache, `free, `owner, `activeConns, `nextId, `held, `closed, items
    {
      PartitionFacts(cache, free, maxCached);
      assert forall i :: 0 <= i < |cache| ==> cache[i] in cache;
      Entries(items[..], cache)
    }

    /** This connection is the next to be taken. */
    ghost predicate OnTop(id: nat)
      reads `cache, `free, `owner, `activeConns, `nextId, `held, `closed, items
    {
      Valid() && Stack() != [] && Stack()[0].conn.id == id
    }

    constructor (peers: seq<Peer>, maxCached: nat, single: bool, overflow: Overflow)
      requires peers != []
      ensures Valid() && fresh(items)
      ensures this.peers == peers && this.maxCached == maxCached && this.single == single && this.overflow == overflow
      ensures Stack() == [] && held == {} && activeConns == 0
    {
      this.peers, this.maxCached, this.single, this.overflow := peers, maxCached, single, overflow;
      items := new Item[maxCached](_ => Item(NO_CONN, 0, false, 0));
      cache, free, owner, current, activeConns, nextId := [], [], map[], 0, 0, 0;
      held, closed := {}, {};
      new;
      for i := 0 to maxCached
        modifies `free
        invariant Partition(cache, free, i)
      {
        assert multiset([i] + free) == multiset{i} + multiset(free);
        free := [i] + free;
      }
    }

    /** Item `cache[k]` goes to the head of the free queue; its connection to a request. */
    method Unlink(k: nat) returns (item: Item)
      requires Valid() && k < |cache|
      modifies `cache, `free, `owner, `held
      ensures Valid() && Stack() == RemoveAt(old(Stack()), k) && item == old(Stack()[k])
      ensures item.conn.id !in old(held) && held == old(held) + {item.conn.id}
      ensures Quiescent(item)
    {
      hide Partition, Quiescent, RemoveAt, Cached, Stack;
      PartitionFacts(cache, free, maxCached);
      var q := cache[k];
      assert q in cache;
      CachedSays(q);
      StackAt(k);
      item := items[q];
      MoveToFree(k);
      owner := owner - {item.conn.id};
      held := held + {item.conn.id};
      OthersCached(q);
      StackWithout(k);
    }

    lemma StackAt(k: nat)
      requires Valid() && k < |cache|
      ensures |Stack()| == |cache| && cache[k] < items.Length && Stack()[k] == items[cache[k]]
    {
      hide Partition, Quiescent;
      assert cache[k] in cache && Cached(cache[k]);
    }

    twostate lemma StackWithout(k: nat)
      requires old(Valid()) && Valid() && unchanged(items) && old(k < |cache|) && cache == RemoveAt(old(cache), k)
      ensures k < |old(Stack())| && Stack() == RemoveAt(old(Stack()), k)
    {
      hide Valid, Entries, RemoveAt;
      EveryIndex();
      EntriesRemove(items[..], old(cache), k);
    }

    twostate lemma EveryIndex()
      requires old(Valid())
      ensures forall i :: 0 <= i < |old(cache)| ==> old(cache)[i] < items.Length
    {
      hide Partition, Quiescent;
      assert forall i :: 0 <= i < |old(cache)| ==> old(cache)[i] in old(cache) && old(Cached(cache[i]));
    }

    lemma CachedSays(k: nat)
      requires Cached(k)
      ensures k < items.Length && Quiescent(items[k]) && items[k].conn.id < nextId && items[k].conn.id !in held
      ensures items[k].conn.id in owner && owner[items[k].conn.id] == k
    {
    }

    twostate lemma OthersCached(q: nat)
      requires old(Cached(q)) && nextId == old(nextId) && unchanged(items)
      requires forall k | k in cache :: old(Cached(k)) && k != q
      requires owner == old(owner) - {items[q].conn.id} && held == old(held) + {items[q].conn.id}
      ensures forall k | k in cache :: Cached(k)
    {
    }

    method MoveToFree(k: nat)
      requires Partition(cache, free, maxCached) && k < |cache|
      modifies `cache, `free
      ensures Partition(cache, free, maxCached)
      ensures |cache| == |old(cache)| - 1 && cache == RemoveAt(old(cache), k) && free == old([cache[k]] + free)
      ensures forall x :: x in cache <==> x in old(cache) && x != old(cache[k])
    {
      hide Partition;
      PartitionMove(cache, free, maxCached, k);
      free := [cache[k]] + free;
      cache := RemoveAt(cache, k);
    }

    /** Any idle connection, the newest first. */
    method GetSingle() returns (item: Option<Item>)
      requires Valid()
      modifies `cache, `free, `owner, `held
      ensures Valid()
      ensures old(Stack()) == [] ==> item == None && Stack() == [] && held == old(held)
      ensures old(Stack()) != [] ==> item == Some(old(Stack())[0]) && Stack() == old(Stack())[1..]
      ensures item.Some? ==> Taken(item.value, old(held))
    {
      if cache == [] {
        return None;
      }
      var it := Unlink(0);
      return Some(it);
    }

    ghost predicate Taken(item: Item, before: set<nat>)
      reads `held
    {
      Quiescent(item) && item.conn.id !in before && held == before + {item.conn.id}
    }

    /** The newest idle connection to this address, if there is one. */
    method GetMulti(address: nat) returns (item: Option<Item>)
      requires Valid()
      modifies `cache, `free, `owner, `held
      ensures Valid()
      ensures var s := old(Stack()); var k := Newest(s, address);
              if k == |s| then item == None && Stack() == s && held == old(held)
              else item == Some(s[k]) && Stack() == RemoveAt(s, k)
      ensures item.Some? ==> Taken(item.value, old(held))
    {
      hide Partition, Quiescent;
      PartitionFacts(cache, free, maxCached);
      assert forall k :: 0 <= k < |cache| ==> cache[k] in cache;
      for i := 0 to |cache|
        invariant forall k :: 0 <= k < i ==> items[cache[k]].address != address
      {
        if items[cache[i]].address == address {
          NewestIs(Stack(), address, i);
          var it := Unlink(i);
          return Some(it);
        }
      }
      NewestIs(Stack(), address, |cache|);
      return None;
    }

    /** A connection to a peer is opened. */
    method Open(peer: nat, ready: bool) returns (conn: Conn)
      requires Valid() && peer < |peers| && HasRoom()
      modifies `activeConns, `nextId, `held
      ensures Valid() && Stack() == old(Stack())
      ensures conn == Conn(old(nextId), peer, peers[peer].address, peers[peer].charset, ready, 0, false, 0, None, None)
      ensures conn.id !in old(held) && held == old(held) + {conn.id} && activeConns == old(activeConns) + 1
    {
      hide Partition, Quiescent;
      assert forall id | id in owner :: owner[id] in cache && Cached(owner[id]);
      conn := Conn(nextId, peer, peers[peer].address, peers[peer].charset, ready, 0, false, 0, None, None);
      held := held + {nextId};
      nextId := nextId + 1;
      activeConns := activeConns + 1;
    }

    /** A connection in the hands of a request is closed. The count cannot underflow. */
    method Destroy(id: nat)
      requires Valid() && id in held
      modifies `activeConns, `held, `closed
      ensures Valid() && Stack() == old(Stack())
      ensures closed == old(closed) + {id} && held == old(held) - {id} && activeConns == old(activeConns) - 1
    {
      hide Partition, Quiescent;
      held, closed := held - {id}, closed + {id};
      activeConns := activeConns - 1;
    }

    /** The newest connection of the pool is now this one. */
    method StoreHead(item: Item)
      requires Valid() && free != [] && item.conn.id in held && Quiescent(item)
      modifies `cache, `free, `owner, `held, items
      ensures Valid() && Stack() == [item] + old(Stack())
      ensures held == old(held) - {item.conn.id}
    {
      hide Partition, Quiescent, Entries;
      PartitionFacts(cache, free, maxCached);
      PartitionMoveBack(cache, free, maxCached);
      var q := free[0];
      EntriesStore(items[..], cache, q, item);
      free := free[1..];
      items[q] := item;
      cache := [q] + cache;
      owner := owner[item.conn.id := q];
      held := held - {item.conn.id};
      assert items[..] == old(items[..])[q := item];
    }

    /** Keeps the connection of a request for later. If the pool is full, the oldest
        connection is closed for it. */
    method Save(item: Item)
      requires Valid() && maxCached > 0 && item.conn.id in held && Quiescent(item)
      modifies `cache, `free, `owner, `held, `closed, `activeConns, items
      ensures Valid() && Stack() == Push(old(Stack()), item, maxCached)
      ensures held == old(held) - {item.conn.id} && old(closed) <= closed
      ensures activeConns == old(activeConns) - if old(|Stack()|) == maxCached then 1 else 0
      ensures Limited() ==> old(|Stack()|) < maxCached  // a refusing pool never evicts
    {
      hide Quiescent;
      if free == [] {
        var oldest := Unlink(|cache| - 1);
        Destroy(oldest.conn.id);
      }
      StoreHead(item);
    }

    /** The server closed an idle connection, or nginx wants it closed. */
    method CloseIdle(id: nat, stale: bool) returns (ghost k: nat)
      requires Valid() && id in owner
      modifies `cache, `free, `owner, `held, `closed, `activeConns
      ensures Valid() && held == old(held)
      ensures k < |old(Stack())| && old(Stack())[k].conn.id == id
      ensures stale ==> Stack() == old(Stack()) && activeConns == old(activeConns)
      ensures closed == if stale then old(closed) else old(closed) + {id}
      ensures !stale ==> Stack() == RemoveAt(old(Stack()), k) && activeConns == old(activeConns) - 1 && id !in owner
    {
      hide Partition, Quiescent;
      var i :| 0 <= i < |cache| && cache[i] == owner[id];
      k := i;
      if stale {
        return;
      }
      var it := Unlink(i);
      Destroy(id);
    }
  }
}
