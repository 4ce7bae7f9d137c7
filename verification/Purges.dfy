/** The periodic purges of an agent remove exactly what has expired. */
module Purges {
  import opened Types
  import opened RouteTable
  import opened Handlers
  import opened LocalSteps

  /** A broadcast id is cached after `id_purge` if and only if an entry for it has not expired. */
  lemma {:induction false} IdPurgeExact(c: seq<CacheEntry>, now: real, x: CacheEntry)
    ensures x in Unexpired(c, now) <==> x in c && x.expire > now
  {
    if c != [] {
      var k := |c| - 1;
      IdPurgeExact(c[..k], now, x);
      assert c == c[..k] + [c[k]];
    }
  }

  lemma {:induction false} DrainTouchesOne(n: Node, d: Addr, now: real, how: Disposal, x: Addr)
    requires d in n.table && x in n.table && x != d
    ensures Drain(n, d, now, how).table[x] == n.table[x]
    decreases |n.buffer|
  {
    hide Deque;
    var (n1, p) := Deque(n, d, now);
    if p.Some? {
      DrainTouchesOne(Dispose(n1, d, p.value, now, how), d, now, how, x);
    }
  }

  lemma PurgeTouchesOne(n: Node, d: Addr, now: real, x: Addr)
    requires d in n.table && x in n.table && x != d
    ensures PurgeEntry(n, d, now).table[x] == n.table[x]
  {
    hide Drain;
    var n0 := Check(n, Usable(n.table[d]));
    DrainTouchesOne(n0, d, now, DropIt, x);
    DrainTouchesOne(n0, d, now, ForwardIt, x);
    DrainTouchesOne(SetRoute(n, d, GivenUp(n.table[d], now)), d, now, DropIt, x);
  }

  predicate Expired(r: Route, now: real) { r.flag == Up && r.expire < now }

  /** What the purge makes of a route. */
  predicate Purged(r: Route, r': Route, now: real) {
    if Expired(r, now)
    then r'.flag == Down && !Usable(r') && r'.seqno == r.seqno + 1 && r'.lastHops == r.hops
    else SameRoute(r, r')
  }

  lemma PurgeEntryExact(n: Node, d: Addr, now: real)
    requires NodeSound(n) && d in n.table
    ensures Purged(n.table[d], PurgeEntry(n, d, now).table[d], now)
  {
    hide Drain, SendRequest, NodeSound;
    var n0 := Check(n, Usable(n.table[d]));
    DrainSilent(n0, d, now, DropIt);
    DrainSilent(n0, d, now, ForwardIt);
    SendRequestOwn(n, d, now);
  }

  lemma {:induction false} PurgeAllExact(n: Node, ds: seq<Addr>, now: real, d: Addr)
    requires NodeSound(n) && NoDuplicates(ds) && d in n.table
    ensures if d in ds then Purged(n.table[d], PurgeAll(n, ds, now).table[d], now)
            else PurgeAll(n, ds, now).table[d] == n.table[d]
    decreases |ds|
  {
    hide PurgeEntry, NodeSound, Purged;
    if ds != [] {
      var rest := ds[1..];
      assert ds == [ds[0]] + rest && ds[0] !in rest;
      if ds[0] in n.table {
        var n1 := PurgeEntry(n, ds[0], now);
        PurgeEntryOwn(n, ds[0], now);
        OwnKeepsNodeSound(n, n1);
        PurgeAllExact(n1, rest, now, d);
        if d == ds[0] {
          PurgeEntryExact(n, d, now);
        } else {
          PurgeTouchesOne(n, ds[0], now, d);
        }
      } else {
        PurgeAllExact(n, rest, now, d);
      }
    }
  }

  /** `rt_purge` takes down exactly the valid routes that have expired, each by one, and leaves the
      number, hops, flag and next hop of all others. */
  lemma RtPurgeExact(n: Node, now: real, d: Addr)
    requires NodeSound(n) && d in n.table
    ensures Purged(n.table[d], RtPurge(n, now).table[d], now)
  {
    PurgeAllExact(n, n.order, now, d);
  }
}
