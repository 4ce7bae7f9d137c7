/** What the periodic timers do, destination by destination: the turn that the route purge gives to each
    entry, and the broadcast ids that the cache purge keeps. */
module PurgeEffects {
  import opened Types
  import opened RouteTable
  import opened SendBuffer
  import opened Handlers
  import opened LocalSteps
  import opened Ledger
  import opened Purges
  import opened Effects
  import opened Requests

  /* ---------- one turn of the route purge ---------- */

  predicate Queues(n: Node, d: Addr) { exists q :: q in n.buffer && q.pkt.dst == d }

  /** An entry that is up and has expired goes down by one, and what waits for it is dropped. One that is
      up forwards what waits for it. Any other, under repair or down, is asked for if packets wait. */
  ghost predicate TurnInto(m: Node, m': Node, d: Addr, now: real)
    requires d in m.table
  {
    var r := m.table[d];
    if r.flag == Up && r.expire < now then
      m' == m.(table := m.table[d := r.(seqno := r.seqno + 1, lastHops := r.hops, hops := 255, flag := Down,
                                        nexthop := 0, expire := 0.0)],
               buffer := PacketsNotFor(Live(m.buffer, now), d), aged := m.aged + Aged(m.buffer, now),
               out := m.out + Outcomes(m.id, r.nexthop, Waiting(m, d, now), DropIt),
               failed := m.failed || r.hops == 255 || Even(r.seqno + 1))
    else if r.flag == Up then DrainedInto(m.(failed := m.failed || r.hops == 255), m', d, now, ForwardIt)
    else if Queues(m, d) then AskedInto(m, m', d, now)
    else m' == m
  }

  lemma QueuesIsHasPacket(n: Node, d: Addr)
    ensures Queues(n, d) <==> HasPacketFor(n.buffer, d)
  {
    if HasPacketFor(n.buffer, d) {
      var k :| 0 <= k < |n.buffer| && n.buffer[k].pkt.dst == d;
      assert n.buffer[k] in n.buffer;
    }
  }

  lemma PurgeEntryCloses(m: Node, d: Addr, now: real)
    requires d in m.table
    ensures TurnInto(m, PurgeEntry(m, d, now), d, now)
  {
    hide Drain, SendRequest, Live, Aged, PacketsFor, PacketsNotFor, Outcomes, UsedFor, MayForward;
    hide AskedInto, HasPacketFor, Queues;
    var r := m.table[d];
    var m0 := Check(m, Usable(r));
    QueuesIsHasPacket(m, d);
    if r.flag == Up && r.expire < now {
      DrainCloses(m0, d, now, DropIt);
    } else if r.flag == Up {
      DrainCloses(m0, d, now, ForwardIt);
    } else if HasPacketFor(m.buffer, d) {
      SendRequestCloses(m, d, now);
    }
  }

  /* ---------- the turns of the other entries ---------- */

  /** Nothing that concerns `d` happens between `n` and `m`. */
  ghost predicate Apart(n: Node, m: Node, d: Addr, now: real) {
    && m.id == n.id && d in n.table && d in m.table && m.table[d] == n.table[d]
    && Waiting(m, d, now) == Waiting(n, d, now) && (Queues(m, d) ==> Queues(n, d))
    && Extends(n.out, m.out) && Asks(m.out, n.id, d) == Asks(n.out, n.id, d)
  }

  lemma ApartTransitive(a: Node, b: Node, c: Node, d: Addr, now: real)
    requires Apart(a, b, d, now) && Apart(b, c, d, now)
    ensures Apart(a, c, d, now)
  {
    hide Waiting, Queues, Asks;
  }

  lemma {:induction false} NotForOther(q: seq<Queued>, x: Addr, d: Addr)
    requires x != d
    ensures PacketsFor(PacketsNotFor(q, x), d) == PacketsFor(q, d)
  {
    if q != [] {
      NotForOther(q[1..], x, d);
      var rest := PacketsNotFor(q[1..], x);
      assert ([q[0]] + rest)[1..] == rest && [] + rest == rest;
      assert PacketsNotFor(q, x) == if q[0].pkt.dst == x then rest else [q[0]] + rest;
    }
  }

  lemma {:induction false} NotForStaysLive(q: seq<Queued>, x: Addr, now: real)
    requires forall i :: 0 <= i < |q| ==> q[i].deadline >= now
    ensures forall i :: 0 <= i < |PacketsNotFor(q, x)| ==> PacketsNotFor(q, x)[i].deadline >= now
  {
    if q != [] {
      NotForStaysLive(q[1..], x, now);
    }
  }

  /** Draining for one destination leaves what waits for another. */
  lemma OthersStillWait(n: Node, n': Node, x: Addr, d: Addr, now: real)
    requires x != d && n'.buffer == PacketsNotFor(Live(n.buffer, now), x)
    ensures Waiting(n', d, now) == Waiting(n, d, now)
  {
    var live := Live(n.buffer, now);
    LiveIsLive(n.buffer, now);
    NotForStaysLive(live, x, now);
    LiveOfAllLive(n'.buffer, now);
    NotForOther(live, x, d);
  }

  lemma TurnKeepsWaiting(m: Node, m': Node, x: Addr, d: Addr, now: real)
    requires x in m.table && x != d && TurnInto(m, m', x, now)
    ensures Waiting(m', d, now) == Waiting(m, d, now) && Extends(m.out, m'.out)
  {
    hide Live, Aged, PacketsFor, PacketsNotFor, Outcomes, UsedFor, AskedEntry, Waiting;
    if m'.buffer != m.buffer {
      OthersStillWait(m, m', x, d, now);
    } else {
      SameWaiting(m, m', d, now);
    }
  }

  lemma SameWaiting(m: Node, m': Node, d: Addr, now: real)
    requires m'.buffer == m.buffer
    ensures Waiting(m', d, now) == Waiting(m, d, now)
  {
  }

  lemma OtherTurnApart(m: Node, x: Addr, d: Addr, now: real)
    requires x in m.table && d in m.table && x != d
    ensures Apart(m, PurgeEntry(m, x, now), d, now)
  {
    hide PurgeEntry, TurnInto, Waiting, Asks, Queues, HasPacketFor;
    var m' := PurgeEntry(m, x, now);
    PurgeEntryCloses(m, x, now);
    TurnKeepsWaiting(m, m', x, d, now);
    PurgeTouchesOne(m, x, now, d);
    PurgeEntryAside(m, x, now, d);
    QueuesIsHasPacket(m, d);
    QueuesIsHasPacket(m', d);
  }

  lemma {:induction false} OtherTurnsApart(n: Node, ds: seq<Addr>, d: Addr, now: real)
    requires d in n.table && d !in ds
    ensures Apart(n, PurgeAll(n, ds, now), d, now)
    decreases |ds|
  {
    hide PurgeEntry, Waiting, Asks, Queues;
    if ds != [] {
      if ds[0] in n.table {
        var n1 := PurgeEntry(n, ds[0], now);
        OtherTurnApart(n, ds[0], d, now);
        OtherTurnsApart(n1, ds[1..], d, now);
        ApartTransitive(n, n1, PurgeAll(n1, ds[1..], now), d, now);
      } else {
        OtherTurnsApart(n, ds[1..], d, now);
      }
    }
  }

  lemma {:induction false} TurnComes(n: Node, ds: seq<Addr>, d: Addr, now: real) returns (m: Node, m': Node)
    requires NoDuplicates(ds) && d in ds && d in n.table
    ensures Apart(n, m, d, now) && TurnInto(m, m', d, now) && Apart(m', PurgeAll(n, ds, now), d, now)
    decreases |ds|
  {
    hide PurgeEntry, Waiting, Asks, Queues, TurnInto;
    var rest := ds[1..];
    if ds[0] == d {
      m, m' := n, PurgeEntry(n, d, now);
      PurgeEntryCloses(n, d, now);
      OtherTurnsApart(m', rest, d, now);
    } else if ds[0] in n.table {
      var n1 := PurgeEntry(n, ds[0], now);
      OtherTurnApart(n, ds[0], d, now);
      m, m' := TurnComes(n1, rest, d, now);
      ApartTransitive(n, n1, m, d, now);
    } else {
      m, m' := TurnComes(n, rest, d, now);
    }
  }

  /** The route purge gives every entry exactly one turn; what concerns its destination is as it was
      before the purge when the turn comes, and stays as the turn leaves it. */
  lemma RoutePurgeCloses(n: Node, now: real, d: Addr) returns (m: Node, m': Node)
    requires NodeSound(n) && d in n.table
    ensures Apart(n, m, d, now) && TurnInto(m, m', d, now) && Apart(m', Handle(n, now, RouteTimer), d, now)
  {
    m, m' := TurnComes(n, n.order, d, now);
  }

  /* ---------- what follows for the reader ---------- */

  /** Packets wait for a route that is not up, be it down or under repair: the purge asks once more if the
      last request has timed out and there were few enough, and the packets keep waiting. */
  lemma PurgeAsksAgain(n: Node, now: real, d: Addr)
    requires NodeSound(n) && d in n.table && n.out == [] && n.table[d].flag != Up && Waiting(n, d, now) != []
    requires n.table[d].reqTimeout <= now && n.table[d].reqCnt <= 3
    ensures var n', r := Handle(n, now, RouteTimer), n.table[d];
            && d in n'.table && n'.table[d] == AskedEntry(r, now) && Waiting(n', d, now) == Waiting(n, d, now)
            && |Asks(n'.out, n.id, d)| == 1
            && Asks(n'.out, n.id, d)[0].ttl == NextTtl(Max(r.reqLastTtl, r.lastHops))
            && Asks(n'.out, n.id, d)[0].dstSeqno == r.seqno
  {
    hide Handle, AskedEntry, Live, Aged, PacketsFor, PacketsNotFor, Outcomes, UsedFor, NodeSound;
    var m, m' := RoutePurgeCloses(n, now, d);
    WaitingIsQueued(m, d, now);
    var e := m'.out[|m.out|];
    AsksEmit(m.out, e, n.id, d);
    SameWaiting(m, m', d, now);
    assert Asks([], n.id, d) == [];
  }

  lemma WaitingIsQueued(n: Node, d: Addr, now: real)
    requires Waiting(n, d, now) != []
    ensures Queues(n, d)
  {
    LiveIsLive(n.buffer, now);
    ForIsIn(Live(n.buffer, now), d);
  }

  lemma {:induction false} ForIsIn(q: seq<Queued>, d: Addr)
    requires PacketsFor(q, d) != []
    ensures exists x :: x in q && x.pkt.dst == d
  {
    if q[0].pkt.dst != d {
      ForIsIn(q[1..], d);
    }
  }

  /** With no packet for it in the buffer a route that is not up is left alone. */
  lemma PurgeLeavesIdle(n: Node, now: real, d: Addr)
    requires NodeSound(n) && d in n.table && n.out == [] && n.table[d].flag != Up && !Queues(n, d)
    ensures var n' := Handle(n, now, RouteTimer);
            d in n'.table && n'.table[d] == n.table[d] && Asks(n'.out, n.id, d) == []
  {
    hide Handle, Queues, Waiting, AskedInto, DrainedInto;
    var m, m' := RoutePurgeCloses(n, now, d);
    assert Asks([], n.id, d) == [];
  }

  /* ---------- the cache purge ---------- */

  /** The cache timer keeps exactly the broadcast ids that have not expired, and touches nothing else. */
  lemma CachePurgeCloses(n: Node, now: real, x: CacheEntry)
    ensures var n' := Handle(n, now, CacheTimer);
            n' == n.(cache := n'.cache) && (x in n'.cache <==> x in n.cache && x.expire > now)
  {
    IdPurgeExact(n.cache, now, x);
  }
}
