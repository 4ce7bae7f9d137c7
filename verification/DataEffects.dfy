/** What an agent does with a data packet that it is handed: forward, deliver, buffer, report or drop. */
module DataEffects {
  import opened Types
  import opened RouteTable
  import opened SendBuffer
  import opened Handlers
  import opened LocalSteps
  import opened Ledger
  import opened Effects

  /* ---------- which packets get as far as the routing table ---------- */

  /** The packet came back to its source. */
  predicate Looped(n: Node, pkt: Data) { pkt.src == n.id && pkt.forwards != 0 }

  /** The time to live with which the packet goes on: a full one at its source, one less elsewhere. */
  function OnwardTtl(n: Node, pkt: Data): int { if pkt.src == n.id then 30 else pkt.ttl - 1 }

  /** A packet for a single destination that has neither looped nor run out of time to live. */
  predicate Routable(n: Node, pkt: Data) {
    pkt.dst != BROADCAST && !Looped(n, pkt) && OnwardTtl(n, pkt) != 0
  }

  lemma LoopDropped(n: Node, now: real, pkt: Data)
    requires Looped(n, pkt)
    ensures Handle(n, now, Input.Packet(pkt)) == n.(out := n.out + [Drop(pkt, RouteLoop)])
  {
  }

  lemma ExpiredDropped(n: Node, now: real, pkt: Data)
    requires pkt.src != n.id && pkt.ttl == 1
    ensures Handle(n, now, Input.Packet(pkt)) == n.(out := n.out + [Drop(pkt.(ttl := 0), TtlExpired)])
  {
  }

  /** A broadcast packet goes up if it came from outside, and out on all links otherwise. */
  lemma BroadcastSpreads(n: Node, now: real, pkt: Data)
    requires pkt.dst == BROADCAST != n.id && !Looped(n, pkt) && (pkt.src != n.id ==> pkt.ttl != 1)
    ensures var p := pkt.(ttl := if pkt.src == n.id then pkt.ttl else pkt.ttl - 1);
            var e := if p.ttl == 0 then Drop(p, TtlExpired)
                     else if pkt.up then Effect.Deliver(p)
                     else Forward(BROADCAST, p.(up := false));
            Handle(n, now, Input.Packet(pkt)) == n.(out := n.out + [e])
  {
  }

  /* ---------- the four branches ---------- */

  /** A fresh entry: down, at number 0, without a request so far. */
  function NewEntry(): Route {
    Route(0, 255, Down, 0, 0.0, 255, [], 0.0, 0, 0, History([0.0, 0.0, 0.0], 0))
  }

  /** `n` with an entry for `d`, a fresh one if there was none. */
  predicate WithEntry(n: Node, n1: Node, d: Addr) {
    n1 == if d in n.table then n else n.(order := [d] + n.order, table := n.table[d := NewEntry()])
  }

  /** Up: the packet is delivered if it is for this node and sent to the next hop otherwise, at once,
      whoever it comes from; using the route renews it, and nothing else happens. */
  lemma UpForwards(n: Node, now: real, pkt: Data)
    requires Routable(n, pkt) && pkt.dst in n.table && n.table[pkt.dst].flag == Up
    ensures var n', p, r := Handle(n, now, Input.Packet(pkt)), pkt.(ttl := OnwardTtl(n, pkt)), n.table[pkt.dst];
            if pkt.dst == n.id
            then n' == n.(out := n.out + [Effect.Deliver(p)], failed := n.failed || r.hops == 255)
            else n' == n.(out := n.out + [Forward(r.nexthop, p.(up := false))],
                          table := n.table[pkt.dst := r.(expire := now + 10.0)], failed := n.failed || r.hops == 255)
  {
  }

  /** Not up, and the packet is this node's own: it waits in the buffer, and the agent asks for a route
      unless it is too early; giving up drops it with everything else that waits there. */
  lemma OwnPacketWaits(n: Node, now: real, pkt: Data) returns (n1: Node, b: Node)
    requires Routable(n, pkt) && pkt.src == n.id && RouteOf(n, pkt.dst).flag != Up
    ensures WithEntry(n, n1, pkt.dst) && BufferedInto(n1, b, pkt.(ttl := 30), now) && pkt.dst in b.table
    ensures b.table == n1.table && AskedInto(b, Handle(n, now, Input.Packet(pkt)), pkt.dst, now)
  {
    hide SendRequest, Enqueue, AskedInto, AskedEntry;
    n1 := EnsureRoute(n, pkt.dst);
    b := Enqueue(n1, pkt.(ttl := 30), now);
    EnqueueCloses(n1, pkt.(ttl := 30), now);
    SendRequestCloses(b, pkt.dst, now);
    assert Handle(n, now, Input.Packet(pkt)) == SendRequest(b, pkt.dst, now);
  }

  /** It is then the last packet of the buffer, for 30 seconds, or was dropped for want of a route; and a
      request goes out if and only if the last one has timed out and there were few enough. */
  lemma OwnPacketOutcome(n: Node, now: real, pkt: Data)
    requires Routable(n, pkt) && pkt.src == n.id && RouteOf(n, pkt.dst).flag != Up
    ensures var n', r := Handle(n, now, Input.Packet(pkt)), RouteOf(n, pkt.dst);
            && (if r.reqTimeout <= now && r.reqCnt > 3
                then Drop(pkt.(ttl := 30), NoRoute) in n'.out
                else n'.buffer != [] && n'.buffer[|n'.buffer| - 1] == Queued(pkt.(ttl := 30), now + 30.0))
            && (n'.bid == n.bid + if r.reqTimeout <= now && r.reqCnt <= 3 then 1 else 0)
  {
    hide Live, Aged, Handle, AskedEntry, PacketsFor, PacketsNotFor, Outcomes;
    var n1, b := OwnPacketWaits(n, now, pkt);
    var n', r := Handle(n, now, Input.Packet(pkt)), RouteOf(n, pkt.dst);
    assert b.table[pkt.dst] == r;
    if r.reqTimeout <= now && r.reqCnt > 3 {
      LastIsDropped(b, pkt.dst, Queued(pkt.(ttl := 30), now + 30.0), now);
    }
  }

  /** The last packet of a buffer, if it has not expired, is among those that wait for its destination. */
  lemma LastIsDropped(b: Node, d: Addr, q: Queued, now: real)
    requires b.buffer != [] && b.buffer[|b.buffer| - 1] == q && q.deadline >= now && q.pkt.dst == d
    ensures forall id, next :: Drop(q.pkt, NoRoute) in Outcomes(id, next, Waiting(b, d, now), DropIt)
  {
    LastIsLive(b.buffer, now);
    LastIsFor(Live(b.buffer, now), d);
    forall id, next ensures Drop(q.pkt, NoRoute) in Outcomes(id, next, Waiting(b, d, now), DropIt) {
      EachIsDropped(id, next, Waiting(b, d, now), q.pkt);
    }
  }

  lemma {:induction false} LastIsLive(q: seq<Queued>, now: real)
    requires q != [] && q[|q| - 1].deadline >= now
    ensures var live := Live(q, now); live != [] && live[|live| - 1] == q[|q| - 1]
  {
    if |q| > 1 {
      LastIsLive(q[1..], now);
    }
  }

  lemma {:induction false} LastIsFor(q: seq<Queued>, d: Addr)
    requires q != [] && q[|q| - 1].pkt.dst == d
    ensures q[|q| - 1].pkt in PacketsFor(q, d)
  {
    if |q| > 1 {
      LastIsFor(q[1..], d);
    }
  }

  lemma {:induction false} EachIsDropped(id: Addr, next: Addr, pkts: seq<Data>, p: Data)
    requires p in pkts
    ensures Drop(p, NoRoute) in Outcomes(id, next, pkts, DropIt)
  {
    if p != pkts[0] {
      EachIsDropped(id, next, pkts[1..], p);
    }
  }

  /** Another's packet, and a repair is under way: it waits in the buffer, and nothing is sent. */
  lemma TransitPacketWaits(n: Node, now: real, pkt: Data)
    requires Routable(n, pkt) && pkt.src != n.id && RouteOf(n, pkt.dst).flag == InRepair
    ensures BufferedInto(n, Handle(n, now, Input.Packet(pkt)), pkt.(ttl := pkt.ttl - 1), now)
  {
    hide Enqueue;
    EnqueueCloses(n, pkt.(ttl := pkt.ttl - 1), now);
  }

  /** Another's packet, and no route: the node that sent it is told which number is held, and the packet
      is dropped. */
  lemma TransitPacketReported(n: Node, now: real, pkt: Data) returns (n1: Node)
    requires Routable(n, pkt) && pkt.src != n.id && RouteOf(n, pkt.dst).flag == Down
    ensures WithEntry(n, n1, pkt.dst)
    ensures Handle(n, now, Input.Packet(pkt)) ==
            n1.(out := n.out + [Transmit(BROADCAST, Rerr(RouteError(n.id, [Lost(pkt.dst, RouteOf(n, pkt.dst).seqno)]))),
                                Drop(pkt.(ttl := pkt.ttl - 1), NoRoute)])
  {
    n1 := EnsureRoute(n, pkt.dst);
  }
}
