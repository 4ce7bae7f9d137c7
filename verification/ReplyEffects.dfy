/** What hearing a route reply does to an agent, in closed form: the route it installs and how long the
    route lasts, the packets that leave along it, and where the reply goes next. */
module ReplyEffects {
  import opened Types
  import opened RouteTable
  import opened SendBuffer
  import opened Handlers
  import opened LocalSteps
  import opened Ledger
  import opened Purges
  import opened Effects

  /** The reply offers something better than what the node holds. */
  predicate Improves(n: Node, p: Reply) {
    var r := RouteOf(n, p.dst);
    p.dstSeqno > r.seqno || (p.dstSeqno == r.seqno && p.hops < r.hops)
  }

  /** Time per hop of the discovery that the reply ends. */
  function HopLatency(now: real, p: Reply): real {
    if p.hops == 0 then 0.0 else (now - p.stamp) / p.hops as real
  }

  /** The entry for the destination when the reply is taken: up, with the reply's number and hops, via its
      sender, for the lifetime it offers; requests start over, and the originator records a latency. */
  function TakenEntry(r: Route, id: Addr, now: real, p: Reply): Route {
    r.(seqno := p.dstSeqno, hops := p.hops, flag := Up, nexthop := p.from, expire := now + p.lifetime,
       reqCnt := 0, reqTimeout := 0.0, reqLastTtl := p.hops,
       history := if p.to == id
                  then History(r.history.slots[r.history.next := HopLatency(now, p)], (r.history.next + 1) % 3)
                  else r.history)
  }

  /** The packets that waited for the destination leave along it, which renews it. A reply with a wrapped
      hop count makes them disappear instead. */
  function Carried(n: Node, now: real, p: Reply): seq<Data> {
    if p.hops == 255 then [] else Waiting(n, p.dst, now)
  }

  /** The node after it took the reply and before it passes it on. */
  ghost predicate TookReply(n: Node, b: Node, now: real, p: Reply) {
    var d := p.dst;
    var r := UsedFor(TakenEntry(RouteOf(n, d), n.id, now, p), n.id, Carried(n, now, p), now);
    b == n.(order := if d in n.table then n.order else [d] + n.order, table := n.table[d := r],
            buffer := PacketsNotFor(Live(n.buffer, now), d), aged := n.aged + Aged(n.buffer, now),
            out := n.out + Outcomes(n.id, p.from, Carried(n, now, p), ForwardIt),
            failed := n.failed || !MayForward(r, n.id, d, Carried(n, now, p)))
  }

  /** The node after it passed the reply on, in state `b`: along a usable route to the originator, one hop
      further and with one less to live, if any is left; the next hop of that route is now a precursor of
      the destination, and the route is renewed. */
  ghost predicate PassedReply(b: Node, n': Node, now: real, p: Reply)
    requires p.dst in b.table
  {
    var back := RouteOf(b, p.to);
    var q := p.(ttl := p.ttl - 1, hops := if p.hops == 255 then 0 else p.hops + 1, from := b.id);
    if back.hops == 255 then n' == b.(out := b.out + [Discard(Rrep(p.(ttl := p.ttl - 1)), NoRoute)])
    else
      var table := if q.ttl == 0 then b.table else b.table[p.to := back.(expire := now + 10.0)];
      var known := table[p.dst].precursors;
      n' == b.(table := table[p.dst := table[p.dst].(precursors := if back.nexthop in known then known
                                                                   else [back.nexthop] + known)],
               out := b.out + [if q.ttl == 0 then Discard(Rrep(q), TtlExpired) else Transmit(back.nexthop, Rrep(q))],
               failed := b.failed || back.flag != Up || (q.ttl != 0 && p.to == BROADCAST))
  }

  /** A reply that is no better only leaves an entry for its destination. */
  lemma WorseReplyIgnored(n: Node, now: real, p: Reply)
    requires !Improves(n, p)
    ensures Handle(n, now, Hear(Rrep(p))) ==
            if p.dst in n.table then n else n.(order := [p.dst] + n.order, table := n.table[p.dst := FRESH_ROUTE])
  {
  }

  lemma ForwardRouteCloses(n: Node, now: real, p: Reply)
    requires Improves(n, p)
    ensures TookReply(n, ForwardRoute(EnsureRoute(n, p.dst), now, p.(ttl := p.ttl - 1)), now, p)
  {
    hide Drain, Live, Aged, PacketsFor, PacketsNotFor, Outcomes, UsedFor, MayForward;
    var m := p.(ttl := p.ttl - 1);
    var n1 := EnsureRoute(n, p.dst);
    var e := ForwardEntry(n1.table[p.dst], n.id, now, m);
    assert e == TakenEntry(RouteOf(n, p.dst), n.id, now, p);
    var n2 := SetRoute(n1, p.dst, e);
    DrainCloses(n2, p.dst, now, ReplyDisposal(m));
    LostWithoutEffect(n.id, p.from, Waiting(n, p.dst, now));
    NobodyLeaves(e, n.id, now);
    NothingCarried(n.id, p.from);
    NothingToCheck(e, n.id, p.dst);
    UsedKeepsRoute(e, n.id, Carried(n, now, p), now);
    SameChecks(e, UsedFor(e, n.id, Carried(n, now, p), now), n.id, p.dst, Carried(n, now, p));
    assert n2.table[p.dst := UsedFor(e, n.id, Carried(n, now, p), now)]
        == n.table[p.dst := UsedFor(e, n.id, Carried(n, now, p), now)];
  }

  lemma NothingCarried(id: Addr, next: Addr)
    ensures Outcomes(id, next, [], ForwardIt) == []
  {
  }

  lemma {:induction false} LostWithoutEffect(id: Addr, next: Addr, pkts: seq<Data>)
    ensures Outcomes(id, next, pkts, LoseIt) == []
  {
    if pkts != [] {
      LostWithoutEffect(id, next, pkts[1..]);
    }
  }

  lemma RelayReplyCloses(b: Node, now: real, p: Reply)
    requires p.dst in b.table
    ensures PassedReply(b, RelayReply(b, now, p.(ttl := p.ttl - 1)), now, p)
  {
  }

  /** A reply that is better is taken, and passed on unless this node is the originator. */
  lemma BetterReplyCloses(n: Node, now: real, p: Reply) returns (b: Node)
    requires Improves(n, p)
    ensures TookReply(n, b, now, p)
    ensures if p.to == n.id then Handle(n, now, Hear(Rrep(p))) == b
            else p.dst in b.table && PassedReply(b, Handle(n, now, Hear(Rrep(p))), now, p)
  {
    hide ForwardRoute, RelayReply, TookReply, PassedReply;
    b := ForwardRoute(EnsureRoute(n, p.dst), now, p.(ttl := p.ttl - 1));
    ForwardRouteCloses(n, now, p);
    TookHasEntry(n, b, now, p);
    if p.to != n.id {
      RelayReplyCloses(b, now, p);
    }
  }

  lemma TookHasEntry(n: Node, b: Node, now: real, p: Reply)
    requires TookReply(n, b, now, p)
    ensures p.dst in b.table && b.id == n.id
  {
  }

  /** How long the route lasts: for the lifetime offered, counted from now, or ACTIVE_ROUTE_TIMEOUT from
      now if a packet that waited for it left along it at once, or if the reply itself went on along it. */
  lemma RouteLasts(n: Node, now: real, p: Reply)
    requires Improves(n, p)
    ensures var n' := Handle(n, now, Hear(Rrep(p)));
            && p.dst in n'.table && n'.table[p.dst].flag == Up && n'.table[p.dst].nexthop == p.from
            && n'.table[p.dst].expire ==
               if AnyLeaves(n.id, Carried(n, now, p)) || (p.to == p.dst != n.id && p.hops != 255 && p.ttl != 1)
               then now + 10.0 else now + p.lifetime
  {
    hide Handle, Outcomes, Live, Aged, PacketsFor, PacketsNotFor;
    var b := BetterReplyCloses(n, now, p);
  }

  /** Until then no route purge takes it down. */
  lemma RouteSurvivesPurge(n: Node, d: Addr, later: real)
    requires NodeSound(n) && d in n.table && n.table[d].flag == Up && later <= n.table[d].expire
    ensures d in Handle(n, later, RouteTimer).table && Handle(n, later, RouteTimer).table[d].flag == Up
    ensures SameRoute(n.table[d], Handle(n, later, RouteTimer).table[d])
  {
    RtPurgeExact(n, later, d);
  }
}
