/** What hearing a route request does to an agent, in closed form: the cache entry, the reverse route and
    how long it lasts, the packets that leave along it, and the answer or rebroadcast. */
module RequestEffects {
  import opened Types
  import opened RouteTable
  import opened SendBuffer
  import opened Handlers
  import opened LocalSteps
  import opened Ledger
  import opened Effects

  /** The node has this request in its cache. */
  predicate Seen(n: Node, q: Request) { exists e :: e in n.cache && e.src == q.src && e.bid == q.bid }

  /** The request is handled: it is neither the node's own nor cached. */
  predicate IsNew(n: Node, q: Request) { q.src != n.id && !Seen(n, q) }

  /** The request offers a better route to its source than the node holds. */
  predicate Shortens(n: Node, q: Request) {
    var r := RouteOf(n, q.src);
    q.srcSeqno > r.seqno || (q.srcSeqno == r.seqno && q.hops < r.hops)
  }

  /** The entry for the source afterwards. It lasts for REV_ROUTE_LIFE at least. If it is better it is up,
      with the request's number and hops, via its sender, and a search for the source that was under way
      is over: then the route counts as one in use. */
  function ReverseRouteEntry(r: Route, now: real, q: Request, better: bool): Route {
    var kept := r.(expire := MaxReal(r.expire, now + 6.0));
    if !better then kept
    else
      var up := kept.(seqno := q.srcSeqno, hops := q.hops, flag := Up, nexthop := q.from);
      if r.reqTimeout > 0.0
      then up.(reqCnt := 0, reqTimeout := 0.0, reqLastTtl := q.hops, expire := now + 10.0)
      else up
  }

  /** The node after it noted the request and its source, and before it answers. */
  ghost predicate TookRequest(n: Node, b: Node, now: real, q: Request) {
    var better := Shortens(n, q);
    var r := ReverseRouteEntry(RouteOf(n, q.src), now, q, better);
    var pkts := Waiting(n, q.src, now);
    var noted := n.(cache := [CacheEntry(q.src, q.bid, now + 6.0)] + n.cache,
                    order := if q.src in n.table then n.order else [q.src] + n.order);
    if better
    then b == noted.(table := n.table[q.src := UsedFor(r, n.id, pkts, now)],
                     buffer := PacketsNotFor(Live(n.buffer, now), q.src), aged := n.aged + Aged(n.buffer, now),
                     out := n.out + Outcomes(n.id, q.from, pkts, ForwardIt),
                     failed := n.failed || !MayForward(r, n.id, q.src, pkts))
    else b == noted.(table := n.table[q.src := r])
  }

  /** The destination answers with an even number above its own and above the one asked for, by no more
      than it takes. */
  ghost predicate AnsweredForItself(b: Node, n': Node, q: Request)
    requires q.src in b.table
  {
    && Even(n'.seqno) && n'.seqno > Max(b.seqno, q.dstSeqno) && n'.seqno <= Max(b.seqno, q.dstSeqno) + 2
    && n' == b.(seqno := n'.seqno,
                out := b.out + [Transmit(b.table[q.src].nexthop,
                                         Rrep(Reply(b.id, 30, 1, q.src, b.id, n'.seqno, 10.0, q.stamp)))])
  }

  /** The node holds a usable route that is as fresh as the request demands. */
  predicate Knows(b: Node, q: Request) {
    q.dst in b.table && b.table[q.dst].hops != 255 && b.table[q.dst].seqno >= q.dstSeqno
  }

  function WithOne(known: seq<Addr>, id: Addr): seq<Addr> { if id in known then known else [id] + known }

  /** A node that knows a route answers with it, one hop further, for what is left of its life in whole
      seconds, and makes the next hops on both sides precursors of each other's destination. */
  ghost predicate AnsweredFromTable(b: Node, n': Node, now: real, q: Request)
    requires q.src in b.table && q.dst in b.table
  {
    var r, back := b.table[q.dst], b.table[q.src].nexthop;
    var table := b.table[q.dst := r.(precursors := WithOne(r.precursors, back))];
    var s := table[q.src];
    var answer := Reply(b.id, 30, (r.hops + 1) % 256, q.src, q.dst, r.seqno, (r.expire - now).Floor as real, q.stamp);
    n' == b.(table := table[q.src := s.(precursors := WithOne(s.precursors, r.nexthop))],
             out := b.out + [Transmit(back, Rrep(answer))])
  }

  /** Any other node rebroadcasts the request, one hop further and with one less to live, if any is left,
      and with the larger of the number asked for and the number it holds itself. */
  ghost predicate Rebroadcast(b: Node, n': Node, q: Request) {
    var p := q.(from := b.id, ttl := q.ttl - 1, hops := if q.hops == 255 then 0 else q.hops + 1,
                dstSeqno := Max(q.dstSeqno, RouteOf(b, q.dst).seqno));
    n' == b.(out := b.out + [if p.ttl == 0 then Discard(Rreq(p), TtlExpired) else Transmit(BROADCAST, Rreq(p))])
  }

  lemma SeenIsCached(n: Node, q: Request)
    ensures Seen(n, q) <==> InCache(n.cache, q.src, q.bid)
  {
    if Seen(n, q) {
      var e :| e in n.cache && e.src == q.src && e.bid == q.bid;
      var k :| 0 <= k < |n.cache| && n.cache[k] == e;
    }
  }

  lemma StaleRequestIgnored(n: Node, now: real, q: Request)
    requires !IsNew(n, q)
    ensures Handle(n, now, Hear(Rreq(q))) == n
  {
    SeenIsCached(n, q);
  }

  lemma ReverseRouteCloses(n: Node, now: real, q: Request)
    ensures var n1 := EnsureRoute(CacheInsert(n, q.src, q.bid, now), q.src);
            TookRequest(n, ReverseRoute(n1, now, q.(ttl := q.ttl - 1)), now, q)
  {
    hide Drain, Live, Aged, PacketsFor, PacketsNotFor, Outcomes, UsedFor, MayForward;
    var m := q.(ttl := q.ttl - 1);
    var n1 := EnsureRoute(CacheInsert(n, q.src, q.bid, now), q.src);
    var r := n1.table[q.src];
    var e := ReverseEntry(r, now, m);
    assert e == ReverseRouteEntry(RouteOf(n, q.src), now, q, Shortens(n, q));
    if Shortens(n, q) {
      var n2 := Check(SetRoute(n1, q.src, e), e.flag == Up);
      DrainCloses(n2, q.src, now, ForwardIt);
      var used := UsedFor(e, n.id, Waiting(n, q.src, now), now);
      assert n2.table[q.src := used] == n.table[q.src := used];
    } else {
      assert n1.table[q.src := e] == n.table[q.src := e];
    }
  }

  lemma AnswerCloses(b: Node, now: real, q: Request)
    requires q.src in b.table
    ensures var n' := AnswerRequest(b, now, q.(ttl := q.ttl - 1));
            if q.dst == b.id then AnsweredForItself(b, n', q)
            else if Knows(b, q) then AnsweredFromTable(b, n', now, q)
            else Rebroadcast(b, n', q)
  {
  }

  /** A request that is neither one's own nor cached is noted and answered. */
  lemma FreshRequestCloses(n: Node, now: real, q: Request) returns (b: Node)
    requires IsNew(n, q)
    ensures TookRequest(n, b, now, q) && q.src in b.table
    ensures var n' := Handle(n, now, Hear(Rreq(q)));
            if q.dst == n.id then AnsweredForItself(b, n', q)
            else if Knows(b, q) then AnsweredFromTable(b, n', now, q)
            else Rebroadcast(b, n', q)
  {
    hide ReverseRoute, AnswerRequest, AnsweredForItself, AnsweredFromTable, Rebroadcast, Knows;
    SeenIsCached(n, q);
    b := ReverseRoute(EnsureRoute(CacheInsert(n, q.src, q.bid, now), q.src), now, q.(ttl := q.ttl - 1));
    ReverseRouteCloses(n, now, q);
    AnswerCloses(b, now, q);
  }

  /** How long the reverse route lasts: ACTIVE_ROUTE_TIMEOUT from now if a search for the source ends here
      or a waiting packet leaves along it, and otherwise REV_ROUTE_LIFE from now, or longer if it would
      have lasted longer anyway. */
  lemma ReverseRouteLasts(n: Node, now: real, q: Request)
    requires IsNew(n, q)
    ensures var r, n' := RouteOf(n, q.src), Handle(n, now, Hear(Rreq(q)));
            && q.src in n'.table
            && n'.table[q.src].expire ==
               (if Shortens(n, q) && (r.reqTimeout > 0.0 || AnyLeaves(n.id, Waiting(n, q.src, now)))
                then now + 10.0
                else MaxReal(r.expire, now + 6.0))
            && (Shortens(n, q) ==>
                  n'.table[q.src].flag == Up && n'.table[q.src].seqno == q.srcSeqno
                  && n'.table[q.src].hops == q.hops && n'.table[q.src].nexthop == q.from)
  {
    hide Handle, Outcomes, Live, Aged, PacketsFor, PacketsNotFor;
    var b := FreshRequestCloses(n, now, q);
  }

  /** A request passed on carries the maximum of what was asked for and what the node holds itself. */
  lemma RelayTakesMaximum(n: Node, now: real, q: Request, e: Effect)
    requires n.out == [] && e in Handle(n, now, Hear(Rreq(q))).out
    requires e.Transmit? && e.msg.Rreq?
    ensures var held := RouteOf(Handle(n, now, Hear(Rreq(q))), e.msg.rq.dst).seqno;
            && e.msg.rq.dst == q.dst && e.msg.rq.src == q.src != n.id
            && e.msg.rq.dstSeqno >= q.dstSeqno && e.msg.rq.dstSeqno >= held
            && (e.msg.rq.dstSeqno == q.dstSeqno || e.msg.rq.dstSeqno == held)
  {
    hide Handle, Live, Aged, PacketsFor, PacketsNotFor, UsedFor, AnsweredFromTable, AnsweredForItself;
    if !IsNew(n, q) {
      StaleRequestIgnored(n, now, q);
    } else {
      var b := FreshRequestCloses(n, now, q);
      OutcomesSendNothing(n.id, q.from, Waiting(n, q.src, now));
      if q.dst == n.id || Knows(b, q) {
        AnswerIsReply(b, Handle(n, now, Hear(Rreq(q))), now, q);
      }
    }
  }

  lemma AnswerIsReply(b: Node, n': Node, now: real, q: Request)
    requires q.src in b.table && forall x :: x in b.out ==> !x.Transmit?
    requires if q.dst == b.id then AnsweredForItself(b, n', q) else Knows(b, q) && AnsweredFromTable(b, n', now, q)
    ensures forall x :: x in n'.out && x.Transmit? ==> x.msg.Rrep?
  {
  }

  lemma {:induction false} OutcomesSendNothing(id: Addr, next: Addr, pkts: seq<Data>)
    ensures forall x :: x in Outcomes(id, next, pkts, ForwardIt) ==> !x.Transmit?
  {
    if pkts != [] {
      OutcomesSendNothing(id, next, pkts[1..]);
    }
  }
}
