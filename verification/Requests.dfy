/** What one handler run does to the soft state of route requests, and which requests of its own the
    agent sends: the expanding-ring discipline, handler by handler. */
module Requests {
  import opened Types
  import opened RouteTable
  import opened SendBuffer
  import opened Handlers
  import opened LocalSteps
  import opened Ledger

  /* ---------- requests of one's own ---------- */

  function AskIn(e: Effect, id: Addr, d: Addr): seq<Request> {
    if e.Transmit? && e.msg.Rreq? && e.msg.rq.src == id && e.msg.rq.dst == d then [e.msg.rq] else []
  }

  /** The requests for `d` that agent `id` originates among its effects, in order. */
  function Asks(out: seq<Effect>, id: Addr, d: Addr): seq<Request> {
    if out == [] then [] else Asks(out[..|out| - 1], id, d) + AskIn(out[|out| - 1], id, d)
  }

  lemma AsksEmit(out: seq<Effect>, e: Effect, id: Addr, d: Addr)
    ensures Asks(out + [e], id, d) == Asks(out, id, d) + AskIn(e, id, d)
  {
    assert (out + [e])[..|out|] == out;
  }

  lemma {:induction false} NoneAsked(out: seq<Effect>, out': seq<Effect>, id: Addr, d: Addr)
    requires Extends(out, out')
    requires forall k :: |out| <= k < |out'| ==> AskIn(out'[k], id, d) == []
    ensures Asks(out', id, d) == Asks(out, id, d)
    decreases |out'|
  {
    if |out'| == |out| {
      assert out' == out;
    } else {
      NoneAsked(out, out'[..|out'| - 1], id, d);
    }
  }

  /* ---------- steps of the request state ---------- */

  /** The request state of `d` is kept and no request for it is sent. */
  predicate Unasked(n: Node, n': Node, d: Addr) {
    && n'.id == n.id && Asks(n'.out, n.id, d) == Asks(n.out, n.id, d)
    && var r, r' := RouteOf(n, d), RouteOf(n', d);
       r'.reqLastTtl == r.reqLastTtl && r'.reqCnt == r.reqCnt && r'.reqTimeout == r.reqTimeout
  }

  /** One request for `d` is sent: after the timeout of the one before, with the next time to live. */
  predicate AsksOnce(n: Node, n': Node, d: Addr, now: real) {
    && n'.id == n.id
    && var r, r', qs := RouteOf(n, d), RouteOf(n', d), Asks(n'.out, n.id, d);
       && r.reqTimeout <= now && r.reqCnt <= RREQ_RETRIES
       && r'.reqLastTtl == AskTtl(r) && r'.reqCnt == AskCount(r) && r'.reqTimeout == AskTimeout(r, now)
       && qs != [] && qs[..|qs| - 1] == Asks(n.out, n.id, d)
       && qs[|qs| - 1].ttl == AskTtl(r) && qs[|qs| - 1].dstSeqno == r.seqno
  }

  /** The agent gives up: nothing is sent, a long timeout starts, and no packet for `d` waits any more. */
  predicate Stops(n: Node, n': Node, d: Addr, now: real) {
    && n'.id == n.id && Asks(n'.out, n.id, d) == Asks(n.out, n.id, d) && !HasPacketFor(n'.buffer, d)
    && var r, r' := RouteOf(n, d), RouteOf(n', d);
       && r.reqTimeout <= now && r.reqCnt > RREQ_RETRIES
       && r'.reqLastTtl == r.reqLastTtl && r'.reqCnt == 0 && r'.reqTimeout == now + MAX_RREQ_TIMEOUT
  }

  predicate AskStep(n: Node, n': Node, d: Addr, now: real) {
    Unasked(n, n', d) || AsksOnce(n, n', d, now) || Stops(n, n', d, now)
  }

  /** What one handler run does to the request state of `d`: a route for `d` is taken from a message,
      or the agent sits still, asks once, or gives up. */
  predicate RequestStep(n: Node, n': Node, d: Addr, now: real, cause: Option<Message>) {
    || (InstalledBy(RouteOf(n, d), RouteOf(n', d), d, cause) && Asks(n'.out, n.id, d) == Asks(n.out, n.id, d))
    || AskStep(n, n', d, now)
  }

  /** Nothing happens to the entry for `d` but to its flag and expiry. */
  predicate Aside(n: Node, n1: Node, d: Addr) {
    && n1.id == n.id && Asks(n1.out, n.id, d) == Asks(n.out, n.id, d)
    && RouteOf(n1, d) == RouteOf(n, d).(flag := RouteOf(n1, d).flag, expire := RouteOf(n1, d).expire)
  }

  predicate NoNewPackets(n: Node, n': Node, d: Addr) {
    HasPacketFor(n'.buffer, d) ==> HasPacketFor(n.buffer, d)
  }

  lemma AskingIgnoresFlag(r: Route, r1: Route, now: real)
    requires r1 == r.(flag := r1.flag, expire := r1.expire)
    ensures AskTtl(r1) == AskTtl(r) && AskCount(r1) == AskCount(r) && AskTimeout(r1, now) == AskTimeout(r, now)
  {
    hide PerHopTime;
  }

  lemma AskAfter(n: Node, n1: Node, n': Node, d: Addr, now: real)
    requires Aside(n, n1, d) && AskStep(n1, n', d, now)
    ensures AskStep(n, n', d, now)
  {
    hide Asks, AskTtl, AskCount, AskTimeout;
    AskingIgnoresFlag(RouteOf(n, d), RouteOf(n1, d), now);
  }

  lemma AskBefore(n: Node, n1: Node, n': Node, d: Addr, now: real)
    requires AskStep(n, n1, d, now) && Unasked(n1, n', d) && NoNewPackets(n1, n', d)
    ensures AskStep(n, n', d, now)
  {
    hide Asks, AskTtl, AskCount, AskTimeout;
  }

  /* ---------- drain loops and `sendRequest` ---------- */

  lemma DequeAddsNone(n: Node, x: Addr, now: real, d: Addr)
    ensures NoNewPackets(n, Deque(n, x, now).0, d)
  {
    hide Live, Aged, FirstFor;
    var live, b := Live(n.buffer, now), Deque(n, x, now).0.buffer;
    LiveIsLive(n.buffer, now);
    if HasPacketFor(b, d) {
      var k :| 0 <= k < |b| && b[k].pkt.dst == d;
      assert b[k] in live;
      assert b[k] in n.buffer;
    }
  }

  lemma {:induction false} DrainAddsNone(n: Node, x: Addr, now: real, how: Disposal, d: Addr)
    requires x in n.table
    ensures NoNewPackets(n, Drain(n, x, now, how), d)
    decreases |n.buffer|
  {
    hide Dispose, Deque, HasPacketFor;
    var (n1, p) := Deque(n, x, now);
    DequeAddsNone(n, x, now, d);
    if p.Some? {
      DrainAddsNone(Dispose(n1, x, p.value, now, how), x, now, how, d);
    }
  }

  lemma DrainAside(n: Node, x: Addr, now: real, how: Disposal, d: Addr)
    requires x in n.table
    ensures Aside(n, Drain(n, x, now, how), d) && NoNewPackets(n, Drain(n, x, now, how), d)
  {
    hide Drain;
    DrainSilent(n, x, now, how);
    DrainAddsNone(n, x, now, how, d);
    NoneAsked(n.out, Drain(n, x, now, how).out, n.id, d);
  }

  /** What `sendRequest` does for its own destination. */
  lemma SendRequestStep(n: Node, d: Addr, now: real)
    requires d in n.table
    ensures AskStep(n, SendRequest(n, d, now), d, now)
  {
    hide Drain, Asks, AskTtl, AskCount, AskTimeout;
    var r := n.table[d];
    match AskDecision(r, now)
    case Quiet =>
    case GiveUp =>
      var n1 := SetRoute(n, d, GivenUp(r, now));
      DrainAside(n1, d, now, DropIt, d);
      DrainEmptiesFor(n1, d, now, DropIt);
      assert Stops(n, Drain(n1, d, now, DropIt), d, now);
    case Ask =>
      var q := Request(n.id, AskTtl(r), 1, n.bid, d, r.seqno, n.id, n.seqno + 2, now);
      AsksEmit(n.out, Transmit(BROADCAST, Rreq(q)), n.id, d);
      assert SendRequest(n, d, now).out == n.out + [Transmit(BROADCAST, Rreq(q))];
      assert AsksOnce(n, SendRequest(n, d, now), d, now);
  }

  /** And for every other one. */
  lemma SendRequestAside(n: Node, x: Addr, now: real, d: Addr)
    requires x in n.table && x != d
    ensures Aside(n, SendRequest(n, x, now), d) && NoNewPackets(n, SendRequest(n, x, now), d)
  {
    hide Drain, Asks, AskTtl, AskCount, AskTimeout;
    match AskDecision(n.table[x], now)
    case Quiet =>
    case GiveUp => DrainAside(SetRoute(n, x, GivenUp(n.table[x], now)), x, now, DropIt, d);
    case Ask =>
      var n' := SendRequest(n, x, now);
      var e := n'.out[|n.out|];
      AsksEmit(n.out, e, n.id, d);
      assert n'.out == n.out + [e];
  }

  /* ---------- the route purge ---------- */

  lemma PurgeEntryAside(n: Node, x: Addr, now: real, d: Addr)
    requires x in n.table && x != d
    ensures Aside(n, PurgeEntry(n, x, now), d) && NoNewPackets(n, PurgeEntry(n, x, now), d)
  {
    hide Drain, SendRequest, Asks;
    var n0 := Check(n, Usable(n.table[x]));
    DrainAside(n0, x, now, DropIt, d);
    DrainAside(n0, x, now, ForwardIt, d);
    SendRequestAside(n, x, now, d);
  }

  lemma PurgeEntryStep(n: Node, d: Addr, now: real)
    requires d in n.table
    ensures AskStep(n, PurgeEntry(n, d, now), d, now)
  {
    hide Drain, SendRequest, Asks, AsksOnce, Stops;
    var n0 := Check(n, Usable(n.table[d]));
    DrainAside(n0, d, now, DropIt, d);
    DrainAside(n0, d, now, ForwardIt, d);
    SendRequestStep(n, d, now);
  }

  lemma {:induction false} PurgeAllAside(n: Node, ds: seq<Addr>, now: real, d: Addr)
    requires d !in ds
    ensures Aside(n, PurgeAll(n, ds, now), d) && NoNewPackets(n, PurgeAll(n, ds, now), d)
    decreases |ds|
  {
    hide PurgeEntry, Asks;
    if ds != [] {
      if ds[0] in n.table {
        PurgeEntryAside(n, ds[0], now, d);
        PurgeAllAside(PurgeEntry(n, ds[0], now), ds[1..], now, d);
      } else {
        PurgeAllAside(n, ds[1..], now, d);
      }
    }
  }

  lemma {:induction false} PurgeAllStep(n: Node, ds: seq<Addr>, now: real, d: Addr)
    requires NoDuplicates(ds)
    ensures AskStep(n, PurgeAll(n, ds, now), d, now)
    decreases |ds|
  {
    hide PurgeEntry, Asks, AsksOnce, Stops;
    if ds != [] {
      var rest := ds[1..];
      if ds[0] !in n.table {
        PurgeAllStep(n, rest, now, d);
      } else {
        var n1 := PurgeEntry(n, ds[0], now);
        if ds[0] == d {
          PurgeEntryStep(n, d, now);
          PurgeAllAside(n1, rest, now, d);
          AskBefore(n, n1, PurgeAll(n1, rest, now), d, now);
        } else {
          PurgeEntryAside(n, ds[0], now, d);
          PurgeAllStep(n1, rest, now, d);
          AskAfter(n, n1, PurgeAll(n1, rest, now), d, now);
        }
      }
    }
  }

  /* ---------- data packets and repair ---------- */

  lemma EnqueueAside(n: Node, pkt: Data, now: real, d: Addr)
    ensures Aside(n, Enqueue(n, pkt, now), d) && Enqueue(n, pkt, now).table == n.table
  {
    hide Live, Aged, Appended, Asks;
    var e := Victim(Live(n.buffer, now), now);
    if e.Some? {
      AsksEmit(n.out, e.value, n.id, d);
    }
  }

  lemma SendRequestAny(n: Node, x: Addr, now: real, d: Addr)
    requires x in n.table
    ensures AskStep(n, SendRequest(n, x, now), d, now)
  {
    hide SendRequest, Asks, AsksOnce, Stops;
    if x == d {
      SendRequestStep(n, d, now);
    } else {
      SendRequestAside(n, x, now, d);
    }
  }

  lemma RtResolveStep(n: Node, now: real, pkt: Data, d: Addr)
    ensures AskStep(n, RtResolve(n, now, pkt), d, now)
  {
    hide SendRequest, Enqueue, Asks, AsksOnce, Stops, AskStep;
    var n1 := EnsureRoute(n, pkt.dst);
    var r := n1.table[pkt.dst];
    var n' := RtResolve(n, now, pkt);
    assert Aside(n, n1, d);
    EnqueueAside(n1, pkt, now, d);
    if r.flag != Up && pkt.src == n.id {
      SendRequestAny(Enqueue(n1, pkt, now), pkt.dst, now, d);
      AskAfter(n1, Enqueue(n1, pkt, now), n', d, now);
      AskAfter(n, n1, n', d, now);
    } else {
      QuietResolve(n, now, pkt, d);
      UnaskedIsStep(n, n', d, now);
    }
  }

  lemma UnaskedIsStep(n: Node, n': Node, d: Addr, now: real)
    requires Unasked(n, n', d)
    ensures AskStep(n, n', d, now)
  {
  }

  lemma ForwardViaUnasked(n: Node, x: Addr, pkt: Data, now: real, d: Addr)
    requires x in n.table
    ensures Unasked(n, ForwardVia(n, x, pkt, now), d)
  {
    hide Asks;
    var n' := ForwardVia(n, x, pkt, now);
    assert n'.out == n.out + [n'.out[|n.out|]];
    AsksEmit(n.out, n'.out[|n.out|], n.id, d);
  }

  lemma QuietResolve(n: Node, now: real, pkt: Data, d: Addr)
    requires RouteOf(n, pkt.dst).flag == Up || pkt.src != n.id
    ensures Unasked(n, RtResolve(n, now, pkt), d)
  {
    hide Enqueue, Asks, ForwardVia;
    var n1 := EnsureRoute(n, pkt.dst);
    EnqueueAside(n1, pkt, now, d);
    var n' := RtResolve(n, now, pkt);
    var r := n1.table[pkt.dst];
    if r.flag == Up {
      ForwardViaUnasked(Check(n1, Usable(r)), pkt.dst, pkt, now, d);
    } else if r.flag == Down {
      AsksEmit(n.out, Transmit(BROADCAST, Rerr(RouteError(n.id, [Lost(pkt.dst, r.seqno)]))), n.id, d);
      AsksEmit(n'.out[..|n'.out| - 1], Drop(pkt, NoRoute), n.id, d);
    }
  }

  lemma RecvDataStep(n: Node, now: real, pkt: Data, d: Addr)
    ensures AskStep(n, RecvData(n, now, pkt), d, now)
  {
    hide RtResolve, Asks, AsksOnce, Stops;
    var p := if pkt.src != n.id then pkt.(ttl := pkt.ttl - 1)
             else if pkt.dst != BROADCAST then pkt.(ttl := NETWORK_DIAMETER)
             else pkt;
    var n' := RecvData(n, now, pkt);
    if (pkt.src == n.id && pkt.forwards != 0) || (pkt.src != n.id && p.ttl == 0) || pkt.dst == BROADCAST {
      NoneAsked(n.out, n'.out, n.id, d);
    } else {
      RtResolveStep(n, now, p, d);
    }
  }

  lemma StartRepairStep(n: Node, now: real, pkt: Data, d: Addr)
    requires pkt.dst in n.table
    ensures AskStep(n, StartRepair(n, now, pkt), d, now)
  {
    hide SendRequest, Enqueue, Asks, AskStep;
    var n1 := Enqueue(n, pkt, now);
    EnqueueAside(n, pkt, now, d);
    var n2 := SetRoute(n1, pkt.dst, n1.table[pkt.dst].(flag := InRepair));
    SendRequestAny(n2, pkt.dst, now, d);
    AskAfter(n, n2, SendRequest(n2, pkt.dst, now), d, now);
  }

  lemma LinkFailureUnasked(n: Node, id: Addr, d: Addr)
    ensures Unasked(n, HandleLinkFailure(n, id), d)
  {
    hide LostVia, Asks, LinkFailureChecks, WithoutFirst;
    AsksEmit(n.out, Transmit(BROADCAST, Rerr(RouteError(n.id, LostVia(n.order, n.table, id)))), n.id, d);
  }

  lemma LinkFailedStep(n: Node, now: real, pkt: Data, neighbor: Addr, d: Addr)
    ensures AskStep(n, LinkFailed(n, now, pkt, neighbor), d, now)
  {
    hide StartRepair, HandleLinkFailure, Asks, AsksOnce, Stops;
    AsksEmit(n.out, Drop(pkt, MacCallback), n.id, d);
    if pkt.dst in n.table {
      StartRepairStep(n, now, pkt, d);
    }
    var n1 := Emit(n, Drop(pkt, MacCallback)).(seqno := n.seqno + 2);
    LinkFailureUnasked(Check(n1, Even(n1.seqno)), neighbor, d);
  }

  /* ---------- the receive handlers ---------- */

  lemma {:induction false} ErrorScanUnasked(n: Node, from: Addr, lost: seq<Lost>, d: Addr)
    ensures Unasked(n, ErrorScan(n, from, lost).0, d) && ErrorScan(n, from, lost).0.out == n.out
  {
    hide Asks;
    if lost != [] {
      ErrorScanUnasked(n, from, lost[..|lost| - 1], d);
    }
  }

  lemma RecvErrorStep(n: Node, m: RouteError, d: Addr)
    ensures Unasked(n, RecvError(n, m), d)
  {
    hide ErrorScan;
    ErrorScanUnasked(n, m.from, m.lost, d);
    NoneAsked(n.out, RecvError(n, m).out, n.id, d);
  }

  /** The reverse route is taken from the request, or its request state is kept. */
  lemma ReverseRouteStep(n: Node, now: real, m: Request, d: Addr)
    requires m.src in n.table
    ensures var n' := ReverseRoute(n, now, m);
            if d == m.src && Better(m.srcSeqno, m.hops, n.table[d])
            then n'.id == n.id && n'.table[d].flag == Up && n'.table[d].seqno == m.srcSeqno
                 && n'.table[d].hops == m.hops && n'.table[d].nexthop == m.from
            else Unasked(n, n', d)
    ensures Asks(ReverseRoute(n, now, m).out, n.id, d) == Asks(n.out, n.id, d)
  {
    hide Drain, Asks;
    var n1 := SetRoute(n, m.src, ReverseEntry(n.table[m.src], now, m));
    DrainAside(n1, m.src, now, ForwardIt, d);
    DrainSilent(n1, m.src, now, ForwardIt);
  }

  lemma AnswerRequestUnasked(n: Node, now: real, m: Request, d: Addr)
    requires m.src in n.table && m.src != n.id
    ensures Unasked(n, AnswerRequest(n, now, m), d)
    ensures SameRoute(RouteOf(n, d), RouteOf(AnswerRequest(n, now, m), d))
  {
    hide Asks, WithPrecursor;
    var n' := AnswerRequest(n, now, m);
    assert n'.out == n.out + [n'.out[|n.out|]];
    AsksEmit(n.out, n'.out[|n.out|], n.id, d);
  }

  lemma RecvRequestStep(n: Node, now: real, p: Request, d: Addr)
    ensures RequestStep(n, RecvRequest(n, now, p.(ttl := p.ttl - 1)), d, now, Some(Rreq(p)))
  {
    hide ReverseRoute, AnswerRequest, Asks, AsksOnce, Stops;
    var m := p.(ttl := p.ttl - 1);
    if m.src != n.id && !InCache(n.cache, m.src, m.bid) {
      var n1 := EnsureRoute(CacheInsert(n, m.src, m.bid, now), m.src);
      ReverseRouteStep(n1, now, m, d);
      AnswerRequestUnasked(ReverseRoute(n1, now, m), now, m, d);
    }
  }

  /** The forward route is taken from the reply. */
  lemma ForwardRouteStep(n: Node, now: real, m: Reply, d: Addr)
    requires m.dst in n.table
    ensures var n' := ForwardRoute(n, now, m);
            if d == m.dst
            then n'.id == n.id && n'.table[d].flag == Up && n'.table[d].seqno == m.dstSeqno
                 && n'.table[d].hops == m.hops && n'.table[d].nexthop == m.from
            else Unasked(n, n', d)
    ensures Asks(ForwardRoute(n, now, m).out, n.id, d) == Asks(n.out, n.id, d)
  {
    hide Drain, Asks;
    var n1 := SetRoute(n, m.dst, ForwardEntry(n.table[m.dst], n.id, now, m));
    DrainAside(n1, m.dst, now, ReplyDisposal(m), d);
    DrainSilent(n1, m.dst, now, ReplyDisposal(m));
  }

  lemma RelayReplyUnasked(n: Node, now: real, m: Reply, d: Addr)
    requires m.dst in n.table
    ensures Unasked(n, RelayReply(n, now, m), d)
    ensures SameRoute(RouteOf(n, d), RouteOf(RelayReply(n, now, m), d))
  {
    hide Asks, WithPrecursor;
    var n' := RelayReply(n, now, m);
    assert n'.out == n.out + [n'.out[|n.out|]];
    AsksEmit(n.out, n'.out[|n.out|], n.id, d);
  }

  lemma RecvReplyStep(n: Node, now: real, p: Reply, d: Addr)
    ensures RequestStep(n, RecvReply(n, now, p.(ttl := p.ttl - 1)), d, now, Some(Rrep(p)))
  {
    hide ForwardRoute, RelayReply, Asks, AsksOnce, Stops;
    var m := p.(ttl := p.ttl - 1);
    var n1 := EnsureRoute(n, m.dst);
    ForwardRouteStep(n1, now, m, d);
    RelayReplyUnasked(ForwardRoute(n1, now, m), now, m, d);
  }

  /** Every handler run, failed repairs included. */
  lemma HandleRequests(n: Node, now: real, input: Input, d: Addr)
    requires NoDuplicates(n.order)
    ensures RequestStep(n, Handle(n, now, input), d, now, CauseOf(input))
  {
    hide RecvRequest, RecvReply, RecvError, RecvData, LinkFailed, PurgeAll, Asks, AsksOnce, Stops;
    match input
    case Hear(m) =>
      match m {
        case Rreq(q) => RecvRequestStep(n, now, q, d);
        case Rrep(q) => RecvReplyStep(n, now, q, d);
        case Rerr(q) => RecvErrorStep(n, q, d);
      }
    case Packet(pkt) => RecvDataStep(n, now, pkt, d);
    case LinkDown(pkt, neighbor) => LinkFailedStep(n, now, pkt, neighbor, d);
    case RouteTimer => PurgeAllStep(n, n.order, now, d);
    case CacheTimer =>
    case RepairTimer(_) =>
  }
}
