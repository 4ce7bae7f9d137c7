/** The routing agent as an object: its methods assign fields of entries, of the buffer and of the
    agent in place, and each is proved to compute the handler function of the same name. */
module Agent {
  import opened Types
  import opened RouteTable
  import opened SendBuffer
  import opened Handlers

  class Aodv {
    const index: Addr
    const localRepair: bool
    const rtable: RTable
    const rqueue: RQueue
    var seqno: nat
    var bid: nat
    var bihead: seq<CacheEntry>
    /** Effects so far, and whether an assertion of the source was false. */
    var out: seq<Effect>
    var failed: bool

    ghost function Abs(): Node
      reads this, rtable, rqueue
    {
      Node(index, localRepair, seqno, bid, rtable.order, rtable.routes, bihead,
           rqueue.contents, rqueue.aged, out, failed)
    }

    ghost predicate Valid()
      reads this, rtable, rtable.repr, rqueue, rqueue.repr
    {
      rtable.Valid() && rqueue.Valid()
    }

    /** Only new objects joined the table and the buffer. */
    twostate predicate Grown()
      reads this, rtable, rqueue
    {
      fresh(rtable.repr - old(rtable.repr)) && fresh(rqueue.repr - old(rqueue.repr))
    }

    constructor (id: Addr, localRepair: bool)
      ensures Valid() && Abs() == NewNode(id, localRepair)
      ensures fresh(rtable) && fresh(rqueue) && fresh(rtable.repr) && fresh(rqueue.repr)
    {
      index := id;
      this.localRepair := localRepair;
      rtable := new RTable();
      rqueue := new RQueue();
      seqno, bid, bihead := 2, 1, [];
      out, failed := [], false;
    }

    /* ---------- helpers ---------- */

    method Assert(ok: bool)
      modifies this`failed
      ensures Abs() == Check(old(Abs()), ok)
    {
      failed := failed || !ok;
    }

    method Do(e: Effect)
      modifies this`out
      ensures Abs() == Emit(old(Abs()), e)
    {
      out := out + [e];
    }

    /* ---------- broadcast-id cache ---------- */

    method IdInsert(id: Addr, bid: nat, now: real)
      modifies this`bihead
      ensures Abs() == CacheInsert(old(Abs()), id, bid, now)
    {
      bihead := [CacheEntry(id, bid, now + BCAST_ID_SAVE)] + bihead;
    }

    method IdLookup(id: Addr, bid: nat) returns (found: bool)
      ensures found <==> InCache(bihead, id, bid)
    {
      var k := 0;
      while k < |bihead|
        invariant 0 <= k <= |bihead|
        invariant forall j :: 0 <= j < k ==> !(bihead[j].src == id && bihead[j].bid == bid)
      {
        if bihead[k].src == id && bihead[k].bid == bid {
          return true;
        }
        k := k + 1;
      }
      found := false;
    }

    method IdPurge(now: real)
      modifies this`bihead
      ensures Abs() == Handlers.IdPurge(old(Abs()), now)
    {
      var kept, k := [], 0;
      while k < |bihead|
        invariant 0 <= k <= |bihead|
        invariant kept == Unexpired(bihead[..k], now)
      {
        assert bihead[..k + 1][..k] == bihead[..k];
        if bihead[k].expire > now {
          kept := kept + [bihead[k]];
        }
        k := k + 1;
      }
      assert bihead[..k] == bihead;
      bihead := kept;
    }

    /* ---------- table and buffer ---------- */

    /** `rt_lookup`, and `rt_add` if there is no entry. */
    method EnsureEntry(d: Addr) returns (rt: RtEntry)
      requires Valid()
      modifies rtable
      ensures Valid() && Grown()
      ensures Abs() == EnsureRoute(old(Abs()), d)
      ensures rt in rtable.spine && rt.dst == d
    {
      var r := rtable.Lookup(d);
      if r == null {
        rt := rtable.Add(d);
      } else {
        rt := r;
      }
    }

    /** `rqueue.enque`, with the drop of an evicted packet. */
    method EnqueuePacket(pkt: Data, now: real)
      requires Valid()
      modifies this`out, rqueue, rqueue.repr
      ensures Valid() && Grown()
      ensures Abs() == Enqueue(old(Abs()), pkt, now)
    {
      hide RTable.ValidBut, RQueue.Valid, Live, Aged, Appended;
      var p := new SendBuffer.Packet(pkt);
      var victim := rqueue.Enque(p, now);
      if victim.Some? {
        out := out + [victim.value];
      }
    }

    /** `rqueue.deque(dst)` */
    method DequeuePacket(d: Addr, now: real) returns (p: Option<Data>)
      requires Valid()
      modifies rqueue, rqueue.repr
      ensures Valid() && rqueue.repr == old(rqueue.repr)
      ensures (Abs(), p) == Deque(old(Abs()), d, now)
    {
      var pkt := rqueue.DequeFor(d, now);
      p := if pkt == null then None else Some(pkt.data);
    }

    /** `rt->rt_expire = t` */
    method SetExpire(rt: RtEntry, t: real)
      requires rtable.Valid() && rt in rtable.spine
      modifies rtable`routes, rt`expire
      ensures rtable.Valid() && rt.dst in old(rtable.routes)
      ensures rtable.routes == old(rtable.routes)[rt.dst := old(rtable.routes)[rt.dst].(expire := t)]
    {
      rtable.EntryOf(rt);
      rt.expire := t;
      rtable.Commit(rt);
    }

    /** `forward` of a data packet along `rt`. */
    method ForwardPacket(rt: RtEntry, pkt: Data, now: real)
      requires Valid() && rt in rtable.spine
      modifies this`out, this`failed, rtable`routes, rt`expire
      ensures Valid() && rt.dst in old(Abs()).table
      ensures Abs() == ForwardVia(old(Abs()), rt.dst, pkt, now)
    {
      hide RTable.ValidBut, RQueue.Valid;
      rtable.EntryOf(rt);
      if pkt.ttl == 0 {
        Do(Drop(pkt, TtlExpired));
        return;
      }
      if (pkt.up && pkt.dst == BROADCAST) || pkt.dst == index {
        Do(Effect.Deliver(pkt));
        return;
      }
      Assert(rt.flag == Up && pkt.dst != BROADCAST);
      var next := rt.nexthop;
      SetExpire(rt, now + ACTIVE_ROUTE_TIMEOUT);
      Do(Forward(next, pkt.(up := false)));
    }

    /** `forward` of a data packet without a route. */
    method BroadcastPacket(pkt: Data)
      modifies this`out, this`failed
      ensures Abs() == ForwardBroadcast(old(Abs()), pkt)
    {
      if pkt.ttl == 0 {
        Do(Drop(pkt, TtlExpired));
      } else if (pkt.up && pkt.dst == BROADCAST) || pkt.dst == index {
        Do(Effect.Deliver(pkt));
      } else {
        Assert(pkt.dst == BROADCAST);
        Do(Forward(BROADCAST, pkt.(up := false)));
      }
    }

    /** What a drain loop does with one packet. */
    method DisposeOf(rt: RtEntry, pkt: Data, now: real, how: Disposal)
      requires Valid() && rt in rtable.spine
      modifies this`out, this`failed, rtable`routes, rt`expire
      ensures Valid() && rt.dst in old(Abs()).table
      ensures Abs() == Dispose(old(Abs()), rt.dst, pkt, now, how)
    {
      hide RTable.ValidBut, RQueue.Valid, ForwardVia, Check, Emit;
      rtable.EntryOf(rt);
      match how
      case ForwardIt =>
        Assert(rt.flag == Up && rt.hops != INFINITY2);
        ForwardPacket(rt, pkt, now);
      case DropIt => Do(Drop(pkt, NoRoute));
      case LoseIt =>
    }

    /** One turn of a drain loop. */
    method DrainTurn(rt: RtEntry, pkt: Data, now: real, how: Disposal) returns (p: Option<Data>)
      requires Valid() && rt in rtable.spine
      modifies this`out, this`failed, rtable`routes, rt`expire, rqueue, rqueue.repr
      ensures Valid() && rqueue.repr == old(rqueue.repr) && rt.dst in old(Abs()).table
      ensures (Abs(), p) == Deque(Dispose(old(Abs()), rt.dst, pkt, now, how), rt.dst, now)
    {
      DisposeOf(rt, pkt, now, how);
      p := DequeuePacket(rt.dst, now);
    }

    /** The loop `while ((p = rqueue.deque(rt->rt_dst)))` of the receive handlers, the route purge
        and the give-up of `sendRequest`. */
    method DrainPackets(rt: RtEntry, now: real, how: Disposal)
      requires Valid() && rt in rtable.spine
      modifies this`out, this`failed, rtable`routes, rt`expire, rqueue, rqueue.repr
      ensures Valid() && rqueue.repr == old(rqueue.repr) && rt.dst in old(Abs()).table
      ensures Abs() == Drain(old(Abs()), rt.dst, now, how)
    {
      hide Dispose, Deque, RTable.ValidBut, RQueue.Valid;
      rtable.EntryOf(rt);
      ghost var n0 := Abs();
      var p := DequeuePacket(rt.dst, now);
      while p.Some?
        invariant Valid() && rqueue.repr == old(rqueue.repr) && rt.dst in Abs().table
        invariant Drain(n0, rt.dst, now, how)
               == if p.Some? then Drain(Dispose(Abs(), rt.dst, p.value, now, how), rt.dst, now, how) else Abs()
        decreases |rqueue.contents|, p.Some?
      {
        p := DrainTurn(rt, p.value, now, how);
      }
    }

    /* ---------- field updates of one entry ---------- */

    /** `rt_update` */
    method RtUpdate(rt: RtEntry, seqno: nat, hops: nat, nexthop: Addr, expire: real)
      requires rtable.Valid() && rt in rtable.spine
      modifies rtable`routes, rt`seqno, rt`hops, rt`flag, rt`nexthop, rt`expire
      ensures rtable.Valid() && rt.dst in old(rtable.routes)
      ensures rtable.routes ==
              old(rtable.routes)[rt.dst := Updated(old(rtable.routes)[rt.dst], seqno, hops, nexthop, expire)]
    {
      rtable.EntryOf(rt);
      rt.Update(seqno, hops, nexthop, expire);
      rtable.Commit(rt);
    }

    /** `rt_down`, for a route whose sequence number the caller sets to `seqno` first. */
    method RtDown(rt: RtEntry, seqno: nat)
      requires rtable.Valid() && rt in rtable.spine
      modifies rtable`routes, rt`seqno, rt`lastHops, rt`hops, rt`flag, rt`nexthop, rt`expire
      ensures rtable.Valid() && rt.dst in old(rtable.routes)
      ensures rtable.routes == old(rtable.routes)[rt.dst := Downed(old(rtable.routes)[rt.dst].(seqno := seqno))]
    {
      rtable.EntryOf(rt);
      rt.TakeDown(seqno);
      rtable.Commit(rt);
    }

    /** Resets the soft state of route requests. */
    method ResetRequests(rt: RtEntry, hops: nat, expire: real)
      requires rtable.Valid() && rt in rtable.spine
      modifies rtable`routes, rt`reqCnt, rt`reqTimeout, rt`reqLastTtl, rt`expire
      ensures rtable.Valid() && rt.dst in old(rtable.routes)
      ensures rtable.routes == old(rtable.routes)[rt.dst :=
                old(rtable.routes)[rt.dst].(reqCnt := 0, reqTimeout := 0.0, reqLastTtl := hops, expire := expire)]
    {
      rtable.EntryOf(rt);
      rt.ResetRequests(hops, expire);
      rtable.Commit(rt);
    }

    method RecordLatency(rt: RtEntry, latency: real)
      requires rtable.Valid() && rt in rtable.spine
      modifies rtable`routes, rt`history
      ensures rtable.Valid() && rt.dst in old(rtable.routes)
      ensures rtable.routes == old(rtable.routes)[rt.dst :=
                old(rtable.routes)[rt.dst].(history := Recorded(old(rtable.routes)[rt.dst].history, latency))]
    {
      rtable.EntryOf(rt);
      rt.history := History(rt.history.slots[rt.history.next := latency], (rt.history.next + 1) % MAX_HISTORY);
      rtable.Commit(rt);
    }

    method InsertPrecursor(rt: RtEntry, id: Addr)
      requires rtable.Valid() && rt in rtable.spine
      modifies rtable`routes, rt`pclist
      ensures rtable.Valid() && rt.dst in old(rtable.routes)
      ensures Abs() == AddPrecursor(old(Abs()), rt.dst, id)
    {
      rtable.EntryOf(rt);
      rt.PcInsert(id);
      rtable.Commit(rt);
    }

    method NextTimeout(ttl: nat, reqCnt: nat, perHop: real, now: real) returns (t: real)
      ensures var span := 2.0 * ttl as real * perHop;
              var scaled := (if reqCnt > 0 then span * reqCnt as real else span) + now;
              t == if scaled > now + MAX_RREQ_TIMEOUT then now + MAX_RREQ_TIMEOUT else scaled
    {
      t := 2.0 * ttl as real * perHop;
      if reqCnt > 0 {
        t := t * reqCnt as real;
      }
      t := t + now;
      if t > now + MAX_RREQ_TIMEOUT {
        t := now + MAX_RREQ_TIMEOUT;
      }
    }

    /** The part of `sendRequest` that chooses the time to live and the next timeout. */
    method PrepareRequest(rt: RtEntry, now: real) returns (ttl: nat)
      modifies rt`reqLastTtl, rt`reqCnt, rt`reqTimeout, rt`expire
      ensures ttl == AskTtl(old(rt.Value()))
      ensures rt.Value() == Asked(old(rt.Value()), now)
    {
      hide PerHopTime;
      rt.reqLastTtl := Max(rt.reqLastTtl, rt.lastHops);
      if rt.reqLastTtl == 0 {
        ttl := TTL_START;
      } else if rt.reqLastTtl < TTL_THRESHOLD {
        ttl := rt.reqLastTtl + TTL_INCREMENT;
      } else {
        ttl := NETWORK_DIAMETER;
        rt.reqCnt := rt.reqCnt + 1;
      }
      rt.reqLastTtl := ttl;
      var perHop := rt.HopTime();
      rt.reqTimeout := NextTimeout(ttl, rt.reqCnt, perHop, now);
      rt.expire := 0.0;
    }

    method StartRequest(rt: RtEntry, now: real) returns (ttl: nat)
      requires rtable.Valid() && rt in rtable.spine
      modifies rtable`routes, rt`reqLastTtl, rt`reqCnt, rt`reqTimeout, rt`expire
      ensures rtable.Valid() && rt.dst in old(rtable.routes)
      ensures ttl == AskTtl(old(rtable.routes)[rt.dst])
      ensures rtable.routes == old(rtable.routes)[rt.dst := Asked(old(rtable.routes)[rt.dst], now)]
    {
      hide Asked, AskTtl;
      rtable.EntryOf(rt);
      ttl := PrepareRequest(rt, now);
      rtable.Commit(rt);
    }

    method GiveUpRequest(rt: RtEntry, now: real)
      requires rtable.Valid() && rt in rtable.spine
      modifies rtable`routes, rt`reqCnt, rt`reqTimeout
      ensures rtable.Valid() && rt.dst in old(rtable.routes)
      ensures rtable.routes == old(rtable.routes)[rt.dst := GivenUp(old(rtable.routes)[rt.dst], now)]
    {
      rtable.EntryOf(rt);
      rt.reqTimeout := now + MAX_RREQ_TIMEOUT;
      rt.reqCnt := 0;
      rtable.Commit(rt);
    }

    /* ---------- requests and replies ---------- */

    /** The exit of `sendRequest` that gives up. */
    method GiveUpAsking(rt: RtEntry, now: real)
      requires Valid() && rt in rtable.spine && rt.dst in rtable.routes
      requires AskDecision(rtable.routes[rt.dst], now) == AskOutcome.GiveUp
      modifies this, rtable`routes, rtable.repr, rqueue, rqueue.repr
      ensures Valid() && rqueue.repr == old(rqueue.repr)
      ensures Abs() == Handlers.SendRequest(old(Abs()), rt.dst, now)
    {
      hide RTable.ValidBut, RQueue.Valid, Drain, AskDecision, GivenUp;
      rtable.EntryOf(rt);
      GiveUpRequest(rt, now);
      DrainPackets(rt, now, DropIt);
    }

    /** The exit of `sendRequest` that sends a request. */
    method AskForRoute(rt: RtEntry, now: real)
      requires Valid() && rt in rtable.spine && rt.dst in rtable.routes
      requires AskDecision(rtable.routes[rt.dst], now) == AskOutcome.Ask
      modifies this, rtable`routes, rtable.repr
      ensures Valid()
      ensures Abs() == Handlers.SendRequest(old(Abs()), rt.dst, now)
    {
      hide RTable.ValidBut, RQueue.Valid, AskDecision, Asked, AskTtl;
      rtable.EntryOf(rt);
      var rtSeqno := rt.seqno;
      var ttl := StartRequest(rt, now);
      var b := bid;
      bid := bid + 1;
      seqno := seqno + 2;
      Assert(Even(seqno));
      Do(Transmit(BROADCAST, Rreq(Request(index, ttl, 1, b, rt.dst, rtSeqno, index, seqno, now))));
    }

    /** `sendRequest` */
    method SendRequest(dst: Addr, now: real)
      requires Valid() && dst in rtable.routes
      modifies this, rtable`routes, rtable.repr, rqueue, rqueue.repr
      ensures Valid() && rqueue.repr == old(rqueue.repr)
      ensures Abs() == Handlers.SendRequest(old(Abs()), dst, now)
    {
      hide RTable.ValidBut, RQueue.Valid, Drain, Asked, GivenUp;
      var rt := rtable.Lookup(dst);
      assert rt != null;
      rtable.EntryOf(rt);
      if rt.flag == Up {
        Assert(rt.hops != INFINITY2);
        return;
      }
      if rt.reqTimeout > now {
        return;
      }
      if rt.reqCnt > RREQ_RETRIES {
        GiveUpAsking(rt, now);
        return;
      }
      AskForRoute(rt, now);
    }

    /** `sendReply` */
    method SendReply(to: Addr, hops: nat, dst: Addr, dstSeqno: nat, lifetime: real, stamp: real)
      requires Valid() && to in rtable.routes
      modifies this`out
      ensures Abs() == Handlers.SendReply(old(Abs()), to, hops, dst, dstSeqno, lifetime, stamp)
    {
      var rt := rtable.Lookup(to);
      assert rt != null;
      Do(Transmit(rt.nexthop, Rrep(Reply(index, NETWORK_DIAMETER, Byte(hops), to, dst, dstSeqno, lifetime, stamp))));
    }

    /** The reverse-route half of `recvRequest`. */
    method UpdateReverseRoute(rt0: RtEntry, m: Request, now: real)
      requires Valid() && rt0 in rtable.spine && rt0.dst == m.src
      modifies this`out, this`failed, rtable`routes, rtable.repr, rqueue, rqueue.repr
      ensures Valid() && rqueue.repr == old(rqueue.repr) && m.src in old(Abs()).table
      ensures Abs() == ReverseRoute(old(Abs()), now, m)
    {
      hide RTable.ValidBut, RQueue.Valid, Drain;
      rtable.EntryOf(rt0);
      ghost var n := Abs();
      SetExpire(rt0, MaxReal(rt0.expire, now + REV_ROUTE_LIFE));
      rtable.EntryOf(rt0);
      if m.srcSeqno > rt0.seqno || (m.srcSeqno == rt0.seqno && m.hops < rt0.hops) {
        RtUpdate(rt0, m.srcSeqno, m.hops, m.from, MaxReal(rt0.expire, now + REV_ROUTE_LIFE));
        rtable.EntryOf(rt0);
        if rt0.reqTimeout > 0.0 {
          ResetRequests(rt0, m.hops, now + ACTIVE_ROUTE_TIMEOUT);
        }
        assert rtable.routes == n.table[m.src := rtable.routes[m.src]];
        rtable.EntryOf(rt0);
        Assert(rt0.flag == Up);
        DrainPackets(rt0, now, ForwardIt);
      }
    }

    /** The relay branch of `recvRequest`. */
    method RelayRequest(m: Request)
      requires Valid()
      modifies this`out
      ensures Abs() == Handlers.RelayRequest(old(Abs()), m)
    {
      var rt := rtable.Lookup(m.dst);
      var m1 := m.(from := index, hops := Byte(m.hops + 1));
      if rt != null {
        m1 := m1.(dstSeqno := Max(rt.seqno, m.dstSeqno));
      }
      if m.ttl == 0 {
        Do(Discard(Rreq(m1), TtlExpired));
      } else {
        Do(Transmit(BROADCAST, Rreq(m1)));
      }
    }

    /** The answer from a usable route: reply, and make the two next hops precursors. */
    method AnswerFromTable(rt0: RtEntry, rt: RtEntry, m: Request, now: real)
      requires Valid() && rt0 in rtable.spine && rt0.dst == m.src && rt in rtable.spine && rt.dst == m.dst
      requires m.dst != index && rt.hops != INFINITY2 && rt.seqno >= m.dstSeqno
      modifies this`out, this`failed, rtable`routes, rtable.repr
      ensures Valid() && m.src in old(Abs()).table
      ensures Abs() == Handlers.AnswerRequest(old(Abs()), now, m)
    {
      hide RTable.ValidBut, RQueue.Valid, Handlers.RelayRequest, WithPrecursor;
      rtable.EntryOf(rt0);
      rtable.EntryOf(rt);
      Assert(m.dst == rt.dst);
      SendReply(m.src, rt.hops + 1, m.dst, rt.seqno, Whole(rt.expire - now), m.stamp);
      var toSource, toDestination := rt0.nexthop, rt.nexthop;
      InsertPrecursor(rt, toSource);
      InsertPrecursor(rt0, toDestination);
    }

    /** The second half of `recvRequest`. */
    method AnswerRequest(rt0: RtEntry, m: Request, now: real)
      requires Valid() && rt0 in rtable.spine && rt0.dst == m.src
      modifies this`out, this`failed, this`seqno, rtable`routes, rtable.repr
      ensures Valid() && m.src in old(Abs()).table
      ensures Abs() == Handlers.AnswerRequest(old(Abs()), now, m)
    {
      hide RTable.ValidBut, RQueue.Valid, Handlers.RelayRequest, WithPrecursor;
      rtable.EntryOf(rt0);
      var rt := rtable.Lookup(m.dst);
      if m.dst == index {
        seqno := Max(seqno, m.dstSeqno) + 1;
        if seqno % 2 != 0 {
          seqno := seqno + 1;
        }
        SendReply(m.src, 1, index, seqno, MY_ROUTE_TIMEOUT, m.stamp);
      } else if rt != null && rt.hops != INFINITY2 && rt.seqno >= m.dstSeqno {
        AnswerFromTable(rt0, rt, m, now);
      } else {
        RelayRequest(m);
      }
    }

    /** `recvRequest` */
    method RecvRequest(m: Request, now: real)
      requires Valid()
      modifies this, rtable, rtable.repr, rqueue, rqueue.repr
      ensures Valid() && Grown()
      ensures Abs() == Handlers.RecvRequest(old(Abs()), now, m)
    {
      hide RTable.ValidBut, RQueue.Valid, ReverseRoute, Handlers.AnswerRequest, CacheInsert, EnsureRoute;
      if m.src == index {
        return;
      }
      var seen := IdLookup(m.src, m.bid);
      if seen {
        return;
      }
      IdInsert(m.src, m.bid, now);
      var rt0 := EnsureEntry(m.src);
      UpdateReverseRoute(rt0, m, now);
      AnswerRequest(rt0, m, now);
    }

    /** The forward-route half of `recvReply`. */
    method UpdateForwardRoute(rt: RtEntry, m: Reply, now: real)
      requires Valid() && rt in rtable.spine && rt.dst == m.dst
      modifies this`out, this`failed, rtable`routes, rtable.repr, rqueue, rqueue.repr
      ensures Valid() && rqueue.repr == old(rqueue.repr) && m.dst in old(Abs()).table
      ensures Abs() == ForwardRoute(old(Abs()), now, m)
    {
      hide RTable.ValidBut, RQueue.Valid, Drain, Recorded, Latency;
      rtable.EntryOf(rt);
      ghost var n := Abs();
      RtUpdate(rt, m.dstSeqno, m.hops, m.from, now + m.lifetime);
      rtable.EntryOf(rt);
      ResetRequests(rt, m.hops, rt.expire);
      if m.to == index {
        RecordLatency(rt, Latency(now, m));
      }
      assert rtable.routes == n.table[m.dst := rtable.routes[m.dst]];
      DrainPackets(rt, now, if m.hops != INFINITY2 then ForwardIt else LoseIt);
    }

    /** The relay of a reply along a usable route `rt0` to the originator. */
    method PassReplyOn(rt: RtEntry, rt0: RtEntry, m: Reply, now: real)
      requires Valid() && rt in rtable.spine && rt.dst == m.dst && rt0 in rtable.spine && rt0.dst == m.to
      requires rt0.hops != INFINITY2
      modifies this`out, this`failed, rtable`routes, rtable.repr
      ensures Valid() && m.dst in old(Abs()).table
      ensures Abs() == Handlers.RelayReply(old(Abs()), now, m)
    {
      hide RTable.ValidBut, RQueue.Valid, WithPrecursor;
      rtable.EntryOf(rt);
      rtable.EntryOf(rt0);
      Assert(rt0.flag == Up);
      var m1 := m.(hops := Byte(m.hops + 1), from := index);
      var next := rt0.nexthop;
      if m.ttl == 0 {
        Do(Discard(Rrep(m1), TtlExpired));
      } else {
        Assert(m.to != BROADCAST);
        SetExpire(rt0, now + ACTIVE_ROUTE_TIMEOUT);
        Do(Transmit(next, Rrep(m1)));
      }
      InsertPrecursor(rt, next);
    }

    /** The relay branch of `recvReply`. */
    method RelayReply(rt: RtEntry, m: Reply, now: real)
      requires Valid() && rt in rtable.spine && rt.dst == m.dst
      modifies this`out, this`failed, rtable`routes, rtable.repr
      ensures Valid() && m.dst in old(Abs()).table
      ensures Abs() == Handlers.RelayReply(old(Abs()), now, m)
    {
      hide RTable.ValidBut, RQueue.Valid, WithPrecursor;
      rtable.EntryOf(rt);
      var rt0 := rtable.Lookup(m.to);
      if rt0 != null && rt0.hops != INFINITY2 {
        PassReplyOn(rt, rt0, m, now);
      } else {
        Do(Discard(Rrep(m), NoRoute));
      }
    }

    /** `recvReply` */
    method RecvReply(m: Reply, now: real)
      requires Valid()
      modifies this, rtable, rtable.repr, rqueue, rqueue.repr
      ensures Valid() && Grown()
      ensures Abs() == Handlers.RecvReply(old(Abs()), now, m)
    {
      hide RTable.ValidBut, RQueue.Valid, ForwardRoute, Handlers.RelayReply, EnsureRoute;
      var rt := EnsureEntry(m.dst);
      rtable.EntryOf(rt);
      if rt.seqno < m.dstSeqno || (rt.seqno == m.dstSeqno && rt.hops > m.hops) {
        UpdateForwardRoute(rt, m, now);
        if m.to != index {
          RelayReply(rt, m, now);
        }
      }
    }

    /* ---------- errors and link failures ---------- */

    /** `sendError`, when there is something to report. */
    method SendError(lost: seq<Lost>)
      modifies this`out
      ensures Abs() == Handlers.SendError(old(Abs()), lost)
    {
      if |lost| > 0 {
        Do(Transmit(BROADCAST, Rerr(RouteError(index, lost))));
      }
    }

    /** One turn of the loop of `recvError`. */
    method RecvErrorEntry(from: Addr, l: Lost) returns (more: seq<Lost>)
      requires Valid()
      modifies this`failed, rtable`routes, rtable.repr
      ensures Valid() && (Abs(), more) == ErrorEntry(old(Abs()), from, l)
    {
      hide RTable.ValidBut, RQueue.Valid;
      var rt := rtable.Lookup(l.dst);
      more := [];
      ghost var n := Abs();
      if rt != null && rt.hops != INFINITY2 && rt.nexthop == from && rt.seqno <= l.seqno {
        Assert(rt.flag == Up && Even(rt.seqno));
        RtDown(rt, l.seqno);
        rtable.EntryOf(rt);
        if rt.pclist != [] {
          more := [Lost(rt.dst, rt.seqno)];
          ClearPrecursors(rt);
          assert rtable.routes == n.table[l.dst := rtable.routes[l.dst]];
        }
      }
    }

    method ClearPrecursors(rt: RtEntry)
      requires rtable.Valid() && rt in rtable.spine
      modifies rtable`routes, rt`pclist
      ensures rtable.Valid() && rt.dst in old(rtable.routes)
      ensures rtable.routes == old(rtable.routes)[rt.dst := old(rtable.routes)[rt.dst].(precursors := [])]
    {
      rtable.EntryOf(rt);
      rt.PcDeleteAll();
      rtable.Commit(rt);
    }

    /** `recvError` */
    method RecvError(m: RouteError)
      requires Valid()
      modifies this, rtable`routes, rtable.repr
      ensures Valid() && Abs() == Handlers.RecvError(old(Abs()), m)
    {
      hide RTable.ValidBut, RQueue.Valid, ErrorEntry;
      var nre, i := [], 0;
      ghost var n := Abs();
      while i < |m.lost|
        invariant 0 <= i <= |m.lost| && Valid()
        invariant (Abs(), nre) == ErrorScan(n, m.from, m.lost[..i])
      {
        assert m.lost[..i + 1][..i] == m.lost[..i];
        var more := RecvErrorEntry(m.from, m.lost[i]);
        nre := nre + more;
        i := i + 1;
      }
      assert m.lost[..i] == m.lost;
      SendError(nre);
    }

    /** One turn of the loop of `handle_link_failure`. */
    method LinkFailureEntry(rt: RtEntry, id: Addr) returns (more: seq<Lost>)
      requires rtable.Valid() && rt in rtable.spine
      modifies this`failed, rtable`routes, rtable.repr
      ensures rtable.Valid() && rt.dst in old(rtable.routes)
      ensures rtable.routes == old(rtable.routes)[rt.dst := AfterLinkFailure(old(rtable.routes)[rt.dst], id)]
      ensures var r := old(rtable.routes)[rt.dst];
              if RoutedVia(r, id)
              then more == [Lost(rt.dst, r.seqno + 1)] && failed == (old(failed) || !(r.flag == Up && Even(r.seqno)))
              else more == [] && failed == old(failed)
    {
      hide RTable.ValidBut;
      rtable.EntryOf(rt);
      more := [];
      ghost var routes := rtable.routes;
      if rt.hops != INFINITY2 && rt.nexthop == id {
        Assert(rt.flag == Up && Even(rt.seqno));
        more := [Lost(rt.dst, rt.seqno + 1)];
        RtDown(rt, rt.seqno + 1);
      }
      DeletePrecursor(rt, id);
      assert rtable.routes == routes[rt.dst := rtable.routes[rt.dst]];
    }

    method DeletePrecursor(rt: RtEntry, id: Addr)
      requires rtable.Valid() && rt in rtable.spine
      modifies rtable`routes, rt`pclist
      ensures rtable.Valid() && rt.dst in old(rtable.routes)
      ensures rtable.routes == old(rtable.routes)[rt.dst :=
                old(rtable.routes)[rt.dst].(precursors := WithoutFirst(old(rtable.routes)[rt.dst].precursors, id))]
    {
      rtable.EntryOf(rt);
      rt.PcDelete(id);
      rtable.Commit(rt);
    }

    /** `handle_link_failure` */
    method HandleLinkFailure(id: Addr)
      requires Valid()
      modifies this`failed, this`out, rtable`routes, rtable.repr
      ensures Valid() && Abs() == Handlers.HandleLinkFailure(old(Abs()), id)
    {
      hide RTable.ValidBut, RQueue.Valid, AfterLinkFailure, PartlyFailed, ChecksUpTo, LostVia,
        TableAfterLinkFailure, LinkFailureChecks, Handlers.SendError;
      ghost var n := Abs();
      var re, rt := [], rtable.head;
      ghost var k := 0;
      rtable.Traverse(0);
      NothingFailed(n, id);
      while rt != null
        invariant Valid() && rt == rtable.At(k) && 0 <= k <= |n.order|
        invariant Abs() == n.(table := PartlyFailed(n, id, k), failed := failed)
        invariant re == LostVia(n.order[..k], n.table, id)
        invariant failed == (n.failed || !ChecksUpTo(n, id, k))
        decreases |n.order| - k
      {
        rtable.Traverse(k);
        OneMoreFailed(n, id, k);
        var more := LinkFailureEntry(rt, id);
        rtable.Traverse(k);
        re := re + more;
        rt, k := rt.next, k + 1;
      }
      rtable.Traverse(0);
      FailureComplete(n, id, k, Abs());
      SendError(re);
    }

    /** `nb_delete` */
    method NbDelete(id: Addr)
      requires Valid()
      modifies this`seqno, this`failed, this`out, rtable`routes, rtable.repr
      ensures Valid() && Abs() == Handlers.NbDelete(old(Abs()), id)
    {
      hide RTable.ValidBut, RQueue.Valid, Handlers.HandleLinkFailure;
      seqno := seqno + 2;
      Assert(Even(seqno));
      HandleLinkFailure(id);
    }

    /* ---------- data packets ---------- */

    /** `rt_resolve` */
    method RtResolve(pkt: Data, now: real)
      requires Valid()
      modifies this, rtable, rtable.repr, rqueue, rqueue.repr
      ensures Valid() && Grown() && Abs() == Handlers.RtResolve(old(Abs()), now, pkt)
    {
      hide RTable.ValidBut, RQueue.Valid, EnsureRoute, ForwardVia, Enqueue, Handlers.SendRequest, Handlers.SendError;
      var rt := EnsureEntry(pkt.dst);
      rtable.EntryOf(rt);
      if rt.flag == Up {
        Assert(rt.hops != INFINITY2);
        ForwardPacket(rt, pkt, now);
      } else if pkt.src == index {
        EnqueuePacket(pkt, now);
        SendRequest(rt.dst, now);
      } else if rt.flag == InRepair {
        EnqueuePacket(pkt, now);
      } else {
        RejectPacket(rt, pkt);
      }
    }

    /** The last branch of `rt_resolve`: an error and a drop. */
    method RejectPacket(rt: RtEntry, pkt: Data)
      requires Valid() && rt in rtable.spine && rt.dst in rtable.routes
      modifies this`out, this`failed
      ensures var r, lost := old(rtable.routes[rt.dst]), [Lost(rt.dst, old(rtable.routes[rt.dst]).seqno)];
              Abs() == Emit(Handlers.SendError(Check(old(Abs()), r.flag == Down), lost), Drop(pkt, NoRoute))
    {
      hide RTable.ValidBut, RQueue.Valid;
      rtable.EntryOf(rt);
      Assert(rt.flag == Down);
      SendError([Lost(rt.dst, rt.seqno)]);
      Do(Drop(pkt, NoRoute));
    }

    /** `recv` of a data packet. */
    method RecvData(pkt: Data, now: real)
      requires Valid()
      modifies this, rtable, rtable.repr, rqueue, rqueue.repr
      ensures Valid() && Grown() && Abs() == Handlers.RecvData(old(Abs()), now, pkt)
    {
      hide RTable.ValidBut, RQueue.Valid, Handlers.RtResolve, ForwardBroadcast;
      var p := pkt;
      if pkt.src == index && pkt.forwards == 0 {
        if pkt.dst != BROADCAST {
          p := p.(ttl := NETWORK_DIAMETER);
        }
      } else if pkt.src == index {
        Do(Drop(pkt, RouteLoop));
        return;
      } else {
        p := p.(ttl := p.ttl - 1);
        if p.ttl == 0 {
          Do(Drop(p, TtlExpired));
          return;
        }
      }
      if p.dst != BROADCAST {
        RtResolve(p, now);
      } else {
        BroadcastPacket(p);
      }
    }

    /** The turn of `rt_purge` for a route that has expired. */
    method ExpireEntry(rt: RtEntry, now: real)
      requires Valid() && rt in rtable.spine && rt.flag == Up && rt.expire < now
      modifies this, rtable`routes, rtable.repr, rqueue, rqueue.repr
      ensures Valid() && rqueue.repr == old(rqueue.repr) && rt.dst in old(Abs()).table
      ensures Abs() == PurgeEntry(old(Abs()), rt.dst, now)
    {
      hide RTable.ValidBut, RQueue.Valid, Drain, PurgeEntry, Downed;
      rtable.EntryOf(rt);
      ExpiredEntry(Abs(), rt.dst, now);
      Assert(rt.hops != INFINITY2);
      DrainPackets(rt, now, DropIt);
      rtable.EntryOf(rt);
      Assert(!Even(rt.seqno + 1));
      RtDown(rt, rt.seqno + 1);
    }

    /** One turn of the loop of `rt_purge`. */
    method RtPurgeEntry(rt: RtEntry, now: real)
      requires Valid() && rt in rtable.spine
      modifies this, rtable`routes, rtable.repr, rqueue, rqueue.repr
      ensures Valid() && rqueue.repr == old(rqueue.repr) && rt.dst in old(Abs()).table
      ensures Abs() == PurgeEntry(old(Abs()), rt.dst, now)
    {
      hide RTable.ValidBut, RQueue.Valid, Drain, Handlers.SendRequest, Downed;
      rtable.EntryOf(rt);
      if rt.flag == Up && rt.expire < now {
        ExpireEntry(rt, now);
      } else if rt.flag == Up {
        Assert(rt.hops != INFINITY2);
        DrainPackets(rt, now, ForwardIt);
      } else {
        var waiting := rqueue.Find(rt.dst);
        if waiting {
          SendRequest(rt.dst, now);
        }
      }
    }

    /** `rt_purge` */
    method RtPurge(now: real)
      requires Valid()
      modifies this, rtable`routes, rtable.repr, rqueue, rqueue.repr
      ensures Valid() && rqueue.repr == old(rqueue.repr)
      ensures Abs() == Handlers.RtPurge(old(Abs()), now)
    {
      hide RTable.ValidBut, RQueue.Valid, PurgeEntry, PurgeAll;
      ghost var n := Abs();
      var rt := rtable.head;
      ghost var k := 0;
      rtable.Traverse(0);
      assert n.order[0..] == n.order;
      while rt != null
        invariant Valid() && rqueue.repr == old(rqueue.repr) && rt == rtable.At(k) && 0 <= k <= |n.order|
        invariant rtable.order == n.order
        invariant PurgeAll(Abs(), n.order[k..], now) == PurgeAll(n, n.order, now)
        decreases |n.order| - k
      {
        rtable.Traverse(k);
        PurgeTurn(Abs(), n.order, k, now);
        RtPurgeEntry(rt, now);
        rtable.Traverse(k);
        rt, k := rt.next, k + 1;
      }
      rtable.Traverse(0);
      PurgeDone(Abs(), n.order, k, now);
    }

    /* ---------- link failures and local repair ---------- */

    /** `local_rt_repair`, without the timer event it schedules. */
    method LocalRtRepair(rt: RtEntry, pkt: Data, now: real)
      requires Valid() && rt in rtable.spine && rt.dst == pkt.dst
      modifies this, rtable`routes, rtable.repr, rqueue, rqueue.repr
      ensures Valid() && Grown() && pkt.dst in old(Abs()).table
      ensures Abs() == StartRepair(old(Abs()), now, pkt)
    {
      hide RTable.ValidBut, RQueue.Valid, Enqueue, Handlers.SendRequest;
      rtable.EntryOf(rt);
      EnqueuePacket(pkt, now);
      MarkInRepair(rt);
      SendRequest(rt.dst, now);
    }

    method MarkInRepair(rt: RtEntry)
      requires rtable.Valid() && rt in rtable.spine
      modifies rtable`routes, rt`flag
      ensures rtable.Valid() && rt.dst in old(rtable.routes)
      ensures rtable.routes == old(rtable.routes)[rt.dst := old(rtable.routes)[rt.dst].(flag := InRepair)]
    {
      rtable.EntryOf(rt);
      rt.flag := InRepair;
      rtable.Commit(rt);
    }

    /** `rt_ll_failed` for a data packet. */
    method RtLlFailed(pkt: Data, neighbor: Addr, now: real)
      requires Valid()
      modifies this, rtable, rtable.repr, rqueue, rqueue.repr
      ensures Valid() && Grown() && Abs() == LinkFailed(old(Abs()), now, pkt, neighbor)
    {
      hide RTable.ValidBut, RQueue.Valid, StartRepair, Handlers.NbDelete;
      if pkt.dst == BROADCAST {
        Do(Drop(pkt, MacCallback));
        return;
      }
      var rt := rtable.Lookup(pkt.dst);
      if rt == null {
        Do(Drop(pkt, MacCallback));
      } else if localRepair && pkt.forwards > rt.hops {
        LocalRtRepair(rt, pkt, now);
      } else {
        Do(Drop(pkt, MacCallback));
        NbDelete(neighbor);
      }
    }

    /** `LocalRepairTimer::handle` */
    method RepairTimeout(dst: Addr)
      requires Valid()
      modifies rtable`routes, rtable.repr
      ensures Valid() && Abs() == Handlers.RepairTimeout(old(Abs()), dst)
    {
      hide RTable.ValidBut, RQueue.Valid;
      var rt := rtable.Lookup(dst);
      if rt != null && rt.flag != Up {
        RtDown(rt, rt.seqno);
      }
    }

    /* ---------- dispatch ---------- */

    /** `recvAODV` */
    method RecvAodv(m: Message, now: real)
      requires Valid()
      modifies this, rtable, rtable.repr, rqueue, rqueue.repr
      ensures Valid() && Grown() && Abs() == Handlers.RecvAodv(old(Abs()), now, m)
    {
      hide RTable.ValidBut, RQueue.Valid, Handlers.RecvRequest, Handlers.RecvReply, Handlers.RecvError;
      match m
      case Rreq(rq) => RecvRequest(rq.(ttl := rq.ttl - 1), now);
      case Rrep(rp) => RecvReply(rp.(ttl := rp.ttl - 1), now);
      case Rerr(re) => RecvError(re);
    }

    /** Whatever happens to the agent, it computes `Handle`. */
    method React(input: Input, now: real)
      requires Valid()
      modifies this, rtable, rtable.repr, rqueue, rqueue.repr
      ensures Valid() && Grown() && Abs() == Handle(old(Abs()), now, input)
    {
      hide RTable.ValidBut, RQueue.Valid, Handlers.RecvAodv, Handlers.RecvData, LinkFailed, Handlers.RtPurge,
        Handlers.IdPurge, Handlers.RepairTimeout;
      match input
      case Hear(m) => RecvAodv(m, now);
      case Packet(pkt) => RecvData(pkt, now);
      case LinkDown(pkt, neighbor) => RtLlFailed(pkt, neighbor, now);
      case RouteTimer => RtPurge(now);
      case CacheTimer => IdPurge(now);
      case RepairTimer(dst) => RepairTimeout(dst);
    }
  }

  /** The table when the first `k` entries have been visited. */
  ghost function PartlyFailed(n: Node, id: Addr, k: nat): map<Addr, Route>
    requires k <= |n.order|
  {
    map d | d in n.table :: if d in n.order[..k] then AfterLinkFailure(n.table[d], id) else n.table[d]
  }

  ghost predicate ChecksUpTo(n: Node, id: Addr, k: nat)
    requires k <= |n.order|
  {
    forall d :: d in n.order[..k] && d in n.table && RoutedVia(n.table[d], id) ==>
      n.table[d].flag == Up && Even(n.table[d].seqno)
  }

  lemma NothingFailed(n: Node, id: Addr)
    ensures PartlyFailed(n, id, 0) == n.table && ChecksUpTo(n, id, 0) && LostVia(n.order[..0], n.table, id) == []
  {
  }

  /** What `rt_purge` makes of an expired entry. */
  lemma ExpiredEntry(n: Node, d: Addr, now: real)
    requires d in n.table && n.table[d].flag == Up && n.table[d].expire < now
    ensures var n1 := Drain(Check(n, Usable(n.table[d])), d, now, DropIt);
            var s := n1.table[d].seqno + 1;
            PurgeEntry(n, d, now) == SetRoute(Check(n1, !Even(s)), d, Downed(n1.table[d].(seqno := s)))
  {
    hide Drain, Downed;
  }

  /** One turn of the loop of `rt_purge`. */
  lemma PurgeTurn(n: Node, order: seq<Addr>, k: nat, now: real)
    requires k < |order| && order[k] in n.table
    ensures PurgeAll(n, order[k..], now) == PurgeAll(PurgeEntry(n, order[k], now), order[k + 1..], now)
  {
    hide PurgeEntry;
    assert order[k..][1..] == order[k + 1..];
  }

  lemma PurgeDone(n: Node, order: seq<Addr>, k: nat, now: real)
    requires k == |order|
    ensures PurgeAll(n, order[k..], now) == n
  {
  }

  /** What one turn of the loop of `handle_link_failure` adds. */
  lemma OneMoreFailed(n: Node, id: Addr, k: nat)
    requires NoDuplicates(n.order) && k < |n.order| && n.order[k] in n.table
    ensures var d := n.order[k];
            var r := n.table[d];
            && d in PartlyFailed(n, id, k) && PartlyFailed(n, id, k)[d] == r
            && PartlyFailed(n, id, k + 1) == PartlyFailed(n, id, k)[d := AfterLinkFailure(r, id)]
            && (ChecksUpTo(n, id, k + 1) <==>
                ChecksUpTo(n, id, k) && (RoutedVia(r, id) ==> r.flag == Up && Even(r.seqno)))
            && LostVia(n.order[..k + 1], n.table, id)
               == LostVia(n.order[..k], n.table, id) + if RoutedVia(r, id) then [Lost(d, r.seqno + 1)] else []
  {
    hide AfterLinkFailure, LostVia;
    var d, pre := n.order[k], n.order[..k];
    assert n.order[..k + 1] == pre + [d] && d !in pre;
    OneMoreLost(n, id, k);
    assert PartlyFailed(n, id, k + 1) == PartlyFailed(n, id, k)[d := AfterLinkFailure(n.table[d], id)];
  }

  lemma OneMoreLost(n: Node, id: Addr, k: nat)
    requires k < |n.order| && n.order[k] in n.table
    ensures var d := n.order[k];
            var r := n.table[d];
            LostVia(n.order[..k + 1], n.table, id)
            == LostVia(n.order[..k], n.table, id) + if RoutedVia(r, id) then [Lost(d, r.seqno + 1)] else []
  {
    assert n.order[..k + 1][..k] == n.order[..k];
  }

  /** When the loop ends it has computed what `handle_link_failure` does to the table. */
  lemma FailureComplete(n: Node, id: Addr, k: nat, b: Node)
    requires k == |n.order| && forall d :: d in n.table <==> d in n.order
    requires b == n.(table := PartlyFailed(n, id, k), failed := n.failed || !ChecksUpTo(n, id, k))
    ensures b == Check(n.(table := TableAfterLinkFailure(n.table, id)), LinkFailureChecks(n, id))
    ensures LostVia(n.order[..k], n.table, id) == LostVia(n.order, n.table, id)
  {
    hide PartlyFailed, ChecksUpTo, TableAfterLinkFailure, LinkFailureChecks, LostVia;
    AllFailed(n, id);
  }

  lemma AllFailed(n: Node, id: Addr)
    requires forall d :: d in n.table <==> d in n.order
    ensures PartlyFailed(n, id, |n.order|) == TableAfterLinkFailure(n.table, id)
    ensures ChecksUpTo(n, id, |n.order|) <==> LinkFailureChecks(n, id)
    ensures n.order[..|n.order|] == n.order
  {
    var k := |n.order|;
    assert n.order[..k] == n.order;
    forall d | d in n.table ensures PartlyFailed(n, id, k)[d] == TableAfterLinkFailure(n.table, id)[d] {
      assert d in n.order[..k];
    }
    assert PartlyFailed(n, id, k) == TableAfterLinkFailure(n.table, id);
    forall d | d in n.table && RoutedVia(n.table[d], id) && ChecksUpTo(n, id, k)
      ensures n.table[d].flag == Up && Even(n.table[d].seqno)
    {
      assert d in n.order[..k];
    }
  }
}
