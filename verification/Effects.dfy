/** What the building blocks of the handlers do, in closed form: drain loops, packets put into the
    buffer, and requests for a route. The results on single operations are built from these. */
module Effects {
  import opened Types
  import opened RouteTable
  import opened SendBuffer
  import opened Handlers
  import opened LocalSteps
  import opened Ledger

  /* ---------- drain loops ---------- */

  /** The unexpired packets that wait for `d`, oldest first. */
  function Waiting(n: Node, d: Addr, now: real): seq<Data> { PacketsFor(Live(n.buffer, now), d) }

  /** Forwarding sends this packet to the next hop: it has time to live left and is not for this node. */
  predicate Leaves(id: Addr, pkt: Data) {
    pkt.ttl != 0 && pkt.dst != id && !(pkt.up && pkt.dst == BROADCAST)
  }

  predicate AnyLeaves(id: Addr, pkts: seq<Data>) { exists k :: 0 <= k < |pkts| && Leaves(id, pkts[k]) }

  /** The entry of a route along which `pkts` are forwarded: using it renews it. */
  function UsedFor(r: Route, id: Addr, pkts: seq<Data>, now: real): Route {
    if AnyLeaves(id, pkts) then r.(expire := now + ACTIVE_ROUTE_TIMEOUT) else r
  }

  lemma UsedKeepsRoute(r: Route, id: Addr, pkts: seq<Data>, now: real)
    ensures SameRoute(r, UsedFor(r, id, pkts, now))
  {
  }

  lemma UsedForOneMore(r: Route, id: Addr, p: Data, rest: seq<Data>, now: real)
    ensures UsedFor(r, id, [p] + rest, now)
         == UsedFor(if Leaves(id, p) then r.(expire := now + ACTIVE_ROUTE_TIMEOUT) else r, id, rest, now)
  {
    assert ([p] + rest)[0] == p;
    assert forall k :: 0 <= k < |rest| ==> ([p] + rest)[k + 1] == rest[k];
    assert forall k :: 0 < k < |[p] + rest| ==> ([p] + rest)[k] == rest[k - 1];
  }

  lemma DisposeTable(n: Node, d: Addr, pkt: Data, now: real, how: Disposal)
    requires d in n.table
    ensures Dispose(n, d, pkt, now, how).table
         == n.table[d := if how.ForwardIt? && Leaves(n.id, pkt)
                         then n.table[d].(expire := now + ACTIVE_ROUTE_TIMEOUT) else n.table[d]]
  {
  }

  lemma {:induction false} DrainTable(n: Node, d: Addr, now: real, how: Disposal)
    requires d in n.table
    ensures Drain(n, d, now, how).table
         == n.table[d := if how.ForwardIt? then UsedFor(n.table[d], n.id, Waiting(n, d, now), now) else n.table[d]]
    decreases |n.buffer|
  {
    hide Deque, Dispose, Live, Aged, PacketsFor, PacketsNotFor, Outcome, UsedFor;
    var (n1, p) := Deque(n, d, now);
    if p.None? {
      NoneTaken(n, d, now);
      assert UsedFor(n.table[d], n.id, [], now) == n.table[d] by {
        NobodyLeaves(n.table[d], n.id, now);
      }
    } else {
      var n2 := Dispose(n1, d, p.value, now, how);
      TakingOne(n, d, now, how);
      DisposeTable(n1, d, p.value, now, how);
      DrainTable(n2, d, now, how);
      UsedForOneMore(n.table[d], n.id, p.value, Waiting(n2, d, now), now);
    }
  }

  lemma NobodyLeaves(r: Route, id: Addr, now: real)
    ensures UsedFor(r, id, [], now) == r
  {
  }

  /** What the assertions on the way of forwarded packets demand: packets are forwarded only along a route
      that is up and usable, and never to the broadcast address. */
  predicate MayForward(r: Route, id: Addr, d: Addr, pkts: seq<Data>) {
    (pkts != [] ==> r.flag == Up && r.hops != 255) && (AnyLeaves(id, pkts) ==> d != BROADCAST)
  }

  lemma MayForwardOneMore(r: Route, id: Addr, d: Addr, p: Data, rest: seq<Data>)
    ensures MayForward(r, id, d, [p] + rest) <==>
            r.flag == Up && r.hops != 255 && (Leaves(id, p) ==> d != BROADCAST) && MayForward(r, id, d, rest)
  {
    assert ([p] + rest)[0] == p;
    assert forall k :: 0 <= k < |rest| ==> ([p] + rest)[k + 1] == rest[k];
    assert forall k :: 0 < k < |[p] + rest| ==> ([p] + rest)[k] == rest[k - 1];
  }

  lemma DisposeFailed(n: Node, d: Addr, pkt: Data, now: real, how: Disposal)
    requires d in n.table && pkt.dst == d
    ensures Dispose(n, d, pkt, now, how).failed ==
            (n.failed || (how.ForwardIt? && !(n.table[d].flag == Up && n.table[d].hops != 255
                                              && (Leaves(n.id, pkt) ==> d != BROADCAST))))
  {
  }

  lemma {:induction false} DrainFailed(n: Node, d: Addr, now: real, how: Disposal)
    requires d in n.table
    ensures Drain(n, d, now, how).failed ==
            (n.failed || (how.ForwardIt? && !MayForward(n.table[d], n.id, d, Waiting(n, d, now))))
    decreases |n.buffer|
  {
    hide Dispose, Live, Aged, PacketsFor, PacketsNotFor, Outcome, MayForward, FirstFor, Without;
    var (n1, p) := Deque(n, d, now);
    if p.None? {
      NoneTaken(n, d, now);
      NothingToCheck(n.table[d], n.id, d);
    } else {
      var n2 := Dispose(n1, d, p.value, now, how);
      TakingOne(n, d, now, how);
      DisposeTable(n1, d, p.value, now, how);
      DisposeFailed(n1, d, p.value, now, how);
      DrainFailed(n2, d, now, how);
      MayForwardOneMore(n.table[d], n.id, d, p.value, Waiting(n2, d, now));
      SameChecks(n.table[d], n2.table[d], n.id, d, Waiting(n2, d, now));
    }
  }

  lemma NothingToCheck(r: Route, id: Addr, d: Addr)
    ensures MayForward(r, id, d, [])
  {
  }

  lemma SameChecks(r: Route, r': Route, id: Addr, d: Addr, pkts: seq<Data>)
    requires r'.flag == r.flag && r'.hops == r.hops
    ensures MayForward(r, id, d, pkts) <==> MayForward(r', id, d, pkts)
  {
  }

  /** `n'` is `n` after the packets for `d` were disposed of. */
  ghost predicate DrainedInto(n: Node, n': Node, d: Addr, now: real, how: Disposal)
    requires d in n.table
  {
    var r := n.table[d];
    var pkts := Waiting(n, d, now);
    n' == n.(table := n.table[d := if how.ForwardIt? then UsedFor(r, n.id, pkts, now) else r],
             buffer := PacketsNotFor(Live(n.buffer, now), d), aged := n.aged + Aged(n.buffer, now),
             out := n.out + Outcomes(n.id, r.nexthop, pkts, how),
             failed := n.failed || (how.ForwardIt? && !MayForward(r, n.id, d, pkts)))
  }

  /** A drain loop in closed form. */
  lemma DrainCloses(n: Node, d: Addr, now: real, how: Disposal)
    requires d in n.table
    ensures DrainedInto(n, Drain(n, d, now, how), d, now, how)
  {
    hide Drain, Live, Aged, PacketsFor, PacketsNotFor, Outcomes, UsedFor, MayForward;
    DrainExact(n, d, now, how);
    DrainFailed(n, d, now, how);
    DrainTable(n, d, now, how);
    DrainSilent(n, d, now, how);
  }

  /* ---------- packets put into the buffer ---------- */

  /** `n'` is `n` with `pkt` as the last packet of the purged buffer, for 30 seconds. A full buffer lost
      its oldest packet to it. */
  ghost predicate BufferedInto(n: Node, n': Node, pkt: Data, now: real) {
    var live := Live(n.buffer, now);
    var full := |live| == 64;
    n' == n.(buffer := (if full then live[1..] else live) + [Queued(pkt, now + 30.0)],
             aged := n.aged + Aged(n.buffer, now),
             out := n.out + if full
                            then [Drop(live[0].pkt, if live[0].deadline > now then QueueFull else QueueTimeout)]
                            else [])
  }

  lemma EnqueueCloses(n: Node, pkt: Data, now: real)
    ensures BufferedInto(n, Enqueue(n, pkt, now), pkt, now)
  {
    hide Live, Aged;
    assert n.out + [] == n.out;
  }

  /* ---------- requests for a route ---------- */

  /** The time to live of a request: rings that grow by 2 up to 7, then the whole network. */
  function NextTtl(last: nat): nat { if last == 0 then 5 else if last < 7 then last + 2 else 30 }

  function MinReal(a: real, b: real): real { if a < b then a else b }

  /** How long to wait for an answer: twice the time the request may take, longer with each
      network-wide attempt, and at most 10 seconds. */
  function Patience(ttl: nat, attempts: nat, hopTime: real): real {
    MinReal(2.0 * ttl as real * hopTime * Max(1, attempts) as real, 10.0)
  }

  /** The entry after a request with time to live `ttl`. */
  function AskedEntry(r: Route, now: real): Route {
    var last := Max(r.reqLastTtl, r.lastHops);
    var attempts := if last >= 7 then r.reqCnt + 1 else r.reqCnt;
    r.(reqLastTtl := NextTtl(last), reqCnt := attempts, expire := 0.0,
       reqTimeout := now + Patience(NextTtl(last), attempts, PerHopTime(r.history)))
  }

  /** `n'` is `n` after an attempt to ask for a route to `d`: it is too early, or the agent gives up and
      drops what waits for `d`, or it sends one request. */
  ghost predicate AskedInto(n: Node, n': Node, d: Addr, now: real)
    requires d in n.table
  {
    var r := n.table[d];
    if r.reqTimeout > now then n' == n
    else if r.reqCnt > 3 then
      n' == n.(table := n.table[d := r.(reqTimeout := now + 10.0, reqCnt := 0)],
               buffer := PacketsNotFor(Live(n.buffer, now), d), aged := n.aged + Aged(n.buffer, now),
               out := n.out + Outcomes(n.id, r.nexthop, Waiting(n, d, now), DropIt))
    else
      n' == n.(table := n.table[d := AskedEntry(r, now)], bid := n.bid + 1, seqno := n.seqno + 2,
               out := n.out + [Transmit(BROADCAST,
                                        Rreq(Request(n.id, NextTtl(Max(r.reqLastTtl, r.lastHops)), 1, n.bid, d, r.seqno,
                                                     n.id, n.seqno + 2, now)))],
               failed := n.failed || !Even(n.seqno + 2))
  }

  lemma AskedIsAskedEntry(r: Route, now: real)
    ensures Asked(r, now) == AskedEntry(r, now) && AskTtl(r) == NextTtl(Max(r.reqLastTtl, r.lastHops))
  {
    hide PerHopTime;
    var last := Max(r.reqLastTtl, r.lastHops);
    var span := 2.0 * AskTtl(r) as real * PerHopTime(r.history);
    assert span * 1.0 == span;
  }

  /** `sendRequest` in closed form. */
  lemma SendRequestCloses(n: Node, d: Addr, now: real)
    requires d in n.table && n.table[d].flag != Up
    ensures AskedInto(n, SendRequest(n, d, now), d, now)
  {
    hide Drain, Live, Aged, PacketsFor, PacketsNotFor, Outcomes, AskedEntry, Asked, AskTtl;
    var r := n.table[d];
    AskedIsAskedEntry(r, now);
    if AskDecision(r, now) == GiveUp {
      var n1 := SetRoute(n, d, GivenUp(r, now));
      DrainCloses(n1, d, now, DropIt);
      assert n1.table[d := n1.table[d]] == n1.table;
    }
  }

  /** The estimate of the time per hop is the average of the positive latencies on record, or
      NODE_TRAVERSAL_TIME if there is none. */
  lemma PerHopTimeIsAverage(h: History)
    ensures var s := h.slots;
            var sum := MaxReal(s[0], 0.0) + MaxReal(s[1], 0.0) + MaxReal(s[2], 0.0);
            var count := (if s[0] > 0.0 then 1.0 else 0.0) + (if s[1] > 0.0 then 1.0 else 0.0)
                         + (if s[2] > 0.0 then 1.0 else 0.0);
            if count == 0.0 then PerHopTime(h) == 0.03 else PerHopTime(h) * count == sum
  {
    var s := h.slots;
    assert s[..2][..1] == s[..1] && s[..1][..0] == [] && s[..2] == s[..|s| - 1];
    assert PositiveSum(s[..1]) == MaxReal(s[0], 0.0) && PositiveSum(s[..2]) == MaxReal(s[0], 0.0) + MaxReal(s[1], 0.0);
    assert PositiveCount(s[..1]) == if s[0] > 0.0 then 1 else 0;
    assert PositiveCount(s[..2]) == PositiveCount(s[..1]) + if s[1] > 0.0 then 1 else 0;
    assert PositiveCount(s) == PositiveCount(s[..2]) + if s[2] > 0.0 then 1 else 0;
  }
}
