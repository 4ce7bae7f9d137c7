/** The handlers of the routing agent as functions on the state of one node.
    Assertions of the source about routes and numbers are evaluated, not assumed: one that is false
    sets `failed`. Those about pointers and list links are assertions of the linked classes. */
module Handlers {
  import opened Types
  import opened RouteTable
  import opened SendBuffer

  /** The state of one agent. `order` lists the destinations of `table` in list order; `aged`
      collects the packets that the buffer unlinked without dropping them; `out` collects the
      effects; `localRepair` says whether the agent is built with AODV_LOCAL_REPAIR. */
  datatype Node = Node(
    id: Addr, localRepair: bool, seqno: nat, bid: nat,
    order: seq<Addr>, table: map<Addr, Route>, cache: seq<CacheEntry>,
    buffer: seq<Queued>, aged: seq<Data>, out: seq<Effect>, failed: bool)

  /** The constructor. */
  function NewNode(id: Addr, localRepair: bool): Node {
    Node(id, localRepair, 2, 1, [], map[], [], [], [], [], false)
  }

  /** `assert(ok)` */
  function Check(n: Node, ok: bool): Node { n.(failed := n.failed || !ok) }

  function Emit(n: Node, e: Effect): Node { n.(out := n.out + [e]) }

  function SetRoute(n: Node, d: Addr, r: Route): Node { n.(table := n.table[d := r]) }

  function EnsureRoute(n: Node, d: Addr): Node {
    if d in n.table then n
    else n.(order := [d] + n.order, table := n.table[d := FRESH_ROUTE])
  }

  function AddPrecursor(n: Node, d: Addr, id: Addr): Node
    requires d in n.table
  {
    SetRoute(n, d, n.table[d].(precursors := WithPrecursor(n.table[d].precursors, id)))
  }

  /* ---------- broadcast-id cache ---------- */

  /** `id_lookup` */
  predicate InCache(c: seq<CacheEntry>, src: Addr, bid: nat) {
    exists k :: 0 <= k < |c| && c[k].src == src && c[k].bid == bid
  }

  /** `id_insert` */
  function CacheInsert(n: Node, src: Addr, bid: nat, now: real): Node {
    n.(cache := [CacheEntry(src, bid, now + BCAST_ID_SAVE)] + n.cache)
  }

  function Unexpired(c: seq<CacheEntry>, now: real): seq<CacheEntry> {
    if c == [] then [] else Unexpired(c[..|c| - 1], now) + if c[|c| - 1].expire <= now then [] else [c[|c| - 1]]
  }

  /** `id_purge` */
  function IdPurge(n: Node, now: real): Node { n.(cache := Unexpired(n.cache, now)) }

  /* ---------- buffer and data packets ---------- */

  /** `rqueue.enque` */
  function Enqueue(n: Node, pkt: Data, now: real): Node {
    var live := Live(n.buffer, now);
    var n1 := n.(buffer := Appended(live, pkt, now), aged := n.aged + Aged(n.buffer, now));
    match Victim(live, now)
    case Some(e) => Emit(n1, e)
    case None => n1
  }

  /** `rqueue.deque(dst)` */
  function Deque(n: Node, dst: Addr, now: real): (r: (Node, Option<Data>))
    ensures r.0 == n.(buffer := r.0.buffer, aged := r.0.aged) && |r.0.buffer| <= |n.buffer|
    ensures r.1.Some? ==> |r.0.buffer| < |n.buffer| && r.1.value.dst == dst
  {
    LiveIsLive(n.buffer, now);
    var live := Live(n.buffer, now);
    var n1 := n.(buffer := live, aged := n.aged + Aged(n.buffer, now));
    var k := FirstFor(live, dst);
    if k == |live| then (n1, None)
    else (n1.(buffer := Without(live, k)), Some(live[k].pkt))
  }

  predicate HasPacketFor(q: seq<Queued>, dst: Addr) {
    exists i :: 0 <= i < |q| && q[i].pkt.dst == dst
  }

  /** The first two exits of `forward`: time to live used up, or the packet is for this node. */
  function ForwardExit(n: Node, pkt: Data): Option<Effect> {
    if pkt.ttl == 0 then Some(Drop(pkt, TtlExpired))
    else if (pkt.up && pkt.dst == BROADCAST) || pkt.dst == n.id then Some(Effect.Deliver(pkt))
    else None
  }

  /** `forward` of a data packet along the route for `d`. */
  function ForwardVia(n: Node, d: Addr, pkt: Data, now: real): Node
    requires d in n.table
  {
    match ForwardExit(n, pkt)
    case Some(e) => Emit(n, e)
    case None =>
      var r := n.table[d];
      var n1 := Check(n, r.flag == Up && pkt.dst != BROADCAST);
      var n2 := SetRoute(n1, d, r.(expire := now + ACTIVE_ROUTE_TIMEOUT));
      Emit(n2, Forward(r.nexthop, pkt.(up := false)))
  }

  /** `forward` of a data packet without a route: a broadcast. */
  function ForwardBroadcast(n: Node, pkt: Data): Node {
    match ForwardExit(n, pkt)
    case Some(e) => Emit(n, e)
    case None => Emit(Check(n, pkt.dst == BROADCAST), Forward(BROADCAST, pkt.(up := false)))
  }

  /** What a drain loop does with a packet it took: forward it, drop it, or let go of it. */
  datatype Disposal = ForwardIt | DropIt | LoseIt

  function Dispose(n: Node, d: Addr, pkt: Data, now: real, how: Disposal): (r: Node)
    requires d in n.table
    ensures r.buffer == n.buffer && r.aged == n.aged && r.table.Keys == n.table.Keys
  {
    match how
    case ForwardIt =>
      ForwardVia(Check(n, n.table[d].flag == Up && Usable(n.table[d])), d, pkt, now)
    case DropIt => Emit(n, Drop(pkt, NoRoute))
    case LoseIt => n
  }

  /** `while ((p = rqueue.deque(d))) ...` */
  function Drain(n: Node, d: Addr, now: real, how: Disposal): (r: Node)
    requires d in n.table
    ensures r.table.Keys == n.table.Keys
    decreases |n.buffer|
  {
    var (n1, p) := Deque(n, d, now);
    match p
    case None => n1
    case Some(pkt) => Drain(Dispose(n1, d, pkt, now, how), d, now, how)
  }

  /* ---------- route requests ---------- */

  function LastRing(r: Route): nat { Max(r.reqLastTtl, r.lastHops) }

  /** The time to live of the next request: expanding rings, then network-wide. */
  function AskTtl(r: Route): nat {
    if LastRing(r) == 0 then TTL_START
    else if LastRing(r) < TTL_THRESHOLD then LastRing(r) + TTL_INCREMENT
    else NETWORK_DIAMETER
  }

  function AskCount(r: Route): nat {
    if LastRing(r) >= TTL_THRESHOLD then r.reqCnt + 1 else r.reqCnt
  }

  function AskTimeout(r: Route, now: real): real {
    var span := 2.0 * AskTtl(r) as real * PerHopTime(r.history);
    var scaled := (if AskCount(r) > 0 then span * AskCount(r) as real else span) + now;
    if scaled > now + MAX_RREQ_TIMEOUT then now + MAX_RREQ_TIMEOUT else scaled
  }

  datatype AskOutcome = Quiet | GiveUp | Ask

  /** Which of the exits `sendRequest` takes. */
  function AskDecision(r: Route, now: real): AskOutcome {
    if r.flag == Up || r.reqTimeout > now then AskOutcome.Quiet
    else if r.reqCnt > RREQ_RETRIES then GiveUp
    else Ask
  }

  function Asked(r: Route, now: real): Route {
    r.(reqLastTtl := AskTtl(r), reqCnt := AskCount(r), reqTimeout := AskTimeout(r, now), expire := 0.0)
  }

  function GivenUp(r: Route, now: real): Route {
    r.(reqTimeout := now + MAX_RREQ_TIMEOUT, reqCnt := 0)
  }

  /** `sendRequest` */
  function SendRequest(n: Node, dst: Addr, now: real): (r: Node)
    requires dst in n.table
    ensures r.table.Keys == n.table.Keys
  {
    var r := n.table[dst];
    match AskDecision(r, now)
    case Quiet => Check(n, r.flag == Up ==> Usable(r))
    case GiveUp => Drain(SetRoute(n, dst, GivenUp(r, now)), dst, now, DropIt)
    case Ask =>
      var n1 := SetRoute(n, dst, Asked(r, now)).(bid := n.bid + 1, seqno := n.seqno + 2);
      Emit(Check(n1, Even(n1.seqno)),
           Transmit(BROADCAST, Rreq(Request(n.id, AskTtl(r), 1, n.bid, dst, r.seqno, n.id, n1.seqno, now))))
  }

  /** `sendReply` */
  function SendReply(n: Node, to: Addr, hops: nat, dst: Addr, dstSeqno: nat, lifetime: real, stamp: real): Node
    requires to in n.table
  {
    Emit(n, Transmit(n.table[to].nexthop,
                     Rrep(Reply(n.id, NETWORK_DIAMETER, Byte(hops), to, dst, dstSeqno, lifetime, stamp))))
  }

  /** The entry for the source of a request after the reverse-route update. */
  function ReverseEntry(r0: Route, now: real, m: Request): Route {
    var r := r0.(expire := MaxReal(r0.expire, now + REV_ROUTE_LIFE));
    if Better(m.srcSeqno, m.hops, r) then
      var r1 := Updated(r, m.srcSeqno, m.hops, m.from, MaxReal(r.expire, now + REV_ROUTE_LIFE));
      if r1.reqTimeout > 0.0
      then r1.(reqCnt := 0, reqTimeout := 0.0, reqLastTtl := m.hops, expire := now + ACTIVE_ROUTE_TIMEOUT)
      else r1
    else r
  }

  /** The reverse-route half of `recvRequest`. */
  function ReverseRoute(n: Node, now: real, m: Request): (r: Node)
    requires m.src in n.table
    ensures r.table.Keys == n.table.Keys
  {
    var r := n.table[m.src];
    var n1 := SetRoute(n, m.src, ReverseEntry(r, now, m));
    if Better(m.srcSeqno, m.hops, r)
    then Drain(Check(n1, n1.table[m.src].flag == Up), m.src, now, ForwardIt)
    else n1
  }

  /** The number a destination answers with: above its own and the requested one, and even. */
  function ReplySeqno(own: nat, requested: nat): nat {
    var s := Max(own, requested) + 1;
    if Even(s) then s else s + 1
  }

  /** The relay branch of `recvRequest`, through `forward`. */
  function RelayRequest(n: Node, m: Request): Node
  {
    var m1 := m.(from := n.id, hops := Byte(m.hops + 1),
                 dstSeqno := if m.dst in n.table then Max(n.table[m.dst].seqno, m.dstSeqno) else m.dstSeqno);
    Emit(n, if m.ttl == 0 then Discard(Rreq(m1), TtlExpired) else Transmit(BROADCAST, Rreq(m1)))
  }

  /** The second half of `recvRequest`: reply as the destination, reply from the table, or relay. */
  function AnswerRequest(n: Node, now: real, m: Request): Node
    requires m.src in n.table
  {
    if m.dst == n.id then
      var s := ReplySeqno(n.seqno, m.dstSeqno);
      SendReply(n.(seqno := s), m.src, 1, n.id, s, MY_ROUTE_TIMEOUT, m.stamp)
    else if m.dst in n.table && Usable(n.table[m.dst]) && n.table[m.dst].seqno >= m.dstSeqno then
      var r := n.table[m.dst];
      var n1 := SendReply(n, m.src, r.hops + 1, m.dst, r.seqno, Whole(r.expire - now), m.stamp);
      AddPrecursor(AddPrecursor(n1, m.dst, n.table[m.src].nexthop), m.src, r.nexthop)
    else
      RelayRequest(n, m)
  }

  /** `recvRequest` */
  function RecvRequest(n: Node, now: real, m: Request): Node
  {
    if m.src == n.id || InCache(n.cache, m.src, m.bid) then n
    else
      var n1 := EnsureRoute(CacheInsert(n, m.src, m.bid, now), m.src);
      AnswerRequest(ReverseRoute(n1, now, m), now, m)
  }

  /* ---------- route replies ---------- */

  /** The latency sample of a reply. A zero hop count would be a division by zero in the source;
      no reply has one as long as nobody accepts a reply with a wrapped hop count. */
  function Latency(now: real, m: Reply): real
  {
    if m.hops == 0 then 0.0 else (now - m.stamp) / m.hops as real
  }

  /** The entry for the destination of a reply that is accepted. */
  function ForwardEntry(r0: Route, id: Addr, now: real, m: Reply): Route {
    var r := Updated(r0, m.dstSeqno, m.hops, m.from, now + m.lifetime)
             .(reqCnt := 0, reqTimeout := 0.0, reqLastTtl := m.hops);
    if m.to == id then r.(history := Recorded(r.history, Latency(now, m))) else r
  }

  /** What the drain loop of `recvReply` does with the packets it takes. */
  function ReplyDisposal(m: Reply): Disposal {
    if m.hops != INFINITY2 then ForwardIt else LoseIt
  }

  /** The forward-route half of `recvReply`, when the reply is accepted. */
  function ForwardRoute(n: Node, now: real, m: Reply): (r: Node)
    requires m.dst in n.table
    ensures r.table.Keys == n.table.Keys
  {
    Drain(SetRoute(n, m.dst, ForwardEntry(n.table[m.dst], n.id, now, m)), m.dst, now, ReplyDisposal(m))
  }

  /** The relay branch of `recvReply`, through `forward`. */
  function RelayReply(n: Node, now: real, m: Reply): Node
    requires m.dst in n.table
  {
    if m.to in n.table && Usable(n.table[m.to]) then
      var r := n.table[m.to];
      var m1 := m.(hops := Byte(m.hops + 1), from := n.id);
      var n1 := Check(n, r.flag == Up);
      var n2 := if m.ttl == 0 then Emit(n1, Discard(Rrep(m1), TtlExpired))
                else Emit(SetRoute(Check(n1, m.to != BROADCAST), m.to, r.(expire := now + ACTIVE_ROUTE_TIMEOUT)),
                          Transmit(r.nexthop, Rrep(m1)));
      AddPrecursor(n2, m.dst, r.nexthop)
    else
      Emit(n, Discard(Rrep(m), NoRoute))
  }

  /** `recvReply` */
  function RecvReply(n: Node, now: real, m: Reply): Node
  {
    var n1 := EnsureRoute(n, m.dst);
    if Better(m.dstSeqno, m.hops, n1.table[m.dst]) then
      var n2 := ForwardRoute(n1, now, m);
      if m.to == n.id then n2 else RelayReply(n2, now, m)
    else n1
  }

  /* ---------- route errors ---------- */

  /** The test of `recvError` on one listed destination. */
  predicate Breaks(n: Node, from: Addr, l: Lost) {
    l.dst in n.table && RoutedVia(n.table[l.dst], from) && n.table[l.dst].seqno <= l.seqno
  }

  /** One turn of the loop of `recvError`: the new state and what is added to the next error. */
  function ErrorEntry(n: Node, from: Addr, l: Lost): (Node, seq<Lost>) {
    if Breaks(n, from, l) then
      var r := n.table[l.dst];
      var n1 := Check(n, r.flag == Up && Even(r.seqno));
      var r1 := Downed(r.(seqno := l.seqno));
      if r1.precursors == [] then (SetRoute(n1, l.dst, r1), [])
      else (SetRoute(n1, l.dst, r1.(precursors := [])), [l])
    else (n, [])
  }

  function ErrorScan(n: Node, from: Addr, lost: seq<Lost>): (Node, seq<Lost>) {
    if lost == [] then (n, [])
    else
      var (n1, acc) := ErrorScan(n, from, lost[..|lost| - 1]);
      var (n2, more) := ErrorEntry(n1, from, lost[|lost| - 1]);
      (n2, acc + more)
  }

  /** `sendError`, when there is something to report. */
  function SendError(n: Node, lost: seq<Lost>): Node {
    if lost == [] then n else Emit(n, Transmit(BROADCAST, Rerr(RouteError(n.id, lost))))
  }

  /** `recvError` */
  function RecvError(n: Node, m: RouteError): Node
  {
    var (n1, lost) := ErrorScan(n, m.from, m.lost);
    SendError(n1, lost)
  }

  /** The destinations of `order` routed via `id`, with their raised sequence numbers. */
  function LostVia(order: seq<Addr>, table: map<Addr, Route>, id: Addr): seq<Lost> {
    if order == [] then []
    else
      var d := order[|order| - 1];
      LostVia(order[..|order| - 1], table, id) +
      if d in table && RoutedVia(table[d], id) then [Lost(d, table[d].seqno + 1)] else []
  }

  /** The two assertions of `handle_link_failure`, over the whole table. */
  predicate LinkFailureChecks(n: Node, id: Addr) {
    forall d :: d in n.table && RoutedVia(n.table[d], id) ==> n.table[d].flag == Up && Even(n.table[d].seqno)
  }

  function TableAfterLinkFailure(table: map<Addr, Route>, id: Addr): map<Addr, Route> {
    map d | d in table :: AfterLinkFailure(table[d], id)
  }

  /** `handle_link_failure` */
  function HandleLinkFailure(n: Node, id: Addr): Node {
    SendError(
      Check(n.(table := TableAfterLinkFailure(n.table, id)), LinkFailureChecks(n, id)),
      LostVia(n.order, n.table, id))
  }

  /** `nb_delete`; without hello messages the neighbour list is empty. */
  function NbDelete(n: Node, id: Addr): Node {
    var n1 := n.(seqno := n.seqno + 2);
    HandleLinkFailure(Check(n1, Even(n1.seqno)), id)
  }

  /* ---------- data packets ---------- */

  /** `rt_resolve` */
  function RtResolve(n: Node, now: real, pkt: Data): Node {
    var n1 := EnsureRoute(n, pkt.dst);
    var r := n1.table[pkt.dst];
    if r.flag == Up then ForwardVia(Check(n1, Usable(r)), pkt.dst, pkt, now)
    else if pkt.src == n.id then SendRequest(Enqueue(n1, pkt, now), pkt.dst, now)
    else if r.flag == InRepair then Enqueue(n1, pkt, now)
    else
      Emit(SendError(Check(n1, r.flag == Down), [Lost(pkt.dst, r.seqno)]), Drop(pkt, NoRoute))
  }

  /** `recv` of a data packet. */
  function RecvData(n: Node, now: real, pkt: Data): Node {
    if pkt.src == n.id && pkt.forwards != 0 then Emit(n, Drop(pkt, RouteLoop))
    else
      var p := if pkt.src != n.id then pkt.(ttl := pkt.ttl - 1)
               else if pkt.dst != BROADCAST then pkt.(ttl := NETWORK_DIAMETER)
               else pkt;
      if pkt.src != n.id && p.ttl == 0 then Emit(n, Drop(p, TtlExpired))
      else if pkt.dst != BROADCAST then RtResolve(n, now, p)
      else ForwardBroadcast(n, p)
  }

  /** One turn of the loop of `rt_purge`. */
  function PurgeEntry(n: Node, d: Addr, now: real): (r: Node)
    requires d in n.table
    ensures r.table.Keys == n.table.Keys
  {
    var r := n.table[d];
    if r.flag == Up && r.expire < now then
      var n1 := Drain(Check(n, Usable(r)), d, now, DropIt);
      var r1 := n1.table[d].(seqno := n1.table[d].seqno + 1);
      SetRoute(Check(n1, !Even(r1.seqno)), d, Downed(r1))
    else if r.flag == Up then Drain(Check(n, Usable(r)), d, now, ForwardIt)
    else if HasPacketFor(n.buffer, d) then SendRequest(n, d, now)
    else n
  }

  /** The loop of `rt_purge`. Every listed destination has an entry, so the guard is true. */
  function PurgeAll(n: Node, ds: seq<Addr>, now: real): (r: Node)
    ensures r.table.Keys == n.table.Keys
    decreases |ds|
  {
    if ds == [] then n
    else if ds[0] in n.table then PurgeAll(PurgeEntry(n, ds[0], now), ds[1..], now)
    else PurgeAll(n, ds[1..], now)
  }

  /** `rt_purge` */
  function RtPurge(n: Node, now: real): Node { PurgeAll(n, n.order, now) }

  /* ---------- link failures and local repair ---------- */

  /** `local_rt_repair` */
  function StartRepair(n: Node, now: real, pkt: Data): Node
    requires pkt.dst in n.table
  {
    var n1 := Enqueue(n, pkt, now);
    SendRequest(SetRoute(n1, pkt.dst, n1.table[pkt.dst].(flag := InRepair)), pkt.dst, now)
  }

  /** `rt_ll_failed` for a data packet sent to `neighbor`. */
  function LinkFailed(n: Node, now: real, pkt: Data, neighbor: Addr): Node {
    if pkt.dst == BROADCAST || pkt.dst !in n.table then Emit(n, Drop(pkt, MacCallback))
    else if n.localRepair && pkt.forwards > n.table[pkt.dst].hops then StartRepair(n, now, pkt)
    else NbDelete(Emit(n, Drop(pkt, MacCallback)), neighbor)
  }

  /** `LocalRepairTimer::handle` for a packet to `dst`. */
  function RepairTimeout(n: Node, dst: Addr): Node {
    if dst in n.table && n.table[dst].flag != Up then SetRoute(n, dst, Downed(n.table[dst])) else n
  }

  /* ---------- one handler run ---------- */

  datatype Input =
    | Hear(msg: Message)
    | Packet(pkt: Data)
    | LinkDown(pkt: Data, neighbor: Addr)
    | RouteTimer
    | CacheTimer
    | RepairTimer(dst: Addr)

  /** The branch of `recvReply` that loses packets: an accepted reply with the hop count that means
      "no route". */
  predicate LosingReply(n: Node, input: Input) {
    && input.Hear? && input.msg.Rrep? && input.msg.rp.hops == INFINITY2
    && Better(input.msg.rp.dstSeqno, INFINITY2, EnsureRoute(n, input.msg.rp.dst).table[input.msg.rp.dst])
  }

  /** `recv` and `recvAODV` of a control packet. */
  function RecvAodv(n: Node, now: real, m: Message): Node {
    match m
    case Rreq(rq) => RecvRequest(n, now, rq.(ttl := rq.ttl - 1))
    case Rrep(rp) => RecvReply(n, now, rp.(ttl := rp.ttl - 1))
    case Rerr(re) => RecvError(n, re)
  }

  function Handle(n: Node, now: real, input: Input): Node
  {
    match input
    case Hear(m) => RecvAodv(n, now, m)
    case Packet(pkt) => RecvData(n, now, pkt)
    case LinkDown(pkt, neighbor) => LinkFailed(n, now, pkt, neighbor)
    case RouteTimer => RtPurge(n, now)
    case CacheTimer => IdPurge(n, now)
    case RepairTimer(dst) => RepairTimeout(n, dst)
  }
}
