/** The network: N agents and the control messages in flight. Delivery leaves the message in
    flight, so it may be received late, out of order, several times or, once lost, never. */
module Network {
  import opened Types
  import opened RouteTable
  import opened Handlers
  import opened LocalSteps

  /** A message in flight towards `next`. `asked` and `trail` are history. `asked` is the largest number
      for the destination that was in the entry of the originator of the request that this message goes
      back to when it asked, or of a node when it passed that request on; `trail` are the nodes that
      passed this reply on. */
  datatype Flight = Flight(next: Addr, msg: Message, asked: nat, trail: set<Addr>)

  /** Node `i` has address `i`. */
  datatype Net = Net(nodes: seq<Node>, air: set<Flight>, clock: real)

  datatype Action =
    | Hears(i: nat, f: Flight, now: real)
    | Acts(i: nat, input: Input, now: real)
    | Loses(lost: Flight)

  predicate Enabled(s: Net, a: Action) {
    match a
    case Hears(i, f, now) => i < |s.nodes| && f in s.air && (f.next == BROADCAST || f.next == i) && s.clock <= now
    case Acts(i, input, now) => i < |s.nodes| && !input.Hear? && s.clock <= now
    case Loses(f) => f in s.air
  }

  function AskedOf(heard: Option<Flight>): nat {
    match heard case None => 0 case Some(f) => f.asked
  }

  /** The flight of a message that a node sends when it handled `heard`; `n` is its state afterwards. */
  function Tagged(next: Addr, m: Message, n: Node, heard: Option<Flight>): Flight {
    match m
    case Rreq(q) =>
      Flight(next, m, if q.src == n.id then q.dstSeqno else Max(AskedOf(heard), RouteOf(n, q.dst).seqno), {})
    case Rrep(_) => Flight(next, m, AskedOf(heard),
                           if heard.Some? && heard.value.msg.Rrep? then heard.value.trail + {n.id} else {})
    case Rerr(_) => Flight(next, m, 0, {})
  }

  function Sent(n: Node, heard: Option<Flight>): set<Flight> {
    set e | e in n.out && e.Transmit? :: Tagged(e.next, e.msg, n, heard)
  }

  /** One handler run at node `i`. */
  function RunAt(s: Net, i: nat, input: Input, now: real, heard: Option<Flight>): Net
    requires i < |s.nodes|
  {
    After(s, i, Handle(s.nodes[i].(out := []), now, input), heard, now)
  }

  function Next(s: Net, a: Action): Net
    requires Enabled(s, a)
  {
    match a
    case Hears(i, f, now) => RunAt(s, i, Hear(f.msg), now, Some(f))
    case Acts(i, input, now) => RunAt(s, i, input, now, None)
    case Loses(f) => s.(air := s.air - {f})
  }

  ghost predicate Init(s: Net) {
    && s.air == {}
    && forall i :: 0 <= i < |s.nodes| ==> s.nodes[i] == NewNode(i, s.nodes[i].localRepair)
  }

  /** A run: the states passed through and the actions between them. */
  ghost predicate Run(states: seq<Net>, actions: seq<Action>) {
    && |states| == |actions| + 1 && Init(states[0])
    && forall k :: 0 <= k < |actions| ==> Enabled(states[k], actions[k]) && states[k + 1] == Next(states[k], actions[k])
  }

  /** The input of a handler run. */
  function InputOf(a: Action): Input
    requires !a.Loses?
  {
    if a.Hears? then Hear(a.f.msg) else a.input
  }

  /** The excluded step: a local repair fails. Without AODV_LOCAL_REPAIR there is none. */
  predicate RepairFailsAt(s: Net, a: Action)
    requires Enabled(s, a)
  {
    !a.Loses? && RepairFails(s.nodes[a.i], InputOf(a))
  }

  /** In this action a repair timer takes down a route at a live number. */
  predicate RepairSpoilsAt(s: Net, a: Action)
    requires Enabled(s, a)
  {
    !a.Loses? && RepairSpoils(s.nodes[a.i], InputOf(a))
  }

  /** In this action a node accepts a reply whose hop count means "no route". */
  predicate LosingReplyAt(s: Net, a: Action)
    requires Enabled(s, a)
  {
    !a.Loses? && LosingReply(s.nodes[a.i], InputOf(a))
  }

  /** A cache purge is patient when no request it forgets is still in flight. */
  ghost predicate Patient(s: Net, a: Action)
    requires Enabled(s, a)
  {
    a.Acts? && a.input.CacheTimer? ==>
      forall f :: f in s.air && f.msg.Rreq? && InCache(s.nodes[a.i].cache, f.msg.rq.src, f.msg.rq.bid) ==>
        InCache(IdPurge(s.nodes[a.i], a.now).cache, f.msg.rq.src, f.msg.rq.bid)
  }

  /** The message in flight that an action delivers. */
  function HeardBy(a: Action): Option<Flight> {
    if a.Hears? then Some(a.f) else None
  }

  function Heard(heard: Option<Flight>): Option<Message> {
    match heard case None => None case Some(f) => Some(f.msg)
  }

  /** The network after node `i` ran to `n'`. */
  function After(s: Net, i: nat, n': Node, heard: Option<Flight>, now: real): Net
    requires i < |s.nodes|
  {
    Net(s.nodes[i := n'], s.air + Sent(n', heard), now)
  }

  /* ---------- the invariants ---------- */

  predicate IsNode(s: Net, d: Addr) { 0 <= d < |s.nodes| }

  /** `d`'s own sequence number; 0 for an address nobody has. */
  function OwnSeqno(s: Net, d: Addr): nat { if IsNode(s, d) then s.nodes[d].seqno else 0 }

  /** The largest number anybody may hold for `d`. */
  function Cap(s: Net, d: Addr): nat { if IsNode(s, d) then s.nodes[d].seqno + 1 else 0 }

  /** The node holds an entry for `d` at least as fresh as (seqno, hops). */
  predicate Fresh(n: Node, d: Addr, seqno: nat, hops: nat) {
    d in n.table && AtLeast(n.table[d], seqno, hops)
  }

  function FreshSet(s: Net, d: Addr, seqno: nat, hops: nat): set<nat> {
    set i | 0 <= i < |s.nodes| && Fresh(s.nodes[i], d, seqno, hops)
  }

  /** Those that are fresh and still remember the request (src, bid). */
  function RelaySet(s: Net, src: Addr, bid: nat, seqno: nat, hops: nat): set<nat> {
    set i | 0 <= i < |s.nodes| && Fresh(s.nodes[i], src, seqno, hops) && InCache(s.nodes[i].cache, src, bid)
  }

  /** The sender `p` of (d, seqno, hops) is the destination or strictly fresher. */
  predicate Ahead(s: Net, p: Addr, d: Addr, seqno: nat, hops: nat) {
    IsNode(s, p) && hops >= 1 && (p == d || Fresh(s.nodes[p], d, seqno, hops - 1))
  }

  /* What holds on every run. */

  /** No entry is ahead of the destination's own number by more than the one increment of an
      invalidation, and a route that is up or usable not at all. */
  predicate RouteBase(s: Net, d: Addr, r: Route) {
    r.seqno <= Cap(s, d) && (r.flag == Up || Usable(r) ==> IsNode(s, d) && r.seqno <= OwnSeqno(s, d))
  }

  predicate RequestBase(s: Net, q: Request, asked: nat) {
    && IsNode(s, q.src) && q.srcSeqno <= OwnSeqno(s, q.src) && q.bid < s.nodes[q.src].bid
    && 1 <= q.ttl && q.hops + q.ttl <= NETWORK_DIAMETER + 1
    && asked <= q.dstSeqno <= Cap(s, q.dst)
  }

  predicate ReplyBase(s: Net, q: Reply, asked: nat) {
    IsNode(s, q.to) && IsNode(s, q.dst) && asked <= q.dstSeqno <= OwnSeqno(s, q.dst)
  }

  ghost predicate ErrorBase(s: Net, q: RouteError) { forall l :: l in q.lost ==> l.seqno <= Cap(s, l.dst) }

  ghost predicate FlightBase(s: Net, f: Flight) {
    match f.msg
    case Rreq(q) => RequestBase(s, q, f.asked)
    case Rrep(q) => ReplyBase(s, q, f.asked)
    case Rerr(q) => ErrorBase(s, q)
  }

  ghost predicate BaseInv(s: Net) {
    && (forall i :: 0 <= i < |s.nodes| ==> s.nodes[i].id == i && NodeSound(s.nodes[i]))
    && (forall i, d :: 0 <= i < |s.nodes| && d in s.nodes[i].table ==> RouteBase(s, d, s.nodes[i].table[d]))
    && (forall f :: f in s.air ==> FlightBase(s, f))
  }

  /* What holds besides as long as no repair timer spoils a number. */

  ghost predicate ParityInv(s: Net) {
    && BaseInv(s)
    && (forall i, d :: 0 <= i < |s.nodes| && d in s.nodes[i].table ==> RouteParity(s.nodes[i].table[d]))
    && (forall f :: f in s.air ==> MessageParity(f.msg))
  }

  /* What holds besides as long as no repair fails and no reply with a wrapped hop count is accepted. */

  /** The next hop of a route in use is ahead. */
  predicate RouteOrder(s: Net, d: Addr, r: Route) { Usable(r) ==> Ahead(s, r.nexthop, d, r.seqno, r.hops) }

  /** So is the sender of a message, and the nodes a reply went through stay as fresh as it was there. */
  predicate FlightOrder(s: Net, f: Flight) {
    match f.msg
    case Rreq(q) => Ahead(s, q.from, q.src, q.srcSeqno, q.hops)
    case Rrep(q) =>
      && Ahead(s, q.from, q.dst, q.dstSeqno, q.hops)
      && (forall t :: t in f.trail ==> IsNode(s, t) && Fresh(s.nodes[t], q.dst, q.dstSeqno, q.hops - 1))
    case Rerr(_) => true
  }

  ghost predicate OrderInv(s: Net) {
    && ParityInv(s)
    && (forall i :: 0 <= i < |s.nodes| ==> NodeOk(s.nodes[i]))
    && (forall i, d :: 0 <= i < |s.nodes| && d in s.nodes[i].table ==> RouteOrder(s, d, s.nodes[i].table[d]))
    && (forall f :: f in s.air ==> FlightOrder(s, f))
  }

  /* What holds besides in networks whose size fits the hop count field. */

  /** A hop count of h is backed by h nodes at least that fresh. `slack` is what broadcast-id caching
      cannot guarantee: 0 if the caches are patient, and the network diameter otherwise. */
  predicate RouteCount(s: Net, slack: nat, d: Addr, r: Route) {
    Usable(r) ==> r.hops <= |FreshSet(s, d, r.seqno, r.hops)| + slack
  }

  predicate FlightCount(s: Net, slack: nat, f: Flight) {
    match f.msg
    case Rreq(q) =>
      slack >= NETWORK_DIAMETER ||
      (q.hops >= 1 && q.hops - 1 <= |RelaySet(s, q.src, q.bid, q.srcSeqno, q.hops - 1)| + slack)
    case Rrep(q) => q.hops >= 1 && q.hops - 1 <= |FreshSet(s, q.dst, q.dstSeqno, q.hops - 1)| + slack
    case Rerr(_) => true
  }

  ghost predicate Inv(s: Net, slack: nat) {
    && |s.nodes| + slack <= 254 && OrderInv(s)
    && (forall i, d :: 0 <= i < |s.nodes| && d in s.nodes[i].table ==> RouteCount(s, slack, d, s.nodes[i].table[d]))
    && (forall f :: f in s.air ==> FlightCount(s, slack, f))
  }

  /* ---------- kinds of runs ---------- */

  /** A run in which no repair timer takes down a route at a live number. */
  ghost predicate SteadyRun(states: seq<Net>, actions: seq<Action>) {
    && Run(states, actions)
    && forall k :: 0 <= k < |actions| ==> !RepairSpoilsAt(states[k], actions[k])
  }

  /** A run in which no local repair fails. */
  ghost predicate CalmRun(states: seq<Net>, actions: seq<Action>) {
    && Run(states, actions)
    && forall k :: 0 <= k < |actions| ==> !RepairFailsAt(states[k], actions[k])
  }

  /** A run in which nobody accepts a reply whose hop count means "no route". */
  ghost predicate NoLosingReply(states: seq<Net>, actions: seq<Action>)
    requires Run(states, actions)
  {
    forall k :: 0 <= k < |actions| ==> !LosingReplyAt(states[k], actions[k])
  }

  ghost predicate PatientRun(states: seq<Net>, actions: seq<Action>)
    requires Run(states, actions)
  {
    forall k :: 0 <= k < |actions| ==> Patient(states[k], actions[k])
  }

  /** Networks in which nobody accepts such a reply: up to 224 nodes without further assumptions,
      because the time to live bounds what a forgotten broadcast id can add; up to 254 if caches are
      patient. */
  ghost predicate Sized(states: seq<Net>, actions: seq<Action>)
    requires Run(states, actions)
  {
    |states[0].nodes| <= 224 || (|states[0].nodes| <= 254 && PatientRun(states, actions))
  }

  /** No agent is built with local repair. */
  predicate WithoutRepair(s: Net) { forall i :: 0 <= i < |s.nodes| ==> !s.nodes[i].localRepair }
}
