/** What one handler run can do to the routing state of its node and which messages it can send:
    the contract `Legal`, proved of every handler. The network proofs use nothing else. */
module LocalSteps {
  import opened Types
  import opened RouteTable
  import opened Handlers

  /* ---------- the node invariants ---------- */

  predicate HopsOk(r: Route) { Usable(r) ==> r.hops >= 1 }

  /** What every route satisfies on every run: a route marked down is not usable, and at most
      RREQ_RETRIES + 1 network-wide requests are counted. */
  predicate RouteSound(r: Route) {
    && (r.flag == Down ==> !Usable(r))
    && r.hops <= INFINITY2 && NoDuplicates(r.precursors) && r.reqCnt <= RREQ_RETRIES + 1
  }

  /** The parity discipline: routes that are up or usable carry even numbers from 2 on, those that
      are down carry 0 or an odd number. */
  predicate RouteParity(r: Route) {
    (r.flag == Up || Usable(r) ==> LiveNumber(r.seqno)) && (r.flag == Down ==> DeadNumber(r.seqno))
  }

  /** Flag, hop count and parity agree. The last hop count, which chooses the first ring, is not zero. */
  predicate RouteOk(r: Route) {
    && RouteSound(r) && RouteParity(r)
    && (r.flag == Up ==> Usable(r))
    && (!Usable(r) ==> DeadNumber(r.seqno))
    && r.lastHops >= 1 && HopsOk(r)
  }

  /** The listed destinations are the keys of the table. */
  ghost predicate Listed(n: Node) { forall d :: d in n.order <==> d in n.table }

  /** What holds of every node on every run; only a build with local repair has routes under repair. */
  ghost predicate NodeSound(n: Node) {
    && Even(n.seqno) && n.seqno >= 2 && n.bid >= 1
    && Listed(n) && NoDuplicates(n.order)
    && (forall d :: d in n.table ==> RouteSound(n.table[d]))
    && (forall d :: d in n.table && n.table[d].flag == InRepair ==> n.localRepair)
  }

  /** What holds besides of every node of a calm run. */
  ghost predicate NodeOk(n: Node) {
    NodeSound(n) && forall d :: d in n.table ==> RouteOk(n.table[d])
  }

  lemma NodeOkWithoutEffects(n: Node)
    requires NodeOk(n)
    ensures NodeOk(n.(out := []))
  {
  }

  lemma SoundWithoutEffects(n: Node)
    requires NodeSound(n)
    ensures NodeSound(n.(out := []))
  {
  }

  lemma EntrySound(n: Node, d: Addr)
    requires NodeSound(n) && d in n.table
    ensures RouteSound(n.table[d])
  {
  }

  lemma EntryOk(n: Node, d: Addr)
    requires NodeOk(n) && d in n.table
    ensures RouteOk(n.table[d])
  {
  }

  /** The route of `n` for `d`; a missing entry counts as a fresh one. */
  function RouteOf(n: Node, d: Addr): Route {
    if d in n.table then n.table[d] else FRESH_ROUTE
  }

  /* ---------- how one route can change ---------- */

  predicate SameRoute(r: Route, r': Route) {
    r'.seqno == r.seqno && r'.hops == r.hops && r'.flag == r.flag && r'.nexthop == r.nexthop
  }

  predicate RepairStarted(r: Route, r': Route) {
    r'.flag == InRepair && r'.seqno == r.seqno && r'.hops == r.hops && r'.nexthop == r.nexthop
  }

  /** A dead route under repair is only marked down. */
  predicate Settled(r: Route, r': Route) {
    && r.flag == InRepair && !Usable(r) && DeadNumber(r.seqno)
    && !Usable(r') && r'.flag == Down && r'.seqno == r.seqno
  }

  /** A route in use is taken down, at a number that is not smaller. */
  predicate TakenDown(r: Route, r': Route) {
    (Usable(r) || r.flag == Up) && !Usable(r') && r'.flag == Down && r'.seqno >= r.seqno
  }

  predicate ErrorNamed(cause: Option<Message>, d: Addr, seqno: nat) {
    cause.Some? && cause.value.Rerr? && Lost(d, seqno) in cause.value.re.lost
  }

  /** Every number in an error is 0 or odd. */
  predicate ErrorOk(re: RouteError) {
    forall l :: l in re.lost ==> DeadNumber(l.seqno)
  }

  predicate MessageParity(m: Message) {
    match m
    case Rreq(q) => LiveNumber(q.srcSeqno)
    case Rrep(q) => LiveNumber(q.dstSeqno)
    case Rerr(q) => ErrorOk(q)
  }

  predicate CauseOk(cause: Option<Message>) { cause.Some? ==> MessageParity(cause.value) }

  /** Why a route goes down: its number is raised by one, or a matching error names the number. */
  predicate DownFor(r: Route, r': Route, d: Addr, cause: Option<Message>) {
    TakenDown(r, r') && (r'.seqno == r.seqno + 1 || (Usable(r) && ErrorNamed(cause, d, r'.seqno)))
  }

  /** Under the parity discipline a route always goes down at a strictly larger, odd number: the
      `<=` of `recvError` is strict when it fires. */
  lemma DownIsStrict(r: Route, r': Route, d: Addr, cause: Option<Message>)
    requires RouteParity(r) && CauseOk(cause) && DownFor(r, r', d, cause)
    ensures r'.seqno > r.seqno && !Even(r'.seqno)
  {
  }

  /** The bound on counted requests is kept, and so is a last hop count other than zero. */
  predicate CountsKept(r: Route, r': Route) {
    && (r.reqCnt <= RREQ_RETRIES + 1 ==> r'.reqCnt <= RREQ_RETRIES + 1)
    && (r.lastHops >= 1 && HopsOk(r) ==> r'.lastHops >= 1)
  }

  /** The route was taken from a message that was better than the old route. */
  predicate InstalledBy(r: Route, r': Route, d: Addr, cause: Option<Message>) {
    && r'.flag == Up && cause.Some?
    && match cause.value
       case Rreq(q) => && d == q.src && Better(q.srcSeqno, q.hops, r)
                       && r'.seqno == q.srcSeqno && r'.hops == q.hops && r'.nexthop == q.from
       case Rrep(q) => && d == q.dst && Better(q.dstSeqno, q.hops, r)
                       && r'.seqno == q.dstSeqno && r'.hops == q.hops && r'.nexthop == q.from
       case Rerr(_) => false
  }

  predicate RouteStep(r: Route, r': Route, d: Addr, cause: Option<Message>, localRepair: bool) {
    && (NoDuplicates(r.precursors) ==> NoDuplicates(r'.precursors))
    && CountsKept(r, r')
    && (|| SameRoute(r, r')
        || (localRepair && RepairStarted(r, r'))
        || Settled(r, r')
        || DownFor(r, r', d, cause)
        || InstalledBy(r, r', d, cause))
  }

  /* ---------- which messages may be sent ---------- */

  /** A request of this node's own. */
  predicate OwnRequest(n: Node, n': Node, q: Request) {
    && q.from == n'.id && q.src == n'.id && q.hops == 1 && 1 <= q.ttl <= NETWORK_DIAMETER
    && n.seqno < q.srcSeqno <= n'.seqno && Even(q.srcSeqno)
    && n.bid <= q.bid < n'.bid
    && q.dst in n'.table && q.dstSeqno <= n'.table[q.dst].seqno
  }

  /** A request passed on, once per cached broadcast id. */
  predicate RelayedRequest(n: Node, n': Node, q: Request, cause: Option<Message>) {
    && cause.Some? && cause.value.Rreq?
    && var p := cause.value.rq;
       && q == p.(from := n'.id, ttl := p.ttl - 1, hops := Byte(p.hops + 1), dstSeqno := q.dstSeqno)
       && q.ttl != 0 && p.src != n'.id && p.dst != n'.id
       && !InCache(n.cache, p.src, p.bid) && InCache(n'.cache, p.src, p.bid)
       && q.dstSeqno == Max(p.dstSeqno, RouteOf(n', p.dst).seqno)
       && p.src in n'.table && AtLeast(n'.table[p.src], p.srcSeqno, p.hops)
  }

  /** A reply this node generates: as the destination, or from a route in use. */
  predicate OwnReply(n': Node, q: Reply, cause: Option<Message>) {
    && cause.Some? && cause.value.Rreq?
    && var p := cause.value.rq;
       && q.from == n'.id && q.dst == p.dst && q.to == p.src && q.dstSeqno >= p.dstSeqno
       && if p.dst == n'.id
          then q.hops == 1 && q.dstSeqno == n'.seqno && q.dstSeqno > p.dstSeqno
          else p.dst in n'.table && Usable(n'.table[p.dst])
               && q.hops == Byte(n'.table[p.dst].hops + 1) && q.dstSeqno == n'.table[p.dst].seqno
  }

  /** A reply passed on after it improved this node's route. */
  predicate RelayedReply(n: Node, n': Node, q: Reply, cause: Option<Message>) {
    && cause.Some? && cause.value.Rrep?
    && var p := cause.value.rp;
       && q == p.(from := n'.id, ttl := p.ttl - 1, hops := Byte(p.hops + 1))
       && p.to != n'.id && Better(p.dstSeqno, p.hops, RouteOf(n, p.dst))
       && p.dst in n'.table && n'.table[p.dst].seqno == p.dstSeqno && n'.table[p.dst].hops == p.hops
  }

  /** The route for the destination of `l` is down, at the number that `l` says. */
  predicate IsDown(n': Node, l: Lost) {
    && l.dst in n'.table && n'.table[l.dst].flag == Down && !Usable(n'.table[l.dst])
    && n'.table[l.dst].seqno == l.seqno
  }

  /** An error names destinations whose routes are down, with the numbers the node holds. */
  ghost predicate OwnError(n': Node, q: RouteError) {
    q.from == n'.id && forall l :: l in q.lost ==> IsDown(n', l)
  }

  ghost predicate Justified(n: Node, n': Node, m: Message, cause: Option<Message>) {
    match m
    case Rreq(q) => OwnRequest(n, n', q) || RelayedRequest(n, n', q, cause)
    case Rrep(q) => OwnReply(n', q, cause) || RelayedReply(n, n', q, cause)
    case Rerr(q) => OwnError(n', q)
  }

  /** The contract of one handler run that starts with an empty effect list. */
  ghost predicate Legal(n: Node, n': Node, cause: Option<Message>) {
    && n'.id == n.id && n'.localRepair == n.localRepair
    && n.seqno <= n'.seqno && Even(n'.seqno) && n.bid <= n'.bid
    && Listed(n') && NoDuplicates(n'.order)
    && (forall d :: d in n.table ==> d in n'.table)
    && (forall d :: d in n'.table ==> RouteStep(RouteOf(n, d), n'.table[d], d, cause, n.localRepair))
    && (forall e :: e in n'.out && e.Transmit? ==> Justified(n, n', e.msg, cause))
  }

  /** Cached broadcast ids stay cached. */
  ghost predicate CacheKept(n: Node, n': Node) {
    forall src, bid :: InCache(n.cache, src, bid) ==> InCache(n'.cache, src, bid)
  }

  /* ---------- steps without an incoming message ---------- */

  /** New effects only add to the list. */
  predicate Extends(out: seq<Effect>, out': seq<Effect>) { out <= out' }

  ghost predicate SameFrame(n: Node, n': Node) {
    && n'.id == n.id && n'.localRepair == n.localRepair && n'.order == n.order && n'.cache == n.cache
    && n'.table.Keys == n.table.Keys && Extends(n.out, n'.out)
  }

  /** Of the routes only expiry times change, and no control message is sent. */
  ghost predicate Silent(n: Node, n': Node) {
    && SameFrame(n, n') && n'.seqno == n.seqno && n'.bid == n.bid
    && (forall d :: d in n.table ==> n'.table[d] == n.table[d].(expire := n'.table[d].expire))
    && (forall k :: |n.out| <= k < |n'.out| ==> !n'.out[k].Transmit?)
  }

  /** Routes stay or expire, and only requests of this node's own are sent. */
  ghost predicate Own(n: Node, n': Node) {
    && SameFrame(n, n') && n.seqno <= n'.seqno && Even(n'.seqno) && n.bid <= n'.bid
    && (forall d :: d in n.table ==>
          && n'.table[d].precursors == n.table[d].precursors
          && CountsKept(n.table[d], n'.table[d])
          && (|| SameRoute(n.table[d], n'.table[d])
              || (TakenDown(n.table[d], n'.table[d]) && n'.table[d].seqno == n.table[d].seqno + 1)))
    && (forall k :: |n.out| <= k < |n'.out| && n'.out[k].Transmit? ==>
          n'.out[k].next == BROADCAST && n'.out[k].msg.Rreq? && OwnRequest(n, n', n'.out[k].msg.rq))
  }

  lemma SilentTransitive(a: Node, b: Node, c: Node)
    requires Silent(a, b) && Silent(b, c)
    ensures Silent(a, c)
  {
    forall k | |a.out| <= k < |c.out| ensures !c.out[k].Transmit? {
      if k < |b.out| {
        assert c.out[k] == b.out[k];
      }
    }
  }

  lemma SilentIsOwn(a: Node, b: Node)
    requires Silent(a, b) && Even(a.seqno)
    ensures Own(a, b)
  {
  }

  lemma OwnTransitive(a: Node, b: Node, c: Node)
    requires Own(a, b) && Own(b, c)
    ensures Own(a, c)
  {
    forall k | |a.out| <= k < |c.out| && c.out[k].Transmit?
      ensures c.out[k].next == BROADCAST && c.out[k].msg.Rreq? && OwnRequest(a, c, c.out[k].msg.rq)
    {
      if k < |b.out| {
        assert c.out[k] == b.out[k];
        assert OwnRequest(a, b, b.out[k].msg.rq);
      } else {
        assert OwnRequest(b, c, c.out[k].msg.rq);
      }
    }
  }

  lemma OwnKeepsNodeSound(a: Node, b: Node)
    requires Own(a, b) && NodeSound(a)
    ensures NodeSound(b)
  {
    forall d | d in b.table ensures RouteSound(b.table[d]) {
      assert d in a.table && RouteSound(a.table[d]);
    }
  }

  lemma OwnKeepsNodeOk(a: Node, b: Node)
    requires Own(a, b) && NodeOk(a)
    ensures NodeOk(b)
  {
    OwnKeepsNodeSound(a, b);
    forall d | d in b.table ensures RouteOk(b.table[d]) {
      assert d in a.table && RouteOk(a.table[d]);
    }
  }

  lemma OwnIsLegal(a: Node, b: Node)
    requires Own(a, b) && a.out == [] && NodeSound(a)
    ensures Legal(a, b, None)
  {
    forall e | e in b.out && e.Transmit? ensures Justified(a, b, e.msg, None) {
      var k :| 0 <= k < |b.out| && b.out[k] == e;
      assert OwnRequest(a, b, b.out[k].msg.rq);
    }
  }

  /* ---------- the data-plane operations are silent ---------- */

  lemma EnqueueSilent(n: Node, pkt: Data, now: real)
    ensures Silent(n, Enqueue(n, pkt, now))
  {
  }

  lemma ForwardViaSilent(n: Node, d: Addr, pkt: Data, now: real)
    requires d in n.table
    ensures Silent(n, ForwardVia(n, d, pkt, now))
  {
  }

  lemma DisposeSilent(n: Node, d: Addr, pkt: Data, now: real, how: Disposal)
    requires d in n.table
    ensures Silent(n, Dispose(n, d, pkt, now, how))
  {
    var n1 := Check(n, n.table[d].flag == Up && Usable(n.table[d]));
    ForwardViaSilent(n1, d, pkt, now);
  }

  lemma {:induction false} DrainSilent(n: Node, d: Addr, now: real, how: Disposal)
    requires d in n.table
    ensures Silent(n, Drain(n, d, now, how))
    decreases |n.buffer|
  {
    var (n1, p) := Deque(n, d, now);
    if p.Some? {
      DisposeSilent(n1, d, p.value, now, how);
      var n2 := Dispose(n1, d, p.value, now, how);
      DrainSilent(n2, d, now, how);
      SilentTransitive(n, n2, Drain(n2, d, now, how));
    }
  }

  lemma GiveUpOwn(n: Node, d: Addr, now: real)
    requires NodeSound(n) && d in n.table
    ensures Own(n, Drain(SetRoute(n, d, GivenUp(n.table[d], now)), d, now, DropIt))
    ensures SameRoute(n.table[d], Drain(SetRoute(n, d, GivenUp(n.table[d], now)), d, now, DropIt).table[d])
  {
    hide Drain;
    var n1 := SetRoute(n, d, GivenUp(n.table[d], now));
    DrainSilent(n1, d, now, DropIt);
    SilentIsOwn(n1, Drain(n1, d, now, DropIt));
    OwnTransitive(n, n1, Drain(n1, d, now, DropIt));
  }

  lemma SameIsOwn(n: Node, n': Node)
    requires NodeSound(n) && n' == n.(failed := n'.failed)
    ensures Own(n, n')
  {
  }

  lemma AskOwn(n: Node, d: Addr, now: real)
    requires NodeSound(n) && d in n.table && AskDecision(n.table[d], now) == Ask
    ensures Own(n, SendRequest(n, d, now)) && SameRoute(n.table[d], SendRequest(n, d, now).table[d])
  {
    hide AskTimeout;
    var n' := SendRequest(n, d, now);
    EntrySound(n, d);
    assert n'.out == n.out + [n'.out[|n.out|]] && n'.table == n.table[d := Asked(n.table[d], now)];
  }

  lemma SendRequestOwn(n: Node, d: Addr, now: real)
    requires NodeSound(n) && d in n.table
    ensures Own(n, SendRequest(n, d, now))
    ensures n.table[d].flag != Up ==> SameRoute(n.table[d], SendRequest(n, d, now).table[d])
  {
    hide Drain, Own;
    match AskDecision(n.table[d], now)
    case Quiet => SameIsOwn(n, SendRequest(n, d, now));
    case GiveUp => GiveUpOwn(n, d, now);
    case Ask => AskOwn(n, d, now);
  }

  lemma ExpireOwn(n: Node, d: Addr, now: real)
    requires NodeSound(n) && d in n.table && n.table[d].flag == Up && n.table[d].expire < now
    ensures Own(n, PurgeEntry(n, d, now))
  {
    hide Drain;
    var n0 := Check(n, Usable(n.table[d]));
    DrainSilent(n0, d, now, DropIt);
    var n1 := Drain(n0, d, now, DropIt);
    assert SameRoute(n.table[d], n1.table[d]);
    var r1 := n1.table[d].(seqno := n1.table[d].seqno + 1);
    assert TakenDown(n.table[d], Downed(r1));
  }

  lemma PurgeEntryOwn(n: Node, d: Addr, now: real)
    requires NodeSound(n) && d in n.table
    ensures Own(n, PurgeEntry(n, d, now))
  {
    hide Drain, SendRequest;
    var r := n.table[d];
    if r.flag == Up && r.expire < now {
      ExpireOwn(n, d, now);
    } else if r.flag == Up {
      var n0 := Check(n, Usable(r));
      DrainSilent(n0, d, now, ForwardIt);
      SilentTransitive(n, n0, Drain(n0, d, now, ForwardIt));
      SilentIsOwn(n, Drain(n0, d, now, ForwardIt));
    } else if HasPacketFor(n.buffer, d) {
      SendRequestOwn(n, d, now);
    }
  }

  lemma {:induction false} PurgeAllOwn(n: Node, ds: seq<Addr>, now: real)
    requires NodeSound(n) && forall d :: d in ds ==> d in n.table
    ensures Own(n, PurgeAll(n, ds, now))
    decreases |ds|
  {
    if ds != [] {
      var n1 := PurgeEntry(n, ds[0], now);
      PurgeEntryOwn(n, ds[0], now);
      OwnKeepsNodeSound(n, n1);
      PurgeAllOwn(n1, ds[1..], now);
      OwnTransitive(n, n1, PurgeAll(n1, ds[1..], now));
    }
  }

  /* ---------- the handlers ---------- */

  /** The state between the route half and the answering half of a receive handler. */
  ghost predicate Received(n: Node, b: Node, cause: Option<Message>) {
    && b.id == n.id && b.localRepair == n.localRepair && b.seqno == n.seqno && b.bid == n.bid
    && Listed(b) && NoDuplicates(b.order)
    && (forall d :: d in n.table ==> d in b.table)
    && (forall d :: d in b.table ==> RouteStep(RouteOf(n, d), b.table[d], d, cause, n.localRepair))
    && (forall e :: e in b.out ==> !e.Transmit?)
  }

  lemma EnsureRouteReceived(n: Node, d: Addr, cause: Option<Message>)
    requires Listed(n) && NoDuplicates(n.order) && (forall e :: e in n.out ==> !e.Transmit?)
    ensures Received(n, EnsureRoute(n, d), cause)
  {
    if d !in n.table {
      PrependKeepsDistinct(n.order, d);
    }
  }

  lemma SilentKeepsReceived(n: Node, b: Node, c: Node, cause: Option<Message>)
    requires Received(n, b, cause) && Silent(b, c)
    ensures Received(n, c, cause)
  {
    forall e | e in c.out ensures !e.Transmit? {
      var k :| 0 <= k < |c.out| && c.out[k] == e;
      if k < |b.out| {
        assert b.out[k] in b.out;
      }
    }
    forall d | d in c.table ensures RouteStep(RouteOf(n, d), c.table[d], d, cause, n.localRepair) {
      assert d in b.table;
    }
  }

  lemma SetRouteReceived(n: Node, b: Node, d: Addr, r: Route, cause: Option<Message>)
    requires Received(n, b, cause) && d in b.table
    requires RouteStep(RouteOf(n, d), r, d, cause, n.localRepair)
    ensures Received(n, SetRoute(b, d, r), cause)
  {
  }

  lemma ReverseEntryStep(r0: Route, r: Route, now: real, m: Request, cause: Option<Message>, localRepair: bool)
    requires RouteStep(r0, r, m.src, cause, localRepair) && SameRoute(r0, r)
    requires cause.Some? && cause.value.Rreq? && m == cause.value.rq.(ttl := m.ttl)
    ensures RouteStep(r0, ReverseEntry(r, now, m), m.src, cause, localRepair)
    ensures AtLeast(ReverseEntry(r, now, m), m.srcSeqno, m.hops)
  {
  }

  /** The reverse-route half: afterwards the node is at least as fresh as the request. */
  lemma ReverseRouteReceived(n: Node, b: Node, now: real, m: Request, cause: Option<Message>)
    requires Received(n, b, cause) && m.src in b.table && SameRoute(RouteOf(n, m.src), b.table[m.src])
    requires cause.Some? && cause.value.Rreq? && m == cause.value.rq.(ttl := m.ttl)
    ensures Received(n, ReverseRoute(b, now, m), cause)
    ensures AtLeast(ReverseRoute(b, now, m).table[m.src], m.srcSeqno, m.hops)
    ensures ReverseRoute(b, now, m).cache == b.cache
  {
    hide Drain, ReverseEntry, RouteStep;
    var r := b.table[m.src];
    var r2 := ReverseEntry(r, now, m);
    ReverseEntryStep(RouteOf(n, m.src), r, now, m, cause, n.localRepair);
    SetRouteReceived(n, b, m.src, r2, cause);
    if Better(m.srcSeqno, m.hops, r) {
      var b1 := Check(SetRoute(b, m.src, r2), r2.flag == Up);
      DrainSilent(b1, m.src, now, ForwardIt);
      SilentKeepsReceived(n, b1, Drain(b1, m.src, now, ForwardIt), cause);
    }
  }

  lemma PrecursorReceived(n: Node, b: Node, d: Addr, id: Addr, cause: Option<Message>)
    requires Received(n, b, cause) && d in b.table
    ensures Received(n, AddPrecursor(b, d, id), cause)
  {
    var r := b.table[d];
    if NoDuplicates(r.precursors) {
      WithPrecursorKeepsDistinct(r.precursors, id);
    }
  }

  /** One justified message on top of a received state. */
  lemma EmitLegal(n: Node, b: Node, next: Addr, m: Message, cause: Option<Message>)
    requires Received(n, b, cause) && Even(n.seqno)
    requires Justified(n, Emit(b, Transmit(next, m)), m, cause)
    ensures Legal(n, Emit(b, Transmit(next, m)), cause)
  {
  }

  lemma QuietLegal(n: Node, b: Node, cause: Option<Message>)
    requires Received(n, b, cause) && Even(n.seqno)
    ensures Legal(n, b, cause)
  {
  }

  lemma AnswerAsDestination(n: Node, b: Node, now: real, m: Request, cause: Option<Message>)
    requires Received(n, b, cause) && Even(n.seqno) && m.src in b.table && m.dst == b.id
    requires cause.Some? && cause.value.Rreq? && m == cause.value.rq.(ttl := m.ttl)
    ensures Legal(n, AnswerRequest(b, now, m), cause)
  {
    var n' := AnswerRequest(b, now, m);
    forall e | e in n'.out && e.Transmit? ensures Justified(n, n', e.msg, cause) {
      assert e == n'.out[|b.out|];
      assert OwnReply(n', e.msg.rp, cause);
    }
  }

  /** The answer from the table: the effect, and what the two precursor lists leave unchanged. */
  lemma TableAnswerShape(b: Node, now: real, m: Request)
    requires m.src in b.table && m.dst != b.id
    requires m.dst in b.table && Usable(b.table[m.dst]) && b.table[m.dst].seqno >= m.dstSeqno
    ensures var r := b.table[m.dst];
            var b1 := AddPrecursor(b, m.dst, b.table[m.src].nexthop);
            var b2 := AddPrecursor(b1, m.src, r.nexthop);
            && AnswerRequest(b, now, m) ==
               Emit(b2, Transmit(b.table[m.src].nexthop,
                                 Rrep(Reply(b.id, NETWORK_DIAMETER, Byte(r.hops + 1), m.src, m.dst, r.seqno,
                                            Whole(r.expire - now), m.stamp))))
            && b2.id == b.id && m.dst in b2.table && SameRoute(r, b2.table[m.dst])
  {
    hide WithPrecursor;
  }

  lemma AnswerFromTable(n: Node, b: Node, now: real, m: Request, cause: Option<Message>)
    requires Received(n, b, cause) && Even(n.seqno) && m.src in b.table && m.dst != b.id
    requires m.dst in b.table && Usable(b.table[m.dst]) && b.table[m.dst].seqno >= m.dstSeqno
    requires cause.Some? && cause.value.Rreq? && m == cause.value.rq.(ttl := m.ttl)
    ensures Legal(n, AnswerRequest(b, now, m), cause)
  {
    hide Legal, Received, AnswerRequest, WithPrecursor;
    var r := b.table[m.dst];
    var b1 := AddPrecursor(b, m.dst, b.table[m.src].nexthop);
    var b2 := AddPrecursor(b1, m.src, r.nexthop);
    PrecursorReceived(n, b, m.dst, b.table[m.src].nexthop, cause);
    PrecursorReceived(n, b1, m.src, r.nexthop, cause);
    TableAnswerShape(b, now, m);
    var q := Reply(b.id, NETWORK_DIAMETER, Byte(r.hops + 1), m.src, m.dst, r.seqno, Whole(r.expire - now), m.stamp);
    var n' := Emit(b2, Transmit(b.table[m.src].nexthop, Rrep(q)));
    assert OwnReply(n', q, cause);
    EmitLegal(n, b2, b.table[m.src].nexthop, Rrep(q), cause);
  }

  lemma AnswerByRelay(n: Node, b: Node, m: Request, cause: Option<Message>)
    requires Received(n, b, cause) && Even(n.seqno) && m.dst != b.id && m.src != b.id
    requires cause.Some? && cause.value.Rreq? && m == cause.value.rq.(ttl := cause.value.rq.ttl - 1)
    requires m.src in b.table && AtLeast(b.table[m.src], m.srcSeqno, m.hops)
    requires !InCache(n.cache, m.src, m.bid) && InCache(b.cache, m.src, m.bid)
    ensures Legal(n, RelayRequest(b, m), cause)
  {
    hide Legal;
    var seqno := if m.dst in b.table then Max(b.table[m.dst].seqno, m.dstSeqno) else m.dstSeqno;
    var q := m.(from := b.id, hops := Byte(m.hops + 1), dstSeqno := seqno);
    var n' := RelayRequest(b, m);
    if m.ttl == 0 {
      assert forall e :: e in n'.out ==> e in b.out || e == Discard(Rreq(q), TtlExpired);
      QuietLegal(n, n', cause);
    } else {
      assert RelayedRequest(n, n', q, cause);
      EmitLegal(n, b, BROADCAST, Rreq(q), cause);
    }
  }

  lemma CacheInsertKeeps(n: Node, src: Addr, bid: nat, now: real)
    ensures CacheKept(n, CacheInsert(n, src, bid, now)) && InCache(CacheInsert(n, src, bid, now).cache, src, bid)
  {
    var n0 := CacheInsert(n, src, bid, now);
    assert n0.cache[0].src == src && n0.cache[0].bid == bid;
    assert forall k :: 0 <= k < |n.cache| ==> n0.cache[k + 1] == n.cache[k];
  }

  lemma AnswerRequestLegal(n: Node, b: Node, now: real, m: Request, cause: Option<Message>)
    requires Received(n, b, cause) && Even(n.seqno) && m.src != b.id
    requires cause.Some? && cause.value.Rreq? && m == cause.value.rq.(ttl := cause.value.rq.ttl - 1)
    requires m.src in b.table && AtLeast(b.table[m.src], m.srcSeqno, m.hops)
    requires !InCache(n.cache, m.src, m.bid) && InCache(b.cache, m.src, m.bid)
    ensures Legal(n, AnswerRequest(b, now, m), cause)
  {
    hide Legal;
    if m.dst == b.id {
      AnswerAsDestination(n, b, now, m, cause);
    } else if m.dst in b.table && Usable(b.table[m.dst]) && b.table[m.dst].seqno >= m.dstSeqno {
      AnswerFromTable(n, b, now, m, cause);
    } else {
      AnswerByRelay(n, b, m, cause);
    }
  }

  lemma AnswerRequestCache(b: Node, now: real, m: Request)
    requires m.src in b.table
    ensures AnswerRequest(b, now, m).cache == b.cache
  {
  }

  lemma RecvNewRequestLegal(n: Node, now: real, m: Request, cause: Option<Message>)
    requires NodeSound(n) && n.out == [] && m.src != n.id && !InCache(n.cache, m.src, m.bid)
    requires cause.Some? && cause.value.Rreq? && m == cause.value.rq.(ttl := cause.value.rq.ttl - 1)
    ensures var n1 := EnsureRoute(CacheInsert(n, m.src, m.bid, now), m.src);
            Legal(n, AnswerRequest(ReverseRoute(n1, now, m), now, m), cause)
            && ReverseRoute(n1, now, m).cache == n1.cache
  {
    hide ReverseRoute, AnswerRequest, Legal;
    CacheInsertKeeps(n, m.src, m.bid, now);
    EnsureRouteReceived(n, m.src, cause);
    var n1 := EnsureRoute(CacheInsert(n, m.src, m.bid, now), m.src);
    ReverseRouteReceived(n, n1, now, m, cause);
    AnswerRequestLegal(n, ReverseRoute(n1, now, m), now, m, cause);
  }

  lemma RecvRequestLegal(n: Node, now: real, p: Request)
    requires NodeSound(n) && n.out == []
    ensures Legal(n, RecvRequest(n, now, p.(ttl := p.ttl - 1)), Some(Rreq(p)))
    ensures CacheKept(n, RecvRequest(n, now, p.(ttl := p.ttl - 1)))
  {
    hide ReverseRoute, AnswerRequest, Legal;
    var m := p.(ttl := p.ttl - 1);
    if m.src == n.id || InCache(n.cache, m.src, m.bid) {
      QuietLegal(n, n, Some(Rreq(p)));
    } else {
      CacheInsertKeeps(n, m.src, m.bid, now);
      RecvNewRequestLegal(n, now, m, Some(Rreq(p)));
      var n1 := EnsureRoute(CacheInsert(n, m.src, m.bid, now), m.src);
      AnswerRequestCache(ReverseRoute(n1, now, m), now, m);
    }
  }

  /** The state of a relaying node before the reply goes out. */
  function ReadyToRelay(b: Node, now: real, m: Reply): Node
    requires m.dst in b.table && m.to in b.table
  {
    var r := b.table[m.to];
    AddPrecursor(SetRoute(b, m.to, r.(expire := now + ACTIVE_ROUTE_TIMEOUT)), m.dst, r.nexthop)
      .(failed := RelayReply(b, now, m).failed)
  }

  lemma RelayReplyShape(b: Node, now: real, m: Reply)
    requires m.dst in b.table && m.to in b.table && Usable(b.table[m.to]) && m.ttl != 0
    ensures RelayReply(b, now, m) ==
            Emit(ReadyToRelay(b, now, m),
                 Transmit(b.table[m.to].nexthop, Rrep(m.(hops := Byte(m.hops + 1), from := b.id))))
  {
  }

  lemma ReadyToRelayReceived(n: Node, b: Node, now: real, m: Reply, cause: Option<Message>)
    requires Received(n, b, cause) && m.dst in b.table && m.to in b.table
    ensures var c := ReadyToRelay(b, now, m);
            Received(n, c, cause) && m.dst in c.table && SameRoute(b.table[m.dst], c.table[m.dst]) && c.id == b.id
  {
    hide RelayReply;
    var r := b.table[m.to];
    var b1 := SetRoute(b, m.to, r.(expire := now + ACTIVE_ROUTE_TIMEOUT));
    SetRouteReceived(n, b, m.to, b1.table[m.to], cause);
    PrecursorReceived(n, b1, m.dst, r.nexthop, cause);
  }

  lemma TransmitReplyLegal(n: Node, b: Node, now: real, m: Reply, cause: Option<Message>)
    requires Received(n, b, cause) && Even(n.seqno) && m.dst in b.table && m.to != b.id && m.ttl != 0
    requires cause.Some? && cause.value.Rrep? && m == cause.value.rp.(ttl := cause.value.rp.ttl - 1)
    requires b.table[m.dst].seqno == m.dstSeqno && b.table[m.dst].hops == m.hops
    requires Better(m.dstSeqno, m.hops, RouteOf(n, m.dst))
    requires m.to in b.table && Usable(b.table[m.to])
    ensures Legal(n, RelayReply(b, now, m), cause)
  {
    hide Legal, RelayReply, ReadyToRelay;
    var q := m.(hops := Byte(m.hops + 1), from := b.id);
    var c := ReadyToRelay(b, now, m);
    RelayReplyShape(b, now, m);
    ReadyToRelayReceived(n, b, now, m, cause);
    assert RelayedReply(n, Emit(c, Transmit(b.table[m.to].nexthop, Rrep(q))), q, cause);
    EmitLegal(n, c, b.table[m.to].nexthop, Rrep(q), cause);
  }

  lemma RelayReplyLegal(n: Node, b: Node, now: real, m: Reply, cause: Option<Message>)
    requires Received(n, b, cause) && Even(n.seqno) && m.dst in b.table && m.to != b.id
    requires cause.Some? && cause.value.Rrep? && m == cause.value.rp.(ttl := cause.value.rp.ttl - 1)
    requires b.table[m.dst].seqno == m.dstSeqno && b.table[m.dst].hops == m.hops
    requires Better(m.dstSeqno, m.hops, RouteOf(n, m.dst))
    ensures Legal(n, RelayReply(b, now, m), cause)
  {
    hide Legal;
    if m.to in b.table && Usable(b.table[m.to]) && m.ttl != 0 {
      TransmitReplyLegal(n, b, now, m, cause);
    } else {
      if m.to in b.table {
        PrecursorReceived(n, b, m.dst, b.table[m.to].nexthop, cause);
      }
      QuietLegal(n, RelayReply(b, now, m), cause);
    }
  }

  /** The forward-route half, for a reply that is accepted. */
  lemma ForwardRouteReceived(n: Node, b: Node, now: real, m: Reply, cause: Option<Message>)
    requires Received(n, b, cause) && m.dst in b.table && b.table[m.dst] == RouteOf(n, m.dst)
    requires cause.Some? && cause.value.Rrep? && m == cause.value.rp.(ttl := m.ttl)
    requires Better(m.dstSeqno, m.hops, b.table[m.dst])
    ensures var c := ForwardRoute(b, now, m);
            Received(n, c, cause) && c.cache == b.cache &&
            c.table[m.dst].seqno == m.dstSeqno && c.table[m.dst].hops == m.hops
  {
    hide Drain;
    var r1 := ForwardEntry(b.table[m.dst], b.id, now, m);
    SetRouteReceived(n, b, m.dst, r1, cause);
    var b1 := SetRoute(b, m.dst, r1);
    var how := ReplyDisposal(m);
    DrainSilent(b1, m.dst, now, how);
    SilentKeepsReceived(n, b1, Drain(b1, m.dst, now, how), cause);
  }

  lemma RecvReplyLegal(n: Node, now: real, p: Reply)
    requires NodeSound(n) && n.out == []
    ensures Legal(n, RecvReply(n, now, p.(ttl := p.ttl - 1)), Some(Rrep(p)))
    ensures RecvReply(n, now, p.(ttl := p.ttl - 1)).cache == n.cache
  {
    hide RelayReply, ForwardRoute, Legal;
    var m := p.(ttl := p.ttl - 1);
    var cause := Some(Rrep(p));
    EnsureRouteReceived(n, m.dst, cause);
    var n1 := EnsureRoute(n, m.dst);
    if Better(m.dstSeqno, m.hops, n1.table[m.dst]) {
      ForwardRouteReceived(n, n1, now, m, cause);
      var b := ForwardRoute(n1, now, m);
      if m.to == n.id {
        QuietLegal(n, b, cause);
      } else {
        RelayReplyLegal(n, b, now, m, cause);
        RelayReplyCache(b, now, m);
      }
    } else {
      QuietLegal(n, n1, cause);
    }
  }

  lemma RelayReplyCache(b: Node, now: real, m: Reply)
    requires m.dst in b.table
    ensures RelayReply(b, now, m).cache == b.cache
  {
  }

  /* What the halves of the receive handlers send. */

  lemma ReverseRouteSendsNothing(n: Node, now: real, m: Request)
    requires n.out == [] && m.src in n.table
    ensures forall x :: x in ReverseRoute(n, now, m).out ==> !x.Transmit?
    ensures ReverseRoute(n, now, m).id == n.id
  {
    hide Drain;
    var r2 := ReverseEntry(n.table[m.src], now, m);
    DrainSilent(SetRoute(n, m.src, r2), m.src, now, ForwardIt);
  }

  lemma ForwardRouteSendsNothing(n: Node, now: real, m: Reply)
    requires n.out == [] && m.dst in n.table
    ensures forall x :: x in ForwardRoute(n, now, m).out ==> !x.Transmit?
  {
    hide Drain;
    var r1 := ForwardEntry(n.table[m.dst], n.id, now, m);
    DrainSilent(SetRoute(n, m.dst, r1), m.dst, now, ReplyDisposal(m));
  }

  lemma RelayReplySends(n: Node, now: real, m: Reply)
    requires m.dst in n.table && forall x :: x in n.out ==> !x.Transmit?
    ensures forall x :: x in RelayReply(n, now, m).out && x.Transmit? ==> x.msg.Rrep?
  {
  }

  /* ---------- errors and link failures ---------- */

  /** A state inside the error loop: some listed routes via the sender are down. */
  ghost predicate Erring(n: Node, b: Node, acc: seq<Lost>, cause: Option<Message>) {
    && SameFrame(n, b) && b.out == n.out && b.seqno == n.seqno && b.bid == n.bid
    && (forall d :: d in n.table ==> RouteStep(n.table[d], b.table[d], d, cause, n.localRepair)
                                     && (n.table[d] == b.table[d] || !Usable(b.table[d])))
    && (forall l :: l in acc ==> IsDown(b, l))
  }

  lemma BrokenRouteStep(r: Route, re: RouteError, l: Lost, localRepair: bool)
    requires RouteSound(r) && l in re.lost && Usable(r) && r.seqno <= l.seqno
    ensures var r1 := Downed(r.(seqno := l.seqno)).(precursors := []);
            RouteStep(r, r1, l.dst, Some(Rerr(re)), localRepair)
            && r1.flag == Down && !Usable(r1) && r1.seqno == l.seqno
  {
    assert ErrorNamed(Some(Rerr(re)), l.dst, l.seqno);
  }

  lemma ErrorEntryStep(n: Node, b: Node, acc: seq<Lost>, re: RouteError, l: Lost)
    requires NodeSound(n) && l in re.lost
    requires Erring(n, b, acc, Some(Rerr(re)))
    ensures Erring(n, ErrorEntry(b, re.from, l).0, acc + ErrorEntry(b, re.from, l).1, Some(Rerr(re)))
  {
    if Breaks(b, re.from, l) {
      var r := b.table[l.dst];
      assert n.table[l.dst] == r;
      BrokenRouteStep(r, re, l, n.localRepair);
      var r1 := Downed(r.(seqno := l.seqno)).(precursors := []);
      var b1 := ErrorEntry(b, re.from, l).0;
      assert b1.table == b.table[l.dst := r1];
      forall x | x in acc + ErrorEntry(b, re.from, l).1
        ensures IsDown(b1, x)
      {
        if x in acc {
          assert x.dst != l.dst;
        }
      }
    }
  }

  lemma {:induction false} ErrorScanStep(n: Node, re: RouteError, lost: seq<Lost>)
    requires NodeSound(n) && (forall l :: l in lost ==> l in re.lost)
    ensures Erring(n, ErrorScan(n, re.from, lost).0, ErrorScan(n, re.from, lost).1, Some(Rerr(re)))
  {
    if lost != [] {
      var k := |lost| - 1;
      ErrorScanStep(n, re, lost[..k]);
      var (n1, acc) := ErrorScan(n, re.from, lost[..k]);
      ErrorEntryStep(n, n1, acc, re, lost[k]);
    }
  }

  lemma RecvErrorLegal(n: Node, re: RouteError)
    requires NodeSound(n) && n.out == []
    ensures Legal(n, RecvError(n, re), Some(Rerr(re)))
    ensures RecvError(n, re).cache == n.cache
  {
    ErrorScanStep(n, re, re.lost);
    var (n1, acc) := ErrorScan(n, re.from, re.lost);
    if acc != [] {
      var n' := SendError(n1, acc);
      assert OwnError(n', RouteError(n1.id, acc));
      assert n'.out == [Transmit(BROADCAST, Rerr(RouteError(n1.id, acc)))];
    }
  }

  /** The error of a link failure lists exactly the destinations routed via the neighbour. */
  lemma {:induction false} LostViaExact(order: seq<Addr>, table: map<Addr, Route>, id: Addr)
    ensures forall l :: l in LostVia(order, table, id) <==>
              l.dst in order && l.dst in table && RoutedVia(table[l.dst], id) && l.seqno == table[l.dst].seqno + 1
  {
    if order != [] {
      var k := |order| - 1;
      LostViaExact(order[..k], table, id);
      assert order == order[..k] + [order[k]];
    }
  }

  lemma AfterLinkFailureStep(r: Route, d: Addr, id: Addr, localRepair: bool)
    requires RouteSound(r)
    ensures RouteStep(r, AfterLinkFailure(r, id), d, None, localRepair)
    ensures RoutedVia(r, id) ==> !Usable(AfterLinkFailure(r, id)) && AfterLinkFailure(r, id).seqno == r.seqno + 1
    ensures RoutedVia(r, id) ==> AfterLinkFailure(r, id).flag == Down
    ensures !RoutedVia(r, id) ==> SameRoute(r, AfterLinkFailure(r, id))
  {
    WithoutFirstRemoves(r.precursors, id);
  }

  lemma LinkFailureRoutes(n: Node, table: map<Addr, Route>, id: Addr)
    requires NodeSound(n) && table == TableAfterLinkFailure(n.table, id)
    ensures forall d :: d in table ==> RouteStep(RouteOf(n, d), table[d], d, None, n.localRepair)
    ensures forall l :: l in LostVia(n.order, n.table, id) ==>
              IsDown(n.(table := table), l)
  {
    LostViaExact(n.order, n.table, id);
    forall d | d in n.table
      ensures RouteStep(n.table[d], table[d], d, None, n.localRepair)
      ensures RoutedVia(n.table[d], id) ==>
                table[d].flag == Down && !Usable(table[d]) && table[d].seqno == n.table[d].seqno + 1
    {
      AfterLinkFailureStep(n.table[d], d, id, n.localRepair);
    }
  }

  lemma HandleLinkFailureLegal(n: Node, b: Node, id: Addr)
    requires NodeSound(n) && n.out == [] && b == n.(seqno := b.seqno, out := b.out, failed := b.failed)
    requires b.seqno >= n.seqno && Even(b.seqno) && (forall e :: e in b.out ==> !e.Transmit?)
    ensures Legal(n, HandleLinkFailure(b, id), None)
  {
    hide LostVia, AfterLinkFailure;
    var n' := HandleLinkFailure(b, id);
    var re := RouteError(b.id, LostVia(b.order, b.table, id));
    LinkFailureRoutes(n, n'.table, id);
    assert OwnError(n', re);
    assert forall e :: e in n'.out ==> e in b.out || e == Transmit(BROADCAST, Rerr(re));
  }

  /* ---------- data packets, timers, repair ---------- */

  lemma RtResolveLegal(n: Node, b: Node, now: real, pkt: Data)
    requires NodeSound(n) && n.out == [] && b == n
    ensures Legal(n, RtResolve(b, now, pkt), None)
  {
    hide Legal;
    var n1 := EnsureRoute(n, pkt.dst);
    EnsureRouteReceived(n, pkt.dst, None);
    EnsureRouteSound(n, pkt.dst);
    var r := n1.table[pkt.dst];
    var n' := RtResolve(b, now, pkt);
    if r.flag == Up {
      var n2 := Check(n1, Usable(r));
      ForwardViaSilent(n2, pkt.dst, pkt, now);
      SilentKeepsReceived(n, n2, n', None);
      QuietLegal(n, n', None);
    } else if pkt.src == n.id {
      AskAfterEnqueueLegal(n, n1, now, pkt);
    } else if r.flag == InRepair {
      EnqueueSilent(n1, pkt, now);
      SilentKeepsReceived(n, n1, n', None);
      QuietLegal(n, n', None);
    } else {
      NoRouteLegal(n, n1, pkt);
    }
  }

  lemma EnsureRouteSound(n: Node, d: Addr)
    requires NodeSound(n)
    ensures NodeSound(EnsureRoute(n, d))
  {
    if d !in n.table {
      PrependKeepsDistinct(n.order, d);
    }
  }

  lemma NoRouteLegal(n: Node, n1: Node, pkt: Data)
    requires NodeSound(n) && n.out == [] && n1 == EnsureRoute(n, pkt.dst) && Received(n, n1, None) && NodeSound(n1)
    requires n1.table[pkt.dst].flag == Down
    ensures var lost := [Lost(pkt.dst, n1.table[pkt.dst].seqno)];
            Legal(n, Emit(SendError(Check(n1, true), lost), Drop(pkt, NoRoute)), None)
  {
    var re := RouteError(n1.id, [Lost(pkt.dst, n1.table[pkt.dst].seqno)]);
    var n' := Emit(SendError(Check(n1, true), re.lost), Drop(pkt, NoRoute));
    assert n'.out == [Transmit(BROADCAST, Rerr(re)), Drop(pkt, NoRoute)];
    assert RouteSound(n1.table[pkt.dst]);
    assert OwnError(n', re);
  }

  /** Own steps on top of a freshly added entry. */
  lemma OwnAfterEnsureLegal(n: Node, n1: Node, d: Addr, c: Node)
    requires NodeSound(n) && n.out == [] && n1 == EnsureRoute(n, d) && Received(n, n1, None) && Own(n1, c)
    ensures Legal(n, c, None)
  {
    forall e | e in c.out && e.Transmit? ensures Justified(n, c, e.msg, None) {
      var k :| 0 <= k < |c.out| && c.out[k] == e;
      assert OwnRequest(n1, c, c.out[k].msg.rq);
    }
    forall x | x in c.table ensures RouteStep(RouteOf(n, x), c.table[x], x, None, n.localRepair) {
      assert x in n1.table;
      assert n1.table[x] == RouteOf(n, x);
    }
  }

  lemma AskAfterEnqueueLegal(n: Node, n1: Node, now: real, pkt: Data)
    requires NodeSound(n) && n.out == [] && n1 == EnsureRoute(n, pkt.dst) && Received(n, n1, None) && NodeSound(n1)
    ensures Legal(n, SendRequest(Enqueue(n1, pkt, now), pkt.dst, now), None)
  {
    hide Legal;
    var n2 := Enqueue(n1, pkt, now);
    EnqueueSilent(n1, pkt, now);
    SilentIsOwn(n1, n2);
    OwnKeepsNodeSound(n1, n2);
    SendRequestOwn(n2, pkt.dst, now);
    OwnTransitive(n1, n2, SendRequest(n2, pkt.dst, now));
    OwnAfterEnsureLegal(n, n1, pkt.dst, SendRequest(n2, pkt.dst, now));
  }

  lemma OneEffectLegal(n: Node, e: Effect, failed: bool)
    requires NodeSound(n) && n.out == [] && !e.Transmit?
    ensures Legal(n, n.(out := [e], failed := failed), None)
  {
  }

  lemma RecvDataLegal(n: Node, now: real, pkt: Data)
    requires NodeSound(n) && n.out == []
    ensures Legal(n, RecvData(n, now, pkt), None)
  {
    hide RtResolve, Legal;
    var n' := RecvData(n, now, pkt);
    var p := if pkt.src != n.id then pkt.(ttl := pkt.ttl - 1)
             else if pkt.dst != BROADCAST then pkt.(ttl := NETWORK_DIAMETER)
             else pkt;
    if (pkt.src != n.id || pkt.forwards == 0) && (pkt.src == n.id || p.ttl != 0) && pkt.dst != BROADCAST {
      RtResolveLegal(n, n, now, p);
    } else {
      assert n' == n.(out := [n'.out[0]], failed := n'.failed) && !n'.out[0].Transmit?;
      OneEffectLegal(n, n'.out[0], n'.failed);
    }
  }

  lemma RtPurgeLegal(n: Node, now: real)
    requires NodeSound(n) && n.out == []
    ensures Legal(n, RtPurge(n, now), None) && RtPurge(n, now).cache == n.cache
  {
    PurgeAllOwn(n, n.order, now);
    OwnIsLegal(n, RtPurge(n, now));
  }

  lemma IdPurgeLegal(n: Node, now: real)
    requires NodeSound(n) && n.out == []
    ensures Legal(n, IdPurge(n, now), None)
  {
  }

  lemma StartRepairLegal(n: Node, now: real, pkt: Data)
    requires NodeSound(n) && n.out == [] && pkt.dst in n.table && n.localRepair
    ensures Legal(n, StartRepair(n, now, pkt), None)
  {
    hide SendRequest;
    var n1 := Enqueue(n, pkt, now);
    EnqueueSilent(n, pkt, now);
    var n2 := SetRoute(n1, pkt.dst, n1.table[pkt.dst].(flag := InRepair));
    assert SameRoute(n.table[pkt.dst], n1.table[pkt.dst]);
    SilentIsOwn(n, n1);
    OwnKeepsNodeSound(n, n1);
    assert NodeSound(n2);
    SendRequestOwn(n2, pkt.dst, now);
    var c := SendRequest(n2, pkt.dst, now);
    forall e | e in c.out && e.Transmit? ensures Justified(n, c, e.msg, None) {
      var k :| 0 <= k < |c.out| && c.out[k] == e;
      assert k >= |n1.out|;
      assert OwnRequest(n2, c, c.out[k].msg.rq);
    }
    forall x | x in c.table ensures RouteStep(RouteOf(n, x), c.table[x], x, None, n.localRepair) {
      assert SameRoute(n.table[x], n1.table[x]);
    }
  }

  lemma NbDeleteLegal(n: Node, pkt: Data, neighbor: Addr)
    requires NodeSound(n) && n.out == []
    ensures Legal(n, NbDelete(Emit(n, Drop(pkt, MacCallback)), neighbor), None)
  {
    hide HandleLinkFailure, Legal;
    var n1 := Emit(n, Drop(pkt, MacCallback));
    var n2 := n1.(seqno := n1.seqno + 2);
    HandleLinkFailureLegal(n, Check(n2, Even(n2.seqno)), neighbor);
  }

  lemma LinkFailedLegal(n: Node, now: real, pkt: Data, neighbor: Addr)
    requires NodeSound(n) && n.out == []
    ensures Legal(n, LinkFailed(n, now, pkt, neighbor), None)
  {
    hide StartRepair, NbDelete, Legal;
    if pkt.dst == BROADCAST || pkt.dst !in n.table {
      QuietLegal(n, Emit(n, Drop(pkt, MacCallback)), None);
    } else if n.localRepair && pkt.forwards > n.table[pkt.dst].hops {
      StartRepairLegal(n, now, pkt);
    } else {
      NbDeleteLegal(n, pkt, neighbor);
    }
  }

  /* ---------- the cache ---------- */

  lemma SendRequestCache(n: Node, d: Addr, now: real)
    requires d in n.table
    ensures SendRequest(n, d, now).cache == n.cache
  {
    DrainSilent(SetRoute(n, d, GivenUp(n.table[d], now)), d, now, DropIt);
  }

  lemma RtResolveCache(n: Node, now: real, pkt: Data)
    ensures RtResolve(n, now, pkt).cache == n.cache
  {
    hide SendRequest;
    SendRequestCache(Enqueue(EnsureRoute(n, pkt.dst), pkt, now), pkt.dst, now);
  }

  lemma RecvDataCache(n: Node, now: real, pkt: Data)
    ensures RecvData(n, now, pkt).cache == n.cache
  {
    hide RtResolve;
    var p := if pkt.src != n.id then pkt.(ttl := pkt.ttl - 1) else pkt.(ttl := NETWORK_DIAMETER);
    RtResolveCache(n, now, p);
  }

  lemma LinkFailedCache(n: Node, now: real, pkt: Data, neighbor: Addr)
    ensures LinkFailed(n, now, pkt, neighbor).cache == n.cache
  {
    hide SendRequest, Enqueue;
    EnqueueSilent(n, pkt, now);
    if pkt.dst in n.table {
      var n1 := Enqueue(n, pkt, now);
      SendRequestCache(SetRoute(n1, pkt.dst, n1.table[pkt.dst].(flag := InRepair)), pkt.dst, now);
    }
  }

  /** A local repair fails: the repair timer finds the route still in use under repair and takes it
      down at an unchanged number. */
  predicate RepairFails(n: Node, input: Input) {
    input.RepairTimer? && input.dst in n.table && n.table[input.dst].flag == InRepair && Usable(n.table[input.dst])
  }

  /** The step that is not legal: the repair timer takes down a route that is in use or carries a live
      number. If the node obeys `NodeOk`, these are the failed repairs. */
  predicate RepairSpoils(n: Node, input: Input) {
    && input.RepairTimer? && input.dst in n.table && n.table[input.dst].flag == InRepair
    && (Usable(n.table[input.dst]) || LiveNumber(n.table[input.dst].seqno))
  }

  lemma SpoilingIsFailing(n: Node, input: Input)
    requires NodeOk(n)
    ensures RepairSpoils(n, input) <==> RepairFails(n, input)
  {
  }

  function CauseOf(input: Input): Option<Message> {
    match input
    case Hear(m) => Some(m)
    case _ => None
  }

  lemma RepairTimeoutLegal(n: Node, dst: Addr)
    requires NodeSound(n) && n.out == [] && !RepairSpoils(n, RepairTimer(dst))
    ensures Legal(n, RepairTimeout(n, dst), None)
  {
    if dst in n.table && n.table[dst].flag != Up {
      assert RouteStep(n.table[dst], Downed(n.table[dst]), dst, None, n.localRepair);
    }
  }

  lemma HearRequestLegal(n: Node, now: real, rq: Request)
    requires NodeSound(n) && n.out == []
    ensures Legal(n, RecvAodv(n, now, Rreq(rq)), Some(Rreq(rq))) && CacheKept(n, RecvAodv(n, now, Rreq(rq)))
  {
    hide RecvRequest;
    RecvRequestLegal(n, now, rq);
  }

  lemma HearReplyLegal(n: Node, now: real, rp: Reply)
    requires NodeSound(n) && n.out == []
    ensures Legal(n, RecvAodv(n, now, Rrep(rp)), Some(Rrep(rp))) && CacheKept(n, RecvAodv(n, now, Rrep(rp)))
  {
    hide RecvReply;
    RecvReplyLegal(n, now, rp);
  }

  lemma HearErrorLegal(n: Node, now: real, re: RouteError)
    requires NodeSound(n) && n.out == []
    ensures Legal(n, RecvAodv(n, now, Rerr(re)), Some(Rerr(re))) && CacheKept(n, RecvAodv(n, now, Rerr(re)))
  {
    RecvErrorLegal(n, re);
  }

  lemma HearLegal(n: Node, now: real, m: Message)
    requires NodeSound(n) && n.out == []
    ensures Legal(n, RecvAodv(n, now, m), Some(m)) && CacheKept(n, RecvAodv(n, now, m))
  {
    match m
    case Rreq(rq) => HearRequestLegal(n, now, rq);
    case Rrep(rp) => HearReplyLegal(n, now, rp);
    case Rerr(re) => HearErrorLegal(n, now, re);
  }

  lemma TimerLegal(n: Node, now: real, input: Input)
    requires NodeSound(n) && n.out == [] && !RepairSpoils(n, input)
    requires input.RouteTimer? || input.CacheTimer? || input.RepairTimer?
    ensures Legal(n, Handle(n, now, input), None)
    ensures !input.CacheTimer? ==> CacheKept(n, Handle(n, now, input))
  {
    match input
    case RouteTimer => RtPurgeLegal(n, now);
    case CacheTimer => IdPurgeLegal(n, now);
    case RepairTimer(dst) => RepairTimeoutLegal(n, dst);
  }

  /** Every handler run is legal, unless a repair timer spoils the number of a route in it, and only
      the cache timer removes broadcast ids. */
  lemma HandleLegal(n: Node, now: real, input: Input)
    requires NodeSound(n) && n.out == [] && !RepairSpoils(n, input)
    ensures Legal(n, Handle(n, now, input), CauseOf(input))
    ensures !input.CacheTimer? ==> CacheKept(n, Handle(n, now, input))
  {
    if input.Hear? {
      HearLegal(n, now, input.msg);
    } else if input.Packet? {
      RecvDataLegal(n, now, input.pkt);
      RecvDataCache(n, now, input.pkt);
    } else if input.LinkDown? {
      LinkFailedLegal(n, now, input.pkt, input.neighbor);
      LinkFailedCache(n, now, input.pkt, input.neighbor);
    } else {
      TimerLegal(n, now, input);
    }
  }

  lemma LegalRoute(n: Node, n': Node, cause: Option<Message>, d: Addr)
    requires Legal(n, n', cause) && d in n'.table
    ensures RouteStep(RouteOf(n, d), n'.table[d], d, cause, n.localRepair)
  {
  }

  lemma LegalMessage(n: Node, n': Node, cause: Option<Message>, e: Effect)
    requires Legal(n, n', cause) && e in n'.out && e.Transmit?
    ensures Justified(n, n', e.msg, cause)
  {
  }

  lemma LegalFrame(n: Node, n': Node, cause: Option<Message>)
    requires Legal(n, n', cause)
    ensures n'.id == n.id && n'.localRepair == n.localRepair
  {
  }

  lemma LegalKeepsNodeSound(n: Node, n': Node, cause: Option<Message>)
    requires NodeSound(n) && Legal(n, n', cause)
    ensures NodeSound(n')
  {
    forall d | d in n'.table ensures RouteSound(n'.table[d]) && (n'.table[d].flag == InRepair ==> n'.localRepair) {
      assert RouteSound(RouteOf(n, d));
      assert RouteStep(RouteOf(n, d), n'.table[d], d, cause, n.localRepair);
    }
  }

  /** The hop counts of what was heard, where the node takes a route from it, are real ones. */
  predicate CauseFits(n: Node, cause: Option<Message>) {
    cause.Some? ==>
      match cause.value
      case Rreq(q) => 1 <= q.hops < INFINITY2
      case Rrep(q) => Better(q.dstSeqno, q.hops, RouteOf(n, q.dst)) ==> 1 <= q.hops < INFINITY2
      case Rerr(_) => true
  }

  lemma LegalKeepsNodeOk(n: Node, n': Node, cause: Option<Message>)
    requires NodeOk(n) && Legal(n, n', cause) && CauseOk(cause) && CauseFits(n, cause)
    ensures NodeOk(n')
  {
    LegalKeepsNodeSound(n, n', cause);
    forall d | d in n'.table ensures RouteOk(n'.table[d]) {
      assert RouteOk(RouteOf(n, d));
      assert RouteStep(RouteOf(n, d), n'.table[d], d, cause, n.localRepair);
    }
  }
}
