/** Route discovery: replies are as fresh as what the originator asked for and are accepted, and an
    originator that gets no answer stops after a bounded number of requests. */
module Discovery {
  import opened Types
  import opened RouteTable
  import opened SendBuffer
  import opened Handlers
  import opened LocalSteps
  import opened Network
  import opened Baseline
  import opened Parity
  import opened Order
  import opened Ledger
  import opened Effects
  import opened ReplyEffects
  import opened Requests

  /* ---------- freshness of answers ---------- */

  /** Every reply in flight, through all updates on the way, carries a number at least as large as
      the one in the originator's entry when it asked; so does every request. On every run. */
  lemma AnswersAreFresh(states: seq<Net>, actions: seq<Action>, k: nat, f: Flight)
    requires Run(states, actions) && k < |states| && f in states[k].air
    ensures f.msg.Rrep? ==> f.msg.rp.dstSeqno >= f.asked
    ensures f.msg.Rreq? ==> f.msg.rq.dstSeqno >= f.asked
  {
    RunBase(states, actions, k);
    assert FlightBase(states[k], f);
  }

  /** The reply `p` was taken: the route is up with the reply's number and hop count, via its sender, and
      no packet waits for it any more. It is usable unless the hop count means "no route". It lasts for
      the lifetime offered, or as long as a route that was just used if a waiting packet left along it. */
  ghost predicate Accepted(n: Node, n': Node, p: Reply, now: real) {
    && p.dst in n'.table && n'.table[p.dst].flag == Up
    && n'.table[p.dst].seqno == p.dstSeqno && n'.table[p.dst].hops == p.hops && n'.table[p.dst].nexthop == p.from
    && (Usable(n'.table[p.dst]) <==> p.hops != INFINITY2) && !HasPacketFor(n'.buffer, p.dst)
    && n'.table[p.dst].expire == now + (if AnyLeaves(n.id, Carried(n, now, p)) then 10.0 else p.lifetime)
    && (NodeSound(n') ==> Lasts(n', p.dst))
  }

  /** No route purge takes the route down before it expires. */
  ghost predicate Lasts(n: Node, d: Addr)
    requires d in n.table
  {
    forall later :: later <= n.table[d].expire ==> SurvivesPurge(n, d, later)
  }

  predicate SurvivesPurge(n: Node, d: Addr, later: real)
    requires d in n.table
  {
    var n' := Handle(n, later, RouteTimer);
    d in n'.table && n'.table[d].flag == Up && SameRoute(n.table[d], n'.table[d])
  }

  lemma RouteLastsUntilExpiry(n: Node, d: Addr)
    requires NodeSound(n) && d in n.table && n.table[d].flag == Up
    ensures Lasts(n, d)
  {
    hide Handle, NodeSound;
    forall later | later <= n.table[d].expire ensures SurvivesPurge(n, d, later) {
      RouteSurvivesPurge(n, d, later);
    }
  }

  /** In this action node `i` hears an answer to a question of its own, and its entry has not gone beyond
      what it asked for. */
  predicate HearsAnswer(s: Net, a: Action)
    requires Enabled(s, a)
  {
    && a.Hears? && a.f.msg.Rrep? && a.f.msg.rp.to == a.i
    && a.f.msg.rp.dst in s.nodes[a.i].table && s.nodes[a.i].table[a.f.msg.rp.dst].seqno <= a.f.asked
  }

  /** An originator whose entry is down and unchanged since it asked accepts the first answer: on every
      steady run, in networks of any size. */
  lemma FirstAnswerAccepted(states: seq<Net>, actions: seq<Action>, k: nat)
    requires SteadyRun(states, actions) && k < |actions| && HearsAnswer(states[k], actions[k])
    requires states[k].nodes[actions[k].i].table[actions[k].f.msg.rp.dst].flag == Down
    ensures actions[k].i < |states[k + 1].nodes|
    ensures var i, p := actions[k].i, actions[k].f.msg.rp;
            && Accepted(states[k].nodes[i], states[k + 1].nodes[i], p, actions[k].now)
            && Lasts(states[k + 1].nodes[i], p.dst)
  {
    hide Next, Init, NodeSound, RouteBase, FlightBase, RepairSpoilsAt, Lasts, HasPacketFor, AnyLeaves, Carried;
    var s, a := states[k], actions[k];
    var p := a.f.msg.rp;
    SteadyParity(states, actions, k);
    AnswerIsBetter(s, a);
    AnswerTaken(s, a);
    RunBase(states, actions, k + 1);
  }

  lemma AnswerIsBetter(s: Net, a: Action)
    requires ParityInv(s) && Enabled(s, a) && HearsAnswer(s, a)
    requires s.nodes[a.i].table[a.f.msg.rp.dst].flag == Down
    ensures Better(a.f.msg.rp.dstSeqno, a.f.msg.rp.hops, s.nodes[a.i].table[a.f.msg.rp.dst])
  {
    hide NodeSound, RouteBase;
    assert FlightBase(s, a.f) && MessageParity(a.f.msg) && RouteParity(s.nodes[a.i].table[a.f.msg.rp.dst]);
  }

  /** So does one whose entry is merely unusable, if no repair failed and nobody accepted a reply with a
      wrapped hop count; and then the route is usable. */
  lemma FirstAnswerUsable(states: seq<Net>, actions: seq<Action>, k: nat)
    requires CalmRun(states, actions) && NoLosingReply(states, actions) && k < |actions|
    requires HearsAnswer(states[k], actions[k])
    requires !Usable(states[k].nodes[actions[k].i].table[actions[k].f.msg.rp.dst])
    ensures actions[k].i < |states[k + 1].nodes|
    ensures var i, p := actions[k].i, actions[k].f.msg.rp;
            && Accepted(states[k].nodes[i], states[k + 1].nodes[i], p, actions[k].now)
            && Lasts(states[k + 1].nodes[i], p.dst)
    ensures actions[k].f.msg.rp.hops != INFINITY2
  {
    hide Next, Init, NodeOk, NodeSound, OrderInv, ParityInv, RouteBase, RepairFailsAt;
    hide Lasts, HasPacketFor, AnyLeaves, Carried;
    var s, a := states[k], actions[k];
    var p := a.f.msg.rp;
    OrderlyRun(states, actions, k);
    OrderHasOk(s, a.i);
    EntryOk(s.nodes[a.i], p.dst);
    HeardHolds(s, Some(a.f));
    NextFits(s, a);
    AnswerTaken(s, a);
    RunBase(states, actions, k + 1);
  }

  /** Whatever has happened before: an answer that is better than the entry is taken. */
  lemma AnswerTaken(s: Net, a: Action)
    requires Enabled(s, a) && HearsAnswer(s, a) && s.nodes[a.i].id == a.i
    requires Better(a.f.msg.rp.dstSeqno, a.f.msg.rp.hops, s.nodes[a.i].table[a.f.msg.rp.dst])
    ensures a.i < |Next(s, a).nodes|
    ensures Accepted(s.nodes[a.i], Next(s, a).nodes[a.i], a.f.msg.rp, a.now)
  {
    hide Next, Accepted;
    NextKeepsSize(s, a);
    ActsByHandling(s, a);
    AcceptedForMe(s.nodes[a.i].(out := []), a.now, a.f.msg.rp);
    EffectsAside(s.nodes[a.i], Next(s, a).nodes[a.i], a.f.msg.rp, a.now);
  }

  lemma EffectsAside(n: Node, n': Node, p: Reply, now: real)
    requires Accepted(n.(out := []), n', p, now)
    ensures Accepted(n, n', p, now)
  {
    hide Lasts;
  }

  lemma AcceptedForMe(n: Node, now: real, p: Reply)
    requires p.to == n.id && p.dst in n.table && Better(p.dstSeqno, p.hops, n.table[p.dst])
    ensures Accepted(n, Handle(n, now, Hear(Rrep(p))), p, now)
  {
    hide Handle, HasPacketFor, Live, Aged, PacketsFor, PacketsNotFor, Outcomes, NodeSound, AnyLeaves, Carried, Lasts;
    var b := BetterReplyCloses(n, now, p);
    NoneFor(Live(n.buffer, now), p.dst);
    if NodeSound(b) {
      RouteLastsUntilExpiry(b, p.dst);
    }
  }

  /* ---------- requests on a run ---------- */

  /** The route of node `i` for `d`. */
  function Entry(s: Net, i: nat, d: Addr): Route
    requires i < |s.nodes|
  {
    RouteOf(s.nodes[i], d)
  }

  /** In this action node `i` takes a route for `d` from a message. */
  predicate Learns(s: Net, a: Action, i: nat, d: Addr)
    requires Enabled(s, a)
  {
    !a.Loses? && a.i == i && InstalledBy(Entry(s, i, d), Entry(Next(s, a), i, d), d, CauseOf(InputOf(a)))
  }

  /** In this action node `i` gives up looking for `d`: the full count of requests is set back. */
  predicate GivesUp(s: Net, a: Action, i: nat, d: Addr)
    requires Enabled(s, a)
  {
    && !a.Loses? && a.i == i && !Learns(s, a, i, d)
    && Entry(s, i, d).reqCnt > RREQ_RETRIES && Entry(Next(s, a), i, d).reqCnt == 0
  }

  /** The requests of its own that node `i` sends for `d` in this action. */
  function AskedIn(s: Net, a: Action, i: nat, d: Addr): seq<Request>
    requires Enabled(s, a)
  {
    if a.Loses? || a.i != i then [] else Asks(Next(s, a).nodes[i].out, i, d)
  }

  /** The per-handler result, for every action of a network. */
  lemma ActionRequests(s: Net, a: Action, i: nat, d: Addr)
    requires BaseInv(s) && Enabled(s, a) && !a.Loses? && a.i == i
    ensures RequestStep(s.nodes[i].(out := []), Next(s, a).nodes[i], d, a.now, CauseOf(InputOf(a)))
    ensures RouteOf(s.nodes[i].(out := []), d) == Entry(s, i, d) && s.nodes[i].id == i
  {
    hide Handle, RequestStep, RouteBase, FlightBase;
    assert NodeSound(s.nodes[i]);
    HandleRequests(s.nodes[i].(out := []), a.now, InputOf(a), d);
  }

  /** A request of one's own carries the number of the entry it is made for, and is in flight with
      that tag: what `AnswersAreFresh` compares answers with. */
  lemma RequestCarriesEntry(states: seq<Net>, actions: seq<Action>, k: nat, i: nat, d: Addr, q: Request)
    requires Run(states, actions) && k < |actions| && i < |states[k].nodes|
    requires q in AskedIn(states[k], actions[k], i, d)
    ensures q.dstSeqno == Entry(states[k], i, d).seqno
    ensures exists f :: f in states[k + 1].air && f.msg == Rreq(q) && f.asked == Entry(states[k], i, d).seqno
  {
    hide Next, BaseInv, AskTtl, AskCount, AskTimeout;
    var s, a := states[k], actions[k];
    RunBase(states, actions, k);
    RunBase(states, actions, k + 1);
    ActionRequests(s, a, i, d);
    var n' := Next(s, a).nodes[i];
    var e := AskedIsSent(n'.out, i, d, q);
    assert q.dstSeqno == Entry(s, i, d).seqno;
    SentIsInFlight(s, a, e);
  }

  /** Passing a request on collects: the tag of the copy sent is at least that of the copy heard and at
      least the number in the entry of the node that passes it on. Answering and passing on an answer
      keep the tag. So `AnswersAreFresh` compares answers with the entries of all nodes on the way. */
  lemma RelaysCollect(states: seq<Net>, actions: seq<Action>, k: nat, e: Effect)
    requires Run(states, actions) && k < |actions| && actions[k].Hears? && !actions[k].f.msg.Rerr?
    requires actions[k].i < |states[k + 1].nodes| && e in states[k + 1].nodes[actions[k].i].out
    requires e.Transmit? && !e.msg.Rerr? && (e.msg.Rreq? ==> e.msg.rq.src != actions[k].i)
    ensures exists f :: && f in states[k + 1].air && f.next == e.next && f.msg == e.msg
                        && Collects(states[k + 1].nodes[actions[k].i], actions[k].f, f)
  {
    hide Next, BaseInv, NodeSound;
    var s, a := states[k], actions[k];
    RunBase(states, actions, k + 1);
    assert states[k + 1].nodes[a.i].id == a.i by {
      IdOf(states[k + 1], a.i);
    }
    SentIsInFlight(s, a, e);
  }

  lemma IdOf(s: Net, i: nat)
    requires BaseInv(s) && i < |s.nodes|
    ensures s.nodes[i].id == i
  {
  }

  /** The tag of `f`, sent by `n` for `heard`. */
  predicate Collects(n: Node, heard: Flight, f: Flight) {
    match f.msg
    case Rreq(q) => f.asked == Max(heard.asked, RouteOf(n, q.dst).seqno)
    case _ => f.asked == heard.asked
  }

  lemma {:induction false} AskedIsSent(out: seq<Effect>, id: Addr, d: Addr, q: Request) returns (e: Effect)
    requires q in Asks(out, id, d)
    ensures e in out && e.Transmit? && e.msg == Rreq(q) && q.src == id
  {
    if q in Asks(out[..|out| - 1], id, d) {
      e := AskedIsSent(out[..|out| - 1], id, d, q);
    } else {
      e := out[|out| - 1];
    }
  }

  /* ---------- bounded discovery ---------- */

  /** A request leaves a timeout in the near future: the next one waits for it to pass. */
  lemma RequestTimeout(states: seq<Net>, actions: seq<Action>, k: nat, i: nat, d: Addr)
    requires Run(states, actions) && k < |actions| && i < |states[k].nodes| && i < |states[k + 1].nodes|
    requires AskedIn(states[k], actions[k], i, d) != []
    ensures |AskedIn(states[k], actions[k], i, d)| == 1
    ensures Entry(states[k], i, d).reqTimeout <= actions[k].now < Entry(states[k + 1], i, d).reqTimeout
            <= actions[k].now + MAX_RREQ_TIMEOUT
  {
    hide Next, BaseInv, AskTtl, AskCount, AskTimeout;
    RunBase(states, actions, k);
    ActionRequests(states[k], actions[k], i, d);
    TimeoutAhead(Entry(states[k], i, d), actions[k].now);
  }

  lemma TimeoutAhead(r: Route, now: real)
    ensures now < AskTimeout(r, now) <= now + MAX_RREQ_TIMEOUT
  {
    hide PerHopTime;
    var span := 2.0 * AskTtl(r) as real * PerHopTime(r.history);
    PositiveProduct(2.0 * AskTtl(r) as real, PerHopTime(r.history));
    if AskCount(r) > 0 {
      PositiveProduct(span, AskCount(r) as real);
    }
  }

  lemma PositiveProduct(a: real, b: real)
    requires a > 0.0 && b > 0.0
    ensures a * b > 0.0
  {
  }

  /** Giving up sends nothing, starts a long timeout and leaves no packet for `d` in the buffer. */
  lemma GiveUpEmpties(states: seq<Net>, actions: seq<Action>, k: nat, i: nat, d: Addr)
    requires Run(states, actions) && k < |actions| && i < |states[k].nodes| && i < |states[k + 1].nodes|
    requires GivesUp(states[k], actions[k], i, d)
    ensures AskedIn(states[k], actions[k], i, d) == []
    ensures Entry(states[k + 1], i, d).reqTimeout == actions[k].now + MAX_RREQ_TIMEOUT
    ensures !HasPacketFor(states[k + 1].nodes[i].buffer, d)
  {
    hide Next, BaseInv, AskTtl, AskTimeout;
    RunBase(states, actions, k);
    ActionRequests(states[k], actions[k], i, d);
  }

  /** Expanding-ring and network-wide requests among `qs`. */
  function Rings(qs: seq<Request>): nat {
    if qs == [] then 0 else Rings(qs[..|qs| - 1]) + if qs[|qs| - 1].ttl < NETWORK_DIAMETER then 1 else 0
  }

  function Wides(qs: seq<Request>): nat {
    if qs == [] then 0 else Wides(qs[..|qs| - 1]) + if qs[|qs| - 1].ttl == NETWORK_DIAMETER then 1 else 0
  }

  /** Rings still possible after one with time to live `ttl`. */
  function RingsLeft(ttl: nat): nat {
    if ttl >= TTL_THRESHOLD then 0 else if ttl >= 5 then 1 else if ttl >= 3 then 2 else 3
  }

  /** All requests that node `i` sends for `d` between two points of a run. */
  function RequestsSent(states: seq<Net>, actions: seq<Action>, i: nat, d: Addr, first: nat, last: nat): seq<Request>
    requires first <= last <= |actions| <= |states|
    requires forall k :: 0 <= k < |actions| ==> Enabled(states[k], actions[k])
  {
    if first == last then []
    else RequestsSent(states, actions, i, d, first, last - 1) + AskedIn(states[last - 1], actions[last - 1], i, d)
  }

  /** One request uses up a ring or is counted. */
  lemma OneRequest(r: Route, q: Request)
    requires q.ttl == AskTtl(r)
    ensures q.ttl <= NETWORK_DIAMETER && Rings([q]) + RingsLeft(AskTtl(r)) <= RingsLeft(r.reqLastTtl)
    ensures Wides([q]) + r.reqCnt == AskCount(r)
  {
    assert [q][..0] == [];
  }

  lemma NothingSent(id: Addr, d: Addr)
    ensures Asks([], id, d) == [] && Rings([]) == 0 && Wides([]) == 0
  {
  }

  /** One handler run uses up what it sends, unless it gives up. */
  lemma OneStep(n: Node, n': Node, d: Addr, now: real)
    requires AskStep(n, n', d, now) && n.out == []
    requires RouteOf(n, d).reqCnt > RREQ_RETRIES ==> RouteOf(n', d).reqCnt != 0
    ensures var r, r', qs := RouteOf(n, d), RouteOf(n', d), Asks(n'.out, n.id, d);
            && |qs| <= 1 && (qs != [] ==> qs[0].ttl <= NETWORK_DIAMETER)
            && Rings(qs) + RingsLeft(r'.reqLastTtl) <= RingsLeft(r.reqLastTtl)
            && Wides(qs) + r.reqCnt == r'.reqCnt
  {
    hide Asks, AskTtl, AskCount, AskTimeout, RingsLeft, Rings, Wides;
    var qs := Asks(n'.out, n.id, d);
    NothingSent(n.id, d);
    if AsksOnce(n, n', d, now) {
      assert |qs[..|qs| - 1]| == 0;
      assert qs == [qs[0]];
      OneRequest(RouteOf(n, d), qs[0]);
    }
  }

  /** One action uses up what it sends. */
  lemma OneAction(s: Net, a: Action, i: nat, d: Addr)
    requires BaseInv(s) && Enabled(s, a) && i < |s.nodes| == |Next(s, a).nodes|
    requires !Learns(s, a, i, d) && !GivesUp(s, a, i, d)
    ensures var r, r', qs := Entry(s, i, d), Entry(Next(s, a), i, d), AskedIn(s, a, i, d);
            && |qs| <= 1 && (qs != [] ==> qs[0].ttl <= NETWORK_DIAMETER)
            && Rings(qs) + RingsLeft(r'.reqLastTtl) <= RingsLeft(r.reqLastTtl)
            && Wides(qs) + r.reqCnt == r'.reqCnt
  {
    hide Next, BaseInv, AskStep, Asks, RingsLeft, InstalledBy;
    NextKeepsSize(s, a);
    if !a.Loses? && a.i == i {
      ActionRequests(s, a, i, d);
      OneStep(s.nodes[i].(out := []), Next(s, a).nodes[i], d, a.now);
    }
  }

  lemma CountOneMore(qs: seq<Request>, more: seq<Request>)
    requires |more| <= 1
    ensures Rings(qs + more) == Rings(qs) + Rings(more) && Wides(qs + more) == Wides(qs) + Wides(more)
  {
    if more == [] {
      assert qs + more == qs;
    } else {
      assert (qs + more)[..|qs|] == qs && more[..0] == [];
    }
  }

  /** On every run: from any point on, as long as node `i` neither learns a route for `d` nor gives up,
      it sends at most 3 expanding-ring and RREQ_RETRIES + 1 network-wide requests for `d`. */
  lemma {:induction false} DiscoveryBounded(states: seq<Net>, actions: seq<Action>, i: nat, d: Addr,
                                            first: nat, last: nat)
    requires Run(states, actions) && first <= last <= |actions| && i < |states[0].nodes|
    requires forall k :: first <= k < last ==>
               !Learns(states[k], actions[k], i, d) && !GivesUp(states[k], actions[k], i, d)
    ensures i < |states[first].nodes| == |states[last].nodes|
    ensures var qs := RequestsSent(states, actions, i, d, first, last);
            && Rings(qs) + RingsLeft(Entry(states[last], i, d).reqLastTtl)
               <= RingsLeft(Entry(states[first], i, d).reqLastTtl) <= 3
            && Wides(qs) + Entry(states[first], i, d).reqCnt == Entry(states[last], i, d).reqCnt <= RREQ_RETRIES + 1
            && |qs| == Rings(qs) + Wides(qs)
    decreases last - first
  {
    hide BaseInv, Next, Learns, GivesUp, AskedIn, Init;
    RunBase(states, actions, first);
    RunBase(states, actions, last);
    if first == last {
      RequestCountBounded(states[first], i, d);
    } else {
      DiscoveryBounded(states, actions, i, d, first, last - 1);
      RunBase(states, actions, last - 1);
      OneAction(states[last - 1], actions[last - 1], i, d);
      RequestCountBounded(states[last], i, d);
      var more := AskedIn(states[last - 1], actions[last - 1], i, d);
      CountOneMore(RequestsSent(states, actions, i, d, first, last - 1), more);
      assert |more| == Rings(more) + Wides(more);
    }
  }

  lemma RequestCountBounded(s: Net, i: nat, d: Addr)
    requires BaseInv(s) && i < |s.nodes|
    ensures Entry(s, i, d).reqCnt <= RREQ_RETRIES + 1
  {
    hide RouteBase, FlightBase;
    assert NodeSound(s.nodes[i]);
  }

  /** The count of requests stays within its bound on every run. If no repair fails and nobody accepts a
      reply with a wrapped hop count, the branch for a first request, with TTL_START, is never reached:
      the last hop count is never zero. */
  lemma RequestStateBounded(states: seq<Net>, actions: seq<Action>, k: nat, i: nat, d: Addr)
    requires Run(states, actions) && k < |states| && i < |states[k].nodes|
    ensures Entry(states[k], i, d).reqCnt <= RREQ_RETRIES + 1
    ensures CalmRun(states, actions) && NoLosingReply(states, actions) ==> LastRing(Entry(states[k], i, d)) > 0
  {
    hide OrderInv, BaseInv, Next, RepairFailsAt, LosingReplyAt;
    RunBase(states, actions, k);
    RequestCountBounded(states[k], i, d);
    if CalmRun(states, actions) && NoLosingReply(states, actions) {
      OrderlyRun(states, actions, k);
      OrderHasOk(states[k], i);
      if d in states[k].nodes[i].table {
        EntryOk(states[k].nodes[i], d);
      }
    }
  }
}
