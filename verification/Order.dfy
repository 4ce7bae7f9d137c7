/** Next hops are ahead: the order that keeps routes free of loops, on every run, of any number of
    nodes, in which no repair fails and nobody accepts a reply whose hop count means "no route". */
module Order {
  import opened Types
  import opened RouteTable
  import opened Handlers
  import opened LocalSteps
  import opened Network
  import opened Baseline
  import opened Parity

  /* ---------- time passes ---------- */

  lemma AheadLater(s: Net, s': Net, p: Addr, d: Addr, seqno: nat, hops: nat)
    requires Later(s, s') && Ahead(s, p, d, seqno, hops)
    ensures Ahead(s', p, d, seqno, hops)
  {
  }

  lemma RouteOrderLater(s: Net, s': Net, d: Addr, r: Route)
    requires Later(s, s') && RouteOrder(s, d, r)
    ensures RouteOrder(s', d, r)
  {
    if Usable(r) {
      AheadLater(s, s', r.nexthop, d, r.seqno, r.hops);
    }
  }

  lemma FlightOrderLater(s: Net, s': Net, f: Flight)
    requires Later(s, s') && FlightOrder(s, f)
    ensures FlightOrder(s', f)
  {
    match f.msg
    case Rreq(q) => AheadLater(s, s', q.from, q.src, q.srcSeqno, q.hops);
    case Rrep(q) => AheadLater(s, s', q.from, q.dst, q.dstSeqno, q.hops);
    case Rerr(_) =>
  }

  /* ---------- one legal run at node i ---------- */

  /** A reply that node `i` would accept has a real hop count. */
  predicate HeardFits(s: Net, i: nat, heard: Option<Flight>)
    requires i < |s.nodes|
  {
    heard.Some? && heard.value.msg.Rrep? ==>
      var q := heard.value.msg.rp;
      Better(q.dstSeqno, q.hops, RouteOf(s.nodes[i], q.dst)) ==> q.hops != INFINITY2
  }

  /** Node `i` of a network in order runs legally to `n'`. */
  ghost predicate OrderlyAt(s: Net, i: nat, n': Node, heard: Option<Flight>) {
    LegalIn(s, i, n', heard) && OrderInv(s) && HeardFits(s, i, heard)
  }

  lemma HeardHolds(s: Net, heard: Option<Flight>)
    requires OrderInv(s) && heard.Some? && heard.value in s.air
    ensures FlightOrder(s, heard.value) && FlightBase(s, heard.value) && MessageParity(heard.value.msg)
  {
  }

  lemma NodeStaysOk(s: Net, i: nat, n': Node, heard: Option<Flight>)
    requires OrderlyAt(s, i, n', heard)
    ensures NodeOk(n') && n'.id == i
  {
    hide NodeOk, Legal, OrderInv, RouteBase, MessageParity;
    var n := s.nodes[i].(out := []);
    assert NodeOk(n) by {
      OrderHasOk(s, i);
      NodeOkWithoutEffects(s.nodes[i]);
    }
    assert CauseOk(Heard(heard)) && CauseFits(n, Heard(heard)) by {
      if heard.Some? {
        HeardHolds(s, heard);
        if heard.value.msg.Rrep? {
          assert RouteOf(n, heard.value.msg.rp.dst) == RouteOf(s.nodes[i], heard.value.msg.rp.dst);
        }
      }
    }
    LegalKeepsNodeOk(n, n', Heard(heard));
    LegalGrows(s, i, n', heard, 0.0);
  }

  lemma OrderHasOk(s: Net, i: nat)
    requires OrderInv(s) && i < |s.nodes|
    ensures NodeOk(s.nodes[i]) && s.nodes[i].id == i
  {
  }

  /** A route taken from a message has the sender as its next hop, which is ahead. */
  lemma RouteOrderAtActor(s: Net, i: nat, n': Node, heard: Option<Flight>, now: real, d: Addr)
    requires OrderlyAt(s, i, n', heard) && d in n'.table
    ensures RouteOrder(After(s, i, n', heard, now), d, n'.table[d])
  {
    hide Legal, NodeOk, Sent, Later, OrderInv, RouteOrder, ParityInv;
    var s' := After(s, i, n', heard, now);
    OrderIsParity(s);
    LegalIsLater(s, i, n', heard, now);
    var r, r' := RouteOf(s.nodes[i], d), n'.table[d];
    LegalRoute(s.nodes[i].(out := []), n', Heard(heard), d);
    assert RouteOf(s.nodes[i].(out := []), d) == r;
    EntryInOrder(s, i, d);
    RouteOrderLater(s, s', d, r);
    if InstalledBy(r, r', d, Heard(heard)) {
      HeardHolds(s, heard);
      FlightOrderLater(s, s', heard.value);
    }
    RouteStepOrder(s', r, r', d, heard, s.nodes[i].localRepair);
  }

  lemma OrderIsParity(s: Net)
    requires OrderInv(s)
    ensures ParityInv(s)
  {
  }

  lemma EntryInOrder(s: Net, i: nat, d: Addr)
    requires OrderInv(s) && i < |s.nodes|
    ensures RouteOrder(s, d, RouteOf(s.nodes[i], d))
  {
  }

  lemma RouteStepOrder(s': Net, r: Route, r': Route, d: Addr, heard: Option<Flight>, repair: bool)
    requires RouteStep(r, r', d, Heard(heard), repair) && RouteOrder(s', d, r)
    requires InstalledBy(r, r', d, Heard(heard)) ==> FlightOrder(s', heard.value)
    ensures RouteOrder(s', d, r')
  {
  }

  /* ---------- the messages of a legal run ---------- */

  /** The nodes a reply went through stay as fresh as the reply, the relaying one included. */
  lemma TrailGrows(s: Net, s': Net, i: nat, p: Reply, trail: set<Addr>)
    requires i < |s.nodes| && Later(s, s') && p.hops >= 1 && Fresh(s'.nodes[i], p.dst, p.dstSeqno, p.hops)
    requires forall t :: t in trail ==> IsNode(s, t) && Fresh(s.nodes[t], p.dst, p.dstSeqno, p.hops - 1)
    ensures forall t :: t in trail + {i} ==> IsNode(s', t) && Fresh(s'.nodes[t], p.dst, p.dstSeqno, p.hops)
  {
    forall t | t in trail ensures IsNode(s', t) && Fresh(s'.nodes[t], p.dst, p.dstSeqno, p.hops) {
      assert Fresh(s'.nodes[t], p.dst, p.dstSeqno, p.hops - 1);
    }
  }

  /** A request that leaves node `i` says no more than what `i` holds. */
  lemma RequestOrder(s': Net, i: nat, n: Node, q: Request, next: Addr, heard: Option<Flight>)
    requires i < |s'.nodes| && s'.nodes[i].id == i
    requires OwnRequest(n, s'.nodes[i], q) || RelayedRequest(n, s'.nodes[i], q, Heard(heard))
    requires heard.Some? && heard.value.msg.Rreq? ==> heard.value.msg.rq.hops <= NETWORK_DIAMETER
    ensures FlightOrder(s', Tagged(next, Rreq(q), s'.nodes[i], heard))
  {
  }

  /** A generated reply has one hop more than the route it comes from. */
  lemma OwnReplyOrder(s': Net, i: nat, q: Reply, next: Addr, heard: Option<Flight>)
    requires i < |s'.nodes| && s'.nodes[i].id == i && OwnReply(s'.nodes[i], q, Heard(heard))
    requires q.dst in s'.nodes[i].table ==> s'.nodes[i].table[q.dst].hops <= INFINITY2
    ensures FlightOrder(s', Tagged(next, Rrep(q), s'.nodes[i], heard))
  {
  }

  /** A reply passed on has one hop more than it had, and the passing node joins its trail. */
  lemma RelayedReplyOrder(s: Net, s': Net, i: nat, q: Reply, next: Addr, heard: Option<Flight>)
    requires i < |s.nodes| && Later(s, s') && s'.nodes[i].id == i && heard.Some? && FlightOrder(s, heard.value)
    requires RelayedReply(s.nodes[i].(out := []), s'.nodes[i], q, Heard(heard)) && HeardFits(s, i, heard)
    ensures FlightOrder(s', Tagged(next, Rrep(q), s'.nodes[i], heard)) && q.hops == heard.value.msg.rp.hops + 1
  {
    var p := heard.value.msg.rp;
    assert RouteOf(s.nodes[i].(out := []), p.dst) == RouteOf(s.nodes[i], p.dst);
    assert Fresh(s'.nodes[i], p.dst, p.dstSeqno, p.hops);
    TrailGrows(s, s', i, p, heard.value.trail);
  }

  lemma NewFlightOrder(s: Net, s': Net, i: nat, heard: Option<Flight>, e: Effect)
    requires OrderInv(s) && i < |s.nodes| == |s'.nodes| && Later(s, s') && s'.nodes[i].id == i && NodeOk(s'.nodes[i])
    requires (heard.Some? ==> heard.value in s.air) && HeardFits(s, i, heard)
    requires e.Transmit? && Justified(s.nodes[i].(out := []), s'.nodes[i], e.msg, Heard(heard))
    ensures FlightOrder(s', Tagged(e.next, e.msg, s'.nodes[i], heard))
  {
    hide OrderInv, NodeOk, FlightOrder, HeardFits, OwnRequest, RelayedRequest, OwnReply, RelayedReply, Later;
    var n, n' := s.nodes[i].(out := []), s'.nodes[i];
    if heard.Some? {
      HeardHolds(s, heard);
    }
    match e.msg
    case Rreq(q) => RequestOrder(s', i, n, q, e.next, heard);
    case Rrep(q) =>
      if OwnReply(n', q, Heard(heard)) {
        if q.dst in n'.table {
          EntryOk(n', q.dst);
        }
        OwnReplyOrder(s', i, q, e.next, heard);
      } else {
        RelayCause(n, n', q, Heard(heard));
        RelayedReplyOrder(s, s', i, q, e.next, heard);
      }
    case Rerr(_) => ErrorsAreInOrder(s', i, e, heard);
  }

  lemma RelayCause(n: Node, n': Node, q: Reply, cause: Option<Message>)
    requires RelayedReply(n, n', q, cause)
    ensures cause.Some?
  {
  }

  lemma ErrorsAreInOrder(s': Net, i: nat, e: Effect, heard: Option<Flight>)
    requires e.Transmit? && e.msg.Rerr? && i < |s'.nodes|
    ensures FlightOrder(s', Tagged(e.next, e.msg, s'.nodes[i], heard))
  {
  }

  /** A legal run keeps all routes and messages in order. */
  lemma LegalKeepsOrder(s: Net, i: nat, n': Node, heard: Option<Flight>, now: real)
    requires OrderlyAt(s, i, n', heard)
    ensures OrderInv(After(s, i, n', heard, now))
  {
    hide Legal, NodeOk, RouteOrder, FlightOrder, ParityInv, BaseInv, Justified, HeardFits;
    var s' := After(s, i, n', heard, now);
    LegalKeepsParity(s, i, n', heard, now);
    LegalIsLater(s, i, n', heard, now);
    NodeStaysOk(s, i, n', heard);
    forall j, d | 0 <= j < |s'.nodes| && d in s'.nodes[j].table ensures RouteOrder(s', d, s'.nodes[j].table[d]) {
      if j == i {
        RouteOrderAtActor(s, i, n', heard, now, d);
      } else {
        RouteOrderLater(s, s', d, s.nodes[j].table[d]);
      }
    }
    forall f | f in s'.air ensures FlightOrder(s', f) {
      if f in s.air {
        FlightOrderLater(s, s', f);
      } else {
        var e :| e in n'.out && e.Transmit? && f == Tagged(e.next, e.msg, n', heard);
        LegalMessage(s.nodes[i].(out := []), n', Heard(heard), e);
        NewFlightOrder(s, s', i, heard, e);
      }
    }
  }

  /* ---------- every action ---------- */

  lemma NextFits(s: Net, a: Action)
    requires Enabled(s, a) && !a.Loses? && !LosingReplyAt(s, a)
    ensures HeardFits(s, a.i, HeardBy(a))
  {
  }

  lemma CalmIsLegal(s: Net, a: Action)
    requires OrderInv(s) && Enabled(s, a) && !RepairFailsAt(s, a)
    ensures !RepairSpoilsAt(s, a)
  {
    hide NodeOk, ParityInv, RouteOrder, FlightOrder;
    if !a.Loses? {
      SpoilingIsFailing(s.nodes[a.i], InputOf(a));
    }
  }

  lemma NextOrder(s: Net, a: Action)
    requires OrderInv(s) && Enabled(s, a) && !RepairFailsAt(s, a) && !LosingReplyAt(s, a)
    ensures OrderInv(Next(s, a))
  {
    CalmIsLegal(s, a);
    if a.Loses? {
      LossKeepsOrder(s, a);
    } else {
      hide Next, OrderInv, ParityInv, BaseInv, LosingReplyAt;
      OrderIsParity(s);
      ParityIsBase(s);
      ActionLegal(s, a);
      NextFits(s, a);
      LegalKeepsOrder(s, a.i, Next(s, a).nodes[a.i], HeardBy(a), a.now);
    }
  }

  lemma ParityIsBase(s: Net)
    requires ParityInv(s)
    ensures BaseInv(s)
  {
  }

  lemma LossKeepsOrder(s: Net, a: Action)
    requires OrderInv(s) && Enabled(s, a) && a.Loses?
    ensures OrderInv(Next(s, a))
  {
    hide NodeOk, RouteOrder, FlightOrder, ParityInv;
    var s' := Next(s, a);
    NextParity(s, a);
    OrderIsParity(s);
    NextIsLater(s, a);
    forall j, d | 0 <= j < |s'.nodes| && d in s'.nodes[j].table ensures RouteOrder(s', d, s'.nodes[j].table[d]) {
      RouteOrderLater(s, s', d, s.nodes[j].table[d]);
    }
    forall f | f in s'.air ensures FlightOrder(s', f) {
      FlightOrderLater(s, s', f);
    }
  }

  lemma InitOrder(s: Net)
    requires Init(s)
    ensures OrderInv(s)
  {
    InitParity(s);
  }

  lemma {:induction false} OrderlyRun(states: seq<Net>, actions: seq<Action>, k: nat)
    requires CalmRun(states, actions) && NoLosingReply(states, actions) && k < |states|
    ensures OrderInv(states[k]) && |states[k].nodes| == |states[0].nodes|
  {
    hide OrderInv, Next, Init, RepairFailsAt, LosingReplyAt;
    if k == 0 {
      InitOrder(states[0]);
    } else {
      OrderlyRun(states, actions, k - 1);
      NextOrder(states[k - 1], actions[k - 1]);
      NextKeepsSize(states[k - 1], actions[k - 1]);
    }
  }

  /** A calm run in which nobody accepts a wrapped reply is steady. */
  lemma OrderlyIsSteady(states: seq<Net>, actions: seq<Action>)
    requires CalmRun(states, actions) && NoLosingReply(states, actions)
    ensures SteadyRun(states, actions)
  {
    hide OrderInv, Next, Init, RepairFailsAt, RepairSpoilsAt, LosingReplyAt;
    forall k | 0 <= k < |actions| ensures !RepairSpoilsAt(states[k], actions[k]) {
      OrderlyRun(states, actions, k);
      CalmIsLegal(states[k], actions[k]);
    }
  }
}
