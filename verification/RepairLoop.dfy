/** Why failed local repairs are excluded: a run of four nodes in a chain S - A - B - D in which one
    makes a loop.

    S finds a route to D and sends a packet. It reaches B, two hops from S and one from D, and the
    link from B to D breaks under it: B starts a local repair. Nobody answers in time, and the
    repair timer takes B's route down at an unchanged sequence number. The packet still waits, so
    the next route purge asks again. A, whose route leads through B, is as fresh as B and answers;
    B accepts: A forwards to B and B to A.

    The network of the model lets any packet arrive anywhere and any timer fire at any time. This
    run does not use that: `Caused` demands that every action follows from what happened before.
    The purges before the one at 2.0 seconds find nothing to do and are left out. */
module RepairLoop {
  import opened Types
  import opened RouteTable
  import opened SendBuffer
  import opened Handlers
  import opened LocalSteps
  import opened Network
  import opened Runs
  import opened Ledger

  const S: Addr := 0
  const A: Addr := 1
  const B: Addr := 2
  const D: Addr := 3

  /* ---------- runs in which every action has a cause ---------- */

  predicate Adjacent(x: Addr, y: Addr) { x - y == 1 || y - x == 1 }

  function Sender(m: Message): Addr {
    match m
    case Rreq(q) => q.from
    case Rrep(q) => q.from
    case Rerr(q) => q.from
  }

  /** A packet as it was when the neighbour sent it; on its way it counts one hop and turns upwards. */
  function AsSent(p: Data): Data { p.(forwards := p.forwards - 1, up := false) }

  /** The neighbour that acted in `actions[j]` forwarded the packet to node `i`. */
  predicate Forwarded(states: seq<Net>, actions: seq<Action>, j: nat, i: nat, p: Data)
    requires |states| == |actions| + 1 && j < |actions|
  {
    && !actions[j].Loses? && actions[j].i < |states[j + 1].nodes| && Adjacent(actions[j].i, i)
    && Forward(i, AsSent(p)) in states[j + 1].nodes[actions[j].i].out
  }

  /** Node `i` itself forwarded packet `p` to `neighbor` in `actions[j]`. */
  predicate SentTo(states: seq<Net>, actions: seq<Action>, j: nat, i: nat, p: Data, neighbor: Addr)
    requires |states| == |actions| + 1 && j < |actions|
  {
    && !actions[j].Loses? && actions[j].i == i < |states[j + 1].nodes|
    && Forward(neighbor, p) in states[j + 1].nodes[i].out
  }

  /** In `actions[j]` node `i` started to repair its route to `d`; the timer it set goes off at `now`,
      after a delay of the request timeout. */
  predicate TimerSet(states: seq<Net>, actions: seq<Action>, j: nat, i: nat, d: Addr, now: real)
    requires |states| == |actions| + 1 && j < |actions|
  {
    && actions[j].Acts? && actions[j].input.LinkDown? && actions[j].input.pkt.dst == d
    && actions[j].i == i < |states[j + 1].nodes| && d in states[j + 1].nodes[i].table
    && states[j + 1].nodes[i].table[d].flag == InRepair
    && now == actions[j].now + states[j + 1].nodes[i].table[d].reqTimeout
  }

  /** Action `a` has a cause in the run so far: messages and packets come from a neighbour, a link
      failure is reported for a packet sent over that link, a repair timer goes off when it is due,
      and the route purge runs every half second. */
  ghost predicate Caused(states: seq<Net>, actions: seq<Action>, a: Action)
    requires |states| == |actions| + 1
  {
    match a
    case Hears(i, f, _) => Adjacent(i, Sender(f.msg))
    case Acts(i, input, now) =>
      (match input
       case Packet(p) =>
         (p.src == i && p.forwards == 0) || exists j :: 0 <= j < |actions| && Forwarded(states, actions, j, i, p)
       case LinkDown(p, neighbor) => exists j :: 0 <= j < |actions| && SentTo(states, actions, j, i, p, neighbor)
       case RepairTimer(d) => exists j :: 0 <= j < |actions| && TimerSet(states, actions, j, i, d, now)
       case RouteTimer => Whole(2.0 * now) == 2.0 * now
       case _ => true)
    case Loses(_) => true
  }

  ghost predicate CausedRun(states: seq<Net>, actions: seq<Action>) {
    && Run(states, actions)
    && forall k :: 0 <= k < |actions| ==> Caused(states[..k + 1], actions[..k], actions[k])
  }

  /** Appends one action to a run. */
  lemma Extended(states: seq<Net>, actions: seq<Action>, a: Action)
    returns (states': seq<Net>, actions': seq<Action>)
    requires CausedRun(states, actions) && Enabled(states[|actions|], a) && Caused(states, actions, a)
    ensures CausedRun(states', actions') && |states'| == |actions'| + 1
    ensures states' == states + [Next(states[|actions|], a)] && actions' == actions + [a]
  {
    hide Next, Enabled, Init, Caused;
    states', actions' := states + [Next(states[|actions|], a)], actions + [a];
    forall k | 0 <= k < |actions'| ensures Caused(states'[..k + 1], actions'[..k], actions'[k]) {
      if k < |actions| {
        assert states'[..k + 1] == states[..k + 1] && actions'[..k] == actions[..k];
      } else {
        assert states'[..k + 1] == states && actions'[..k] == actions;
      }
    }
  }

  /** What a handler run changes in the network, and that its messages are then in flight. */
  lemma RunEffect(s: Net, i: nat, input: Input, now: real, heard: Option<Flight>, next: Addr, m: Message)
    requires i < |s.nodes|
    ensures var s' := RunAt(s, i, input, now, heard);
            && |s'.nodes| == |s.nodes| && s'.clock == now
            && s'.nodes[i] == Handle(s.nodes[i].(out := []), now, input)
            && (forall j :: 0 <= j < |s.nodes| && j != i ==> s'.nodes[j] == s.nodes[j])
            && (forall f :: f in s.air ==> f in s'.air)
            && (Transmit(next, m) in s'.nodes[i].out ==> Tagged(next, m, s'.nodes[i], heard) in s'.air)
  {
    hide Handle;
    var n := Handle(s.nodes[i].(out := []), now, input);
    if Transmit(next, m) in n.out {
      var e := Transmit(next, m);
      assert Tagged(e.next, e.msg, n, heard) in Sent(n, heard);
    }
  }

  /* ---------- the messages and packets of the run ---------- */

  const PACKET := Data(1, S, D, 10, 0, false)
  const AT_S := PACKET.(ttl := 30)
  const AT_A := AT_S.(forwards := 1, up := true)
  const AT_B := AT_A.(ttl := 29, forwards := 2)
  const FAILED := AT_B.(ttl := 28, up := false)

  const ASK_S := Request(S, 30, 1, 1, D, 0, S, 4, 0.0)
  const ASK_S_A := Request(A, 29, 2, 1, D, 0, S, 4, 0.0)
  const ASK_S_B := Request(B, 28, 3, 1, D, 0, S, 4, 0.0)
  const REPLY_D := Reply(D, 30, 1, S, D, 4, MY_ROUTE_TIMEOUT, 0.0)
  const REPLY_D_B := Reply(B, 29, 2, S, D, 4, MY_ROUTE_TIMEOUT, 0.0)
  const REPLY_D_A := Reply(A, 28, 3, S, D, 4, MY_ROUTE_TIMEOUT, 0.0)
  const ASK_B := Request(B, 30, 1, 2, D, 4, B, 6, 2.0)

  predicate HasRoute(n: Node, d: Addr, seqno: nat, hops: nat, nexthop: Addr) {
    d in n.table && n.table[d].seqno == seqno && n.table[d].hops == hops && n.table[d].nexthop == nexthop
  }

  predicate UpRoute(n: Node, d: Addr, seqno: nat, hops: nat, nexthop: Addr) {
    HasRoute(n, d, seqno, hops, nexthop) && n.table[d].flag == Up
  }

  /** What stays true of A until it answers B. */
  predicate AWaits(a: Node) {
    a.id == A && a.buffer == [] && a.cache == [CacheEntry(S, 1, 6.0)] && B !in a.table
  }

  /** What stays true of B from the first request on. */
  predicate BWaits(b: Node) {
    b.id == B && b.localRepair && UpRoute(b, S, 4, 2, A) && b.table[S].expire >= 6.0
  }

  /** The state of B's own requests for D. */
  predicate BAsked(b: Node, seqno: nat, bid: nat, reqTimeout: real, reqCnt: nat, reqLastTtl: nat, lastHops: nat) {
    && b.seqno == seqno && b.bid == bid && b.order == [D, S] && D in b.table
    && b.table[D].reqTimeout == reqTimeout && b.table[D].reqCnt == reqCnt
    && b.table[D].reqLastTtl == reqLastTtl && b.table[D].lastHops == lastHops
    && b.table[D].history == FRESH_ROUTE.history
  }

  /** Draining an empty buffer changes nothing. */
  lemma DrainEmpty(n: Node, d: Addr, now: real, how: Disposal)
    requires d in n.table && n.buffer == []
    ensures Drain(n, d, now, how) == n
  {
    assert Deque(n, d, now).1 == None;
    assert n.aged + Aged([], now) == n.aged;
  }

  /** A reverse route at an agent with an empty buffer and a fresh entry. */
  lemma NewReverseRoute(n: Node, now: real, m: Request)
    requires m.src in n.table && n.table[m.src] == FRESH_ROUTE && n.buffer == [] && m.srcSeqno > 0 && now >= 0.0
    ensures ReverseRoute(n, now, m) ==
            SetRoute(n, m.src, Updated(FRESH_ROUTE, m.srcSeqno, m.hops, m.from, now + REV_ROUTE_LIFE))
  {
    hide Drain;
    var r1 := ReverseEntry(FRESH_ROUTE, now, m);
    assert r1 == Updated(FRESH_ROUTE, m.srcSeqno, m.hops, m.from, now + REV_ROUTE_LIFE);
    var n1 := SetRoute(n, m.src, r1);
    assert Check(n1, true) == n1;
    DrainEmpty(n1, m.src, now, ForwardIt);
  }

  /** A forward route at an agent with an empty buffer and without an entry, on the way to the source. */
  lemma NewForwardRoute(n: Node, m: Reply)
    requires m.dst !in n.table && n.buffer == [] && m.dstSeqno > 0 && m.hops < INFINITY2 && m.to != n.id
    ensures var r := Updated(FRESH_ROUTE, m.dstSeqno, m.hops, m.from, m.lifetime).(reqLastTtl := m.hops);
            ForwardRoute(EnsureRoute(n, m.dst), 0.0, m) == SetRoute(EnsureRoute(n, m.dst), m.dst, r)
  {
    hide Drain;
    var n1 := EnsureRoute(n, m.dst);
    var r := Updated(FRESH_ROUTE, m.dstSeqno, m.hops, m.from, m.lifetime).(reqLastTtl := m.hops);
    assert ForwardEntry(FRESH_ROUTE, n.id, 0.0, m) == r;
    DrainEmpty(SetRoute(n1, m.dst, r), m.dst, 0.0, ForwardIt);
  }

  /* ---------- the steps ---------- */

  /* 1: S wants to send to D. */
  lemma SAsks(s: Node)
    requires s == Handle(NewNode(S, true), 0.0, Input.Packet(PACKET))
    ensures s.id == S && HasRoute(s, D, 0, INFINITY2, 0) && s.buffer == [Queued(AT_S, 30.0)]
    ensures s.out == [Transmit(BROADCAST, Rreq(ASK_S))]
  {
    var n1 := EnsureRoute(NewNode(S, true), D);
    var n2 := Enqueue(n1, AT_S, 0.0);
    assert n2.table == n1.table && n2.out == [];
    assert AskDecision(FRESH_ROUTE, 0.0) == Ask && AskTtl(FRESH_ROUTE) == 30;
  }

  /* 2: A relays. */
  lemma ARelays(a: Node)
    requires a == Handle(NewNode(A, true), 0.0, Hear(Rreq(ASK_S)))
    ensures AWaits(a) && UpRoute(a, S, 4, 1, S) && D !in a.table
    ensures a.out == [Transmit(BROADCAST, Rreq(ASK_S_A))]
  {
    var n1 := EnsureRoute(CacheInsert(NewNode(A, true), S, 1, 0.0), S);
    NewReverseRoute(n1, 0.0, ASK_S.(ttl := 29));
  }

  /* 3: B relays. */
  lemma BRelays(b: Node)
    requires b == Handle(NewNode(B, true), 0.0, Hear(Rreq(ASK_S_A)))
    ensures BWaits(b) && b.order == [S] && D !in b.table && b.seqno == 2 && b.bid == 1 && b.buffer == []
    ensures b.out == [Transmit(BROADCAST, Rreq(ASK_S_B))]
  {
    var n1 := EnsureRoute(CacheInsert(NewNode(B, true), S, 1, 0.0), S);
    NewReverseRoute(n1, 0.0, ASK_S_A.(ttl := 28));
  }

  /* 4: D answers. */
  lemma DAnswers(d: Node)
    requires d == Handle(NewNode(D, true), 0.0, Hear(Rreq(ASK_S_B)))
    ensures d.id == D && d.out == [Transmit(B, Rrep(REPLY_D))]
  {
    var n1 := EnsureRoute(CacheInsert(NewNode(D, true), S, 1, 0.0), S);
    NewReverseRoute(n1, 0.0, ASK_S_B.(ttl := 27));
  }

  /* 5: B takes the route and relays the answer. */
  lemma BLearns(b: Node, b': Node)
    requires BWaits(b) && b.order == [S] && D !in b.table && b.seqno == 2 && b.bid == 1 && b.buffer == [] && b.out == []
    requires b' == Handle(b, 0.0, Hear(Rrep(REPLY_D)))
    ensures BWaits(b') && UpRoute(b', D, 4, 1, D) && BAsked(b', 2, 1, 0.0, 0, 1, INFINITY2) && b'.buffer == []
    ensures b'.id == B && b'.out == [Transmit(A, Rrep(REPLY_D_B))]
  {
    hide ForwardRoute;
    NewForwardRoute(b, REPLY_D.(ttl := 29));
  }

  /* 6: A takes the route and relays the answer. */
  lemma ALearns(a: Node, a': Node)
    requires AWaits(a) && UpRoute(a, S, 4, 1, S) && D !in a.table && a.out == []
    requires a' == Handle(a, 0.0, Hear(Rrep(REPLY_D_B)))
    ensures AWaits(a') && UpRoute(a', D, 4, 2, B)
    ensures a'.id == A && a'.out == [Transmit(S, Rrep(REPLY_D_A))]
  {
    hide ForwardRoute;
    NewForwardRoute(a, REPLY_D_B.(ttl := 28));
  }

  /* 7: S takes the route and sends the packet that waits for it. */
  lemma SSends(s: Node, s': Node)
    requires s.id == S && HasRoute(s, D, 0, INFINITY2, 0) && s.buffer == [Queued(AT_S, 30.0)] && s.out == []
    requires s' == Handle(s, 0.0, Hear(Rrep(REPLY_D_A)))
    ensures Forward(A, AT_S) in s'.out
  {
    hide Drain;
    var m := REPLY_D_A.(ttl := 27);
    var n1 := SetRoute(s, D, ForwardEntry(s.table[D], S, 0.0, m));
    assert s' == Drain(n1, D, 0.0, ForwardIt);
    DrainExact(n1, D, 0.0, ForwardIt);
    OnePacket(Queued(AT_S, 30.0), 0.0);
    assert Outcomes(S, A, [AT_S], ForwardIt) == [Forward(A, AT_S)] by {
      assert [AT_S][1..] == [];
    }
  }

  lemma OnePacket(q: Queued, now: real)
    requires q.deadline >= now
    ensures Live([q], now) == [q] && Aged([q], now) == [] && PacketsFor([q], q.pkt.dst) == [q.pkt]
  {
    assert [q][1..] == [];
  }

  /* 8: A passes the packet on. */
  lemma APasses(a: Node, a': Node)
    requires AWaits(a) && UpRoute(a, D, 4, 2, B) && a.out == []
    requires a' == Handle(a, 0.0, Input.Packet(AT_A))
    ensures AWaits(a') && UpRoute(a', D, 4, 2, B) && a'.out == [Forward(B, AT_A.(ttl := 29, up := false))]
  {
  }

  /* 9: B passes the packet on. */
  lemma BPasses(b: Node, b': Node)
    requires BWaits(b) && UpRoute(b, D, 4, 1, D) && BAsked(b, 2, 1, 0.0, 0, 1, INFINITY2)
    requires b.buffer == [] && b.out == []
    requires b' == Handle(b, 0.0, Input.Packet(AT_B))
    ensures BWaits(b') && UpRoute(b', D, 4, 1, D) && BAsked(b', 2, 1, 0.0, 0, 1, INFINITY2) && b'.buffer == []
    ensures b'.out == [Forward(D, FAILED)]
  {
  }

  /* 10: the link to D breaks under it. The packet is two hops from its source, D is one hop away. */
  lemma BRepairs(b: Node, b': Node)
    requires BWaits(b) && UpRoute(b, D, 4, 1, D) && BAsked(b, 2, 1, 0.0, 0, 1, INFINITY2)
    requires b.buffer == [] && b.out == []
    requires b' == Handle(b, 0.0, LinkDown(FAILED, D))
    ensures BWaits(b') && HasRoute(b', D, 4, 1, D) && b'.table[D].flag == InRepair
    ensures BAsked(b', 4, 2, 1.8, 1, 30, INFINITY2) && b'.buffer == [Queued(FAILED, 30.0)]
  {
    var n1 := Enqueue(b, FAILED, 0.0);
    assert n1 == b.(buffer := n1.buffer, aged := n1.aged);
    var r := b.table[D].(flag := InRepair);
    FreshHopTime();
    assert AskDecision(r, 0.0) == Ask && AskTtl(r) == 30 && AskCount(r) == 1 && AskTimeout(r, 0.0) == 1.8;
    assert b' == SendRequest(SetRoute(n1, D, r), D, 0.0);
  }

  lemma FreshHopTime()
    ensures PerHopTime(FRESH_ROUTE.history) == NODE_TRAVERSAL_TIME
  {
    var s := FRESH_ROUTE.history.slots;
    assert s[..2] == [0.0, 0.0] && s[..2][..1] == [0.0] && s[..2][..1][..0] == [];
    assert PositiveCount([0.0]) == 0 && PositiveCount([0.0, 0.0]) == 0;
  }

  /* 11: the repair times out. */
  lemma BGoesDown(b: Node, b': Node)
    requires BWaits(b) && HasRoute(b, D, 4, 1, D) && b.table[D].flag == InRepair
    requires BAsked(b, 4, 2, 1.8, 1, 30, INFINITY2) && b.buffer == [Queued(FAILED, 30.0)] && b.out == []
    requires b' == Handle(b, 1.8, RepairTimer(D))
    ensures BWaits(b') && HasRoute(b', D, 4, INFINITY2, 0) && b'.table[D].flag == Down
    ensures BAsked(b', 4, 2, 1.8, 1, 30, 1) && b'.buffer == [Queued(FAILED, 30.0)] && b'.out == []
  {
  }

  /* 12: the packet still waits, so the route purge asks again. */
  lemma BAsksAgain(b: Node, b': Node)
    requires BWaits(b) && HasRoute(b, D, 4, INFINITY2, 0) && b.table[D].flag == Down
    requires BAsked(b, 4, 2, 1.8, 1, 30, 1) && b.buffer == [Queued(FAILED, 30.0)] && b.out == []
    requires b' == Handle(b, 2.0, RouteTimer)
    ensures b'.id == B && HasRoute(b', D, 4, INFINITY2, 0)
    ensures Transmit(BROADCAST, Rreq(ASK_B)) in b'.out
  {
    hide Drain;
    assert b.buffer[0].pkt.dst == D;
    assert HasPacketFor(b.buffer, D) && AskDecision(b.table[D], 2.0) == Ask && AskTtl(b.table[D]) == 30;
    var n1 := PurgeEntry(b, D, 2.0);
    assert n1 == SendRequest(b, D, 2.0);
    assert n1.out == [Transmit(BROADCAST, Rreq(ASK_B))];
    var n2 := PurgeEntry(n1, S, 2.0);
    DrainSilent(Check(n1, true), S, 2.0, ForwardIt);
    assert [D, S][1..] == [S] && [S][1..] == [];
    assert b' == PurgeAll(n1, [S], 2.0) == PurgeAll(n2, [], 2.0) == n2;
    assert n2.out[0] == n1.out[0];
  }

  /* 13: A answers B from a route that leads through B. */
  lemma AAnswers(a: Node, a': Node) returns (life: real)
    requires AWaits(a) && UpRoute(a, D, 4, 2, B) && a.out == []
    requires a' == Handle(a, 2.0, Hear(Rreq(ASK_B)))
    ensures a'.id == A && HasRoute(a', D, 4, 2, B)
    ensures Transmit(B, Rrep(Reply(A, 30, 3, B, D, 4, life, 2.0))) in a'.out
  {
    hide ReverseRoute;
    var m := ASK_B.(ttl := 29);
    var n1 := EnsureRoute(CacheInsert(a, B, 2, 2.0), B);
    NewReverseRoute(n1, 2.0, m);
    var n2 := ReverseRoute(n1, 2.0, m);
    life := Whole(n2.table[D].expire - 2.0);
    assert a' == AnswerRequest(n2, 2.0, m);
    assert a'.out == n2.out + [Transmit(B, Rrep(Reply(A, 30, 3, B, D, 4, life, 2.0)))];
  }

  /* 14: B accepts the answer. */
  lemma BLoops(b: Node, b': Node, life: real)
    requires b.id == B && HasRoute(b, D, 4, INFINITY2, 0)
    requires b' == Handle(b, 2.0, Hear(Rrep(Reply(A, 30, 3, B, D, 4, life, 2.0))))
    ensures HasRoute(b', D, 4, 3, A)
  {
    hide Drain;
    var m := Reply(A, 29, 3, B, D, 4, life, 2.0);
    var r1 := ForwardEntry(b.table[D], B, 2.0, m);
    DrainSilent(SetRoute(b, D, r1), D, 2.0, ForwardIt);
    assert b' == Drain(SetRoute(b, D, r1), D, 2.0, ForwardIt);
  }

  /* ---------- the run ---------- */

  const START := Net([NewNode(S, true), NewNode(A, true), NewNode(B, true), NewNode(D, true)], {}, 0.0)

  lemma StartRun()
    ensures CausedRun([START], [])
  {
    assert forall i :: 0 <= i < 4 ==> START.nodes[i] == NewNode(i, START.nodes[i].localRepair);
  }

  /** The request goes out to D: actions 1 to 4. */
  lemma RequestTravels() returns (states: seq<Net>, actions: seq<Action>)
    ensures CausedRun(states, actions) && |states| == |actions| + 1 == 5 && states[0] == START
    ensures var s := states[4];
            && |s.nodes| == 4 && s.clock == 0.0 && Flight(B, Rrep(REPLY_D), 0, {}) in s.air
            && s.nodes[0].id == S && HasRoute(s.nodes[0], D, 0, INFINITY2, 0)
            && s.nodes[0].buffer == [Queued(AT_S, 30.0)]
            && AWaits(s.nodes[1]) && UpRoute(s.nodes[1], S, 4, 1, S) && D !in s.nodes[1].table
            && var b := s.nodes[2];
               BWaits(b) && b.order == [S] && D !in b.table && b.seqno == 2 && b.bid == 1 && b.buffer == []
  {
    hide Handle, RunAt, Run, CausedRun, AWaits, BWaits, UpRoute, HasRoute;
    StartRun();
    states, actions := [START], [];

    states, actions := Extended(states, actions, Acts(0, Input.Packet(PACKET), 0.0));
    var s1 := states[1];
    RunEffect(START, 0, Input.Packet(PACKET), 0.0, None, BROADCAST, Rreq(ASK_S));
    SAsks(s1.nodes[0]);

    var f1 := Flight(BROADCAST, Rreq(ASK_S), 0, {});
    states, actions := Extended(states, actions, Hears(1, f1, 0.0));
    var s2 := states[2];
    RunEffect(s1, 1, Hear(Rreq(ASK_S)), 0.0, Some(f1), BROADCAST, Rreq(ASK_S_A));
    ARelays(s2.nodes[1]);

    var f2 := Flight(BROADCAST, Rreq(ASK_S_A), 0, {});
    states, actions := Extended(states, actions, Hears(2, f2, 0.0));
    var s3 := states[3];
    RunEffect(s2, 2, Hear(Rreq(ASK_S_A)), 0.0, Some(f2), BROADCAST, Rreq(ASK_S_B));
    BRelays(s3.nodes[2]);

    var f3 := Flight(BROADCAST, Rreq(ASK_S_B), 0, {});
    states, actions := Extended(states, actions, Hears(3, f3, 0.0));
    RunEffect(s3, 3, Hear(Rreq(ASK_S_B)), 0.0, Some(f3), B, Rrep(REPLY_D));
    DAnswers(states[4].nodes[3]);
  }

  /** The answer comes back and the packet leaves: actions 5 to 7. */
  lemma AnswerTravels() returns (states: seq<Net>, actions: seq<Action>)
    ensures CausedRun(states, actions) && |states| == |actions| + 1 == 8 && states[0] == START
    ensures var s := states[7];
            && |s.nodes| == 4 && s.clock == 0.0
            && actions[6].Hears? && actions[6].i == 0 && Forward(A, AT_S) in s.nodes[0].out
            && AWaits(s.nodes[1]) && UpRoute(s.nodes[1], D, 4, 2, B)
            && BWaits(s.nodes[2]) && UpRoute(s.nodes[2], D, 4, 1, D) && s.nodes[2].buffer == []
            && BAsked(s.nodes[2], 2, 1, 0.0, 0, 1, INFINITY2)
  {
    hide Handle, RunAt, Run, CausedRun, AWaits, BWaits, UpRoute, HasRoute, BAsked;
    states, actions := RequestTravels();
    var s4 := states[4];
    SameWithoutEffects(s4.nodes[1]);
    SameWithoutEffects(s4.nodes[2]);
    SameWithoutEffects(s4.nodes[0]);

    var f4 := Flight(B, Rrep(REPLY_D), 0, {});
    states, actions := Extended(states, actions, Hears(2, f4, 0.0));
    var s5 := states[5];
    RunEffect(s4, 2, Hear(Rrep(REPLY_D)), 0.0, Some(f4), A, Rrep(REPLY_D_B));
    BLearns(s4.nodes[2].(out := []), s5.nodes[2]);

    var f5 := Tagged(A, Rrep(REPLY_D_B), s5.nodes[2], Some(f4));
    states, actions := Extended(states, actions, Hears(1, f5, 0.0));
    var s6 := states[6];
    RunEffect(s5, 1, Hear(Rrep(REPLY_D_B)), 0.0, Some(f5), S, Rrep(REPLY_D_A));
    ALearns(s5.nodes[1].(out := []), s6.nodes[1]);

    var f6 := Tagged(S, Rrep(REPLY_D_A), s6.nodes[1], Some(f5));
    states, actions := Extended(states, actions, Hears(0, f6, 0.0));
    RunEffect(s6, 0, Hear(Rrep(REPLY_D_A)), 0.0, Some(f6), S, Rrep(REPLY_D_A));
    SSends(s6.nodes[0].(out := []), states[7].nodes[0]);
  }

  lemma SameWithoutEffects(n: Node)
    ensures forall d, seqno, hops, next ::
              HasRoute(n, d, seqno, hops, next) ==> HasRoute(n.(out := []), d, seqno, hops, next)
    ensures forall d, seqno, hops, next ::
              UpRoute(n, d, seqno, hops, next) ==> UpRoute(n.(out := []), d, seqno, hops, next)
    ensures AWaits(n) ==> AWaits(n.(out := []))
    ensures BWaits(n) ==> BWaits(n.(out := []))
    ensures forall seqno, bid, t, cnt, ttl, hops ::
              BAsked(n, seqno, bid, t, cnt, ttl, hops) ==> BAsked(n.(out := []), seqno, bid, t, cnt, ttl, hops)
  {
  }

  /** The packet reaches B and its next link fails: actions 8 to 10. */
  lemma LinkBreaks() returns (states: seq<Net>, actions: seq<Action>)
    ensures CausedRun(states, actions) && |states| == |actions| + 1 == 11 && states[0] == START
    ensures actions[9] == Acts(2, LinkDown(FAILED, D), 0.0)
    ensures var s := states[10];
            && |s.nodes| == 4 && s.clock == 0.0
            && AWaits(s.nodes[1]) && UpRoute(s.nodes[1], D, 4, 2, B)
            && BWaits(s.nodes[2]) && HasRoute(s.nodes[2], D, 4, 1, D) && s.nodes[2].table[D].flag == InRepair
            && BAsked(s.nodes[2], 4, 2, 1.8, 1, 30, INFINITY2) && s.nodes[2].buffer == [Queued(FAILED, 30.0)]
  {
    hide Handle, RunAt, Run, CausedRun, AWaits, BWaits, UpRoute, BAsked;
    states, actions := AnswerTravels();
    var s7 := states[7];
    SameWithoutEffects(s7.nodes[1]);
    SameWithoutEffects(s7.nodes[2]);

    assert Forwarded(states, actions, 6, 1, AT_A);
    states, actions := Extended(states, actions, Acts(1, Input.Packet(AT_A), 0.0));
    var s8 := states[8];
    RunEffect(s7, 1, Input.Packet(AT_A), 0.0, None, S, Rrep(REPLY_D_A));
    APasses(s7.nodes[1].(out := []), s8.nodes[1]);

    assert Forwarded(states, actions, 7, 2, AT_B);
    states, actions := Extended(states, actions, Acts(2, Input.Packet(AT_B), 0.0));
    var s9 := states[9];
    RunEffect(s8, 2, Input.Packet(AT_B), 0.0, None, S, Rrep(REPLY_D_A));
    BPasses(s8.nodes[2].(out := []), s9.nodes[2]);
    SameWithoutEffects(s9.nodes[2]);

    assert SentTo(states, actions, 8, 2, FAILED, D);
    states, actions := Extended(states, actions, Acts(2, LinkDown(FAILED, D), 0.0));
    RunEffect(s9, 2, LinkDown(FAILED, D), 0.0, None, S, Rrep(REPLY_D_A));
    BRepairs(s9.nodes[2].(out := []), states[10].nodes[2]);
  }

  /** A run of four nodes in a chain, in which every action has a cause and one local repair fails,
      that ends with A and B forwarding to each other. */
  lemma FailedRepairCanLoop() returns (states: seq<Net>, actions: seq<Action>)
    ensures CausedRun(states, actions) && |states| == |actions| + 1 && |states[0].nodes| == 4
    ensures RoutePath(states[|actions|], D, [A, B, A])
  {
    hide Handle, RunAt, Run, CausedRun, AWaits, BWaits, UpRoute, BAsked;
    states, actions := LinkBreaks();
    var s10 := states[10];
    SameWithoutEffects(s10.nodes[2]);
    SameWithoutEffects(s10.nodes[1]);

    RepairDue(states, actions);
    states, actions := Extended(states, actions, Acts(2, RepairTimer(D), 1.8));
    var s11 := states[11];
    RunEffect(s10, 2, RepairTimer(D), 1.8, None, S, Rrep(REPLY_D_A));
    BGoesDown(s10.nodes[2].(out := []), s11.nodes[2]);
    SameWithoutEffects(s11.nodes[2]);

    states, actions := Extended(states, actions, Acts(2, RouteTimer, 2.0));
    var s12 := states[12];
    RunEffect(s11, 2, RouteTimer, 2.0, None, BROADCAST, Rreq(ASK_B));
    BAsksAgain(s11.nodes[2].(out := []), s12.nodes[2]);

    var f12 := Flight(BROADCAST, Rreq(ASK_B), 4, {});
    states, actions := Extended(states, actions, Hears(1, f12, 2.0));
    var s13 := states[13];
    RunEffect(s12, 1, Hear(Rreq(ASK_B)), 2.0, Some(f12), S, Rrep(REPLY_D_A));
    var life := AAnswers(s12.nodes[1].(out := []), s13.nodes[1]);
    var answer := Rrep(Reply(A, 30, 3, B, D, 4, life, 2.0));
    RunEffect(s12, 1, Hear(Rreq(ASK_B)), 2.0, Some(f12), B, answer);

    var f13 := Flight(B, answer, 4, {});
    states, actions := Extended(states, actions, Hears(2, f13, 2.0));
    RunEffect(s13, 2, Hear(answer), 2.0, Some(f13), B, answer);
    BLoops(s13.nodes[2].(out := []), states[14].nodes[2], life);
  }

  /** The repair timer is due 1.8 seconds after the repair started. */
  lemma RepairDue(states: seq<Net>, actions: seq<Action>)
    requires |states| == |actions| + 1 == 11 && actions[9] == Acts(2, LinkDown(FAILED, D), 0.0)
    requires |states[10].nodes| == 4 && BAsked(states[10].nodes[2], 4, 2, 1.8, 1, 30, INFINITY2)
    requires states[10].nodes[2].table[D].flag == InRepair
    ensures Caused(states, actions, Acts(2, RepairTimer(D), 1.8))
  {
    assert TimerSet(states, actions, 9, 2, D, 1.8);
  }
}
