/** No assertion of the agent fails on any run without local repair. */
module Checks {
  import opened Types
  import opened RouteTable
  import opened Handlers
  import opened LocalSteps
  import opened Network
  import opened Baseline
  import opened Parity
  import opened Order
  import opened Runs

  /** No assertion has failed, and there is no entry for the broadcast address. */
  predicate Safe(n: Node) { !n.failed && BROADCAST !in n.table }

  /** A route that may be forwarded along without violating an assertion. */
  predicate Open(n: Node, d: Addr) {
    d != BROADCAST && d in n.table && n.table[d].flag == Up && Usable(n.table[d])
  }

  lemma {:induction false} DrainSafe(n: Node, d: Addr, now: real, how: Disposal)
    requires Safe(n) && d in n.table && (how.ForwardIt? ==> Open(n, d))
    ensures Safe(Drain(n, d, now, how))
    decreases |n.buffer|
  {
    hide Deque;
    var (n1, p) := Deque(n, d, now);
    if p.Some? {
      var n2 := Dispose(n1, d, p.value, now, how);
      DisposeSilent(n1, d, p.value, now, how);
      assert SameRoute(n1.table[d], n2.table[d]);
      DrainSafe(n2, d, now, how);
    }
  }

  lemma EnqueueSafe(n: Node, pkt: Data, now: real)
    requires Safe(n)
    ensures Safe(Enqueue(n, pkt, now)) && Enqueue(n, pkt, now).table == n.table
    ensures Enqueue(n, pkt, now).seqno == n.seqno
  {
  }

  lemma SendRequestSafe(n: Node, d: Addr, now: real)
    requires Safe(n) && d in n.table && RouteOk(n.table[d]) && Even(n.seqno)
    ensures Safe(SendRequest(n, d, now))
  {
    hide Drain;
    if AskDecision(n.table[d], now) == GiveUp {
      DrainSafe(SetRoute(n, d, GivenUp(n.table[d], now)), d, now, DropIt);
    }
  }

  lemma PurgeEntrySafe(n: Node, d: Addr, now: real)
    requires Safe(n) && NodeOk(n) && d in n.table
    ensures Safe(PurgeEntry(n, d, now))
  {
    hide Drain, SendRequest;
    var r := n.table[d];
    assert RouteOk(r);
    if r.flag == Up && r.expire < now {
      var n0 := Check(n, Usable(r));
      DrainSafe(n0, d, now, DropIt);
      DrainSilent(n0, d, now, DropIt);
      assert SameRoute(r, Drain(n0, d, now, DropIt).table[d]);
    } else if r.flag == Up {
      DrainSafe(Check(n, Usable(r)), d, now, ForwardIt);
    } else if HasPacketFor(n.buffer, d) {
      SendRequestSafe(n, d, now);
    }
  }

  lemma {:induction false} PurgeAllSafe(n: Node, ds: seq<Addr>, now: real)
    requires Safe(n) && NodeOk(n)
    ensures Safe(PurgeAll(n, ds, now))
    decreases |ds|
  {
    hide PurgeEntry;
    if ds == [] {
    } else if ds[0] in n.table {
      PurgeEntrySafe(n, ds[0], now);
      PurgeEntryOwn(n, ds[0], now);
      OwnKeepsNodeOk(n, PurgeEntry(n, ds[0], now));
      PurgeAllSafe(PurgeEntry(n, ds[0], now), ds[1..], now);
    } else {
      PurgeAllSafe(n, ds[1..], now);
    }
  }

  lemma RecvRequestSafe(n: Node, now: real, m: Request)
    requires Safe(n) && m.src != BROADCAST && m.hops != INFINITY2
    ensures Safe(RecvRequest(n, now, m))
  {
    hide Drain;
    if m.src != n.id && !InCache(n.cache, m.src, m.bid) {
      var n1 := EnsureRoute(CacheInsert(n, m.src, m.bid, now), m.src);
      ReverseRouteSafe(n1, now, m);
      AnswerRequestSafe(ReverseRoute(n1, now, m), now, m);
    }
  }

  lemma ReverseRouteSafe(n: Node, now: real, m: Request)
    requires Safe(n) && m.src in n.table && m.src != BROADCAST && m.hops != INFINITY2
    ensures Safe(ReverseRoute(n, now, m))
  {
    hide Drain;
    var r := n.table[m.src];
    if Better(m.srcSeqno, m.hops, r) {
      var r2 := ReverseEntry(r, now, m);
      DrainSafe(SetRoute(n, m.src, r2), m.src, now, ForwardIt);
    }
  }

  lemma AnswerRequestSafe(n: Node, now: real, m: Request)
    requires Safe(n) && m.src in n.table
    ensures Safe(AnswerRequest(n, now, m))
  {
  }

  lemma RecvReplySafe(n: Node, now: real, m: Reply)
    requires Safe(n) && NodeOk(n) && !n.localRepair && m.dst != BROADCAST && m.to != BROADCAST
    requires Better(m.dstSeqno, m.hops, RouteOf(n, m.dst)) ==> m.hops != INFINITY2
    ensures Safe(RecvReply(n, now, m))
  {
    hide Drain, RelayReply;
    var n1 := EnsureRoute(n, m.dst);
    if Better(m.dstSeqno, m.hops, n1.table[m.dst]) {
      var r1 := ForwardEntry(n1.table[m.dst], n.id, now, m);
      var n2 := SetRoute(n1, m.dst, r1);
      DrainSafe(n2, m.dst, now, ForwardIt);
      DrainSilent(n2, m.dst, now, ForwardIt);
      var b := Drain(n2, m.dst, now, ForwardIt);
      if m.to in b.table {
        assert SameRoute(n2.table[m.to], b.table[m.to]);
        assert m.to in n.table ==> RouteOk(n.table[m.to]) && n.table[m.to].flag != InRepair;
      }
      RelayReplySafe(b, now, m);
    }
  }

  lemma RelayReplySafe(n: Node, now: real, m: Reply)
    requires Safe(n) && m.dst in n.table && m.to != BROADCAST
    requires m.to in n.table && Usable(n.table[m.to]) ==> n.table[m.to].flag == Up
    ensures Safe(RelayReply(n, now, m))
  {
  }

  lemma {:induction false} ErrorScanSafe(n: Node, re: RouteError, lost: seq<Lost>)
    requires Safe(n) && NodeOk(n) && !n.localRepair && ErrorOk(re) && (forall l :: l in lost ==> l in re.lost)
    ensures Safe(ErrorScan(n, re.from, lost).0)
  {
    if lost != [] {
      var k := |lost| - 1;
      ErrorScanSafe(n, re, lost[..k]);
      ErrorScanStep(n, re, lost[..k]);
      var n1 := ErrorScan(n, re.from, lost[..k]).0;
      if Breaks(n1, re.from, lost[k]) {
        assert n1.table[lost[k].dst] == n.table[lost[k].dst];
        assert RouteOk(n.table[lost[k].dst]) && n.table[lost[k].dst].flag != InRepair;
      }
    }
  }

  lemma LinkFailureSafe(n: Node, b: Node, id: Addr)
    requires NodeOk(n) && !n.localRepair && Safe(b) && b.table == n.table
    ensures Safe(HandleLinkFailure(b, id))
  {
    forall d | d in b.table && RoutedVia(b.table[d], id) ensures b.table[d].flag == Up && Even(b.table[d].seqno) {
      assert RouteOk(n.table[d]) && n.table[d].flag != InRepair;
    }
  }

  lemma RtResolveSafe(n: Node, now: real, pkt: Data)
    requires Safe(n) && NodeOk(n) && !n.localRepair && pkt.dst != BROADCAST
    ensures Safe(RtResolve(n, now, pkt))
  {
    hide SendRequest, Enqueue;
    var n1 := EnsureRoute(n, pkt.dst);
    assert RouteOk(n1.table[pkt.dst]);
    assert pkt.dst in n.table ==> n.table[pkt.dst].flag != InRepair;
    EnqueueSafe(n1, pkt, now);
    SendRequestSafe(Enqueue(n1, pkt, now), pkt.dst, now);
  }

  lemma RecvDataSafe(n: Node, now: real, pkt: Data)
    requires Safe(n) && NodeOk(n) && !n.localRepair
    ensures Safe(RecvData(n, now, pkt))
  {
    hide RtResolve;
    var p := if pkt.src != n.id then pkt.(ttl := pkt.ttl - 1)
             else if pkt.dst != BROADCAST then pkt.(ttl := NETWORK_DIAMETER)
             else pkt;
    if p.dst != BROADCAST {
      RtResolveSafe(n, now, p);
    }
  }

  /** What a message must satisfy: no broadcast source, no hop count that means "no route". */
  ghost predicate MessageFits(n: Node, m: Message) {
    match m
    case Rreq(q) => q.src != BROADCAST && q.hops != INFINITY2
    case Rrep(q) => q.dst != BROADCAST && q.to != BROADCAST
                    && (Better(q.dstSeqno, q.hops, RouteOf(n, q.dst)) ==> q.hops != INFINITY2)
    case Rerr(q) => ErrorOk(q)
  }

  lemma HearSafe(n: Node, now: real, m: Message)
    requires Safe(n) && NodeOk(n) && !n.localRepair && MessageFits(n, m)
    ensures Safe(RecvAodv(n, now, m))
  {
    hide RecvRequest, RecvReply, ErrorScan;
    match m
    case Rreq(q) => RecvRequestSafe(n, now, q.(ttl := q.ttl - 1));
    case Rrep(q) => RecvReplySafe(n, now, q.(ttl := q.ttl - 1));
    case Rerr(q) =>
      ErrorScanSafe(n, q, q.lost);
      ErrorScanStep(n, q, q.lost);
  }

  /** One handler run of an agent without local repair violates no assertion. */
  lemma HandleSafe(n: Node, now: real, input: Input)
    requires Safe(n) && NodeOk(n) && !n.localRepair
    requires input.Hear? ==> MessageFits(n, input.msg)
    ensures Safe(Handle(n, now, input))
  {
    hide RecvAodv, RecvData, RtPurge, HandleLinkFailure, StartRepair;
    match input
    case Hear(m) => HearSafe(n, now, m);
    case Packet(pkt) => RecvDataSafe(n, now, pkt);
    case LinkDown(pkt, neighbor) =>
      var n1 := Emit(n, Drop(pkt, MacCallback));
      var n2 := n1.(seqno := n1.seqno + 2);
      LinkFailureSafe(n, Check(n2, Even(n2.seqno)), neighbor);
    case RouteTimer => RtPurgeSafe(n, now);
    case CacheTimer =>
    case RepairTimer(_) =>
  }

  lemma RtPurgeSafe(n: Node, now: real)
    requires Safe(n) && NodeOk(n)
    ensures Safe(RtPurge(n, now))
  {
    PurgeAllSafe(n, n.order, now);
  }

  /** Every agent of the network is built without local repair and has violated no assertion. */
  predicate AllSafe(s: Net) { WithoutRepair(s) && forall i :: 0 <= i < |s.nodes| ==> Safe(s.nodes[i]) }

  lemma FlightFits(s: Net, i: nat, f: Flight)
    requires OrderInv(s) && i < |s.nodes| && f in s.air && HeardFits(s, i, Some(f))
    ensures MessageFits(s.nodes[i].(out := []), f.msg)
  {
    hide OrderInv;
    HeardHolds(s, Some(f));
    if f.msg.Rrep? {
      assert RouteOf(s.nodes[i].(out := []), f.msg.rp.dst) == RouteOf(s.nodes[i], f.msg.rp.dst);
    }
  }

  lemma NextSafe(s: Net, a: Action)
    requires OrderInv(s) && AllSafe(s) && Enabled(s, a) && !a.Loses? && !LosingReplyAt(s, a)
    ensures AllSafe(Next(s, a))
  {
    hide Next, OrderInv, NodeOk, Safe, LosingReplyAt;
    var n := s.nodes[a.i].(out := []);
    OrderHasOk(s, a.i);
    NodeOkWithoutEffects(s.nodes[a.i]);
    if a.Hears? {
      NextFits(s, a);
      FlightFits(s, a.i, a.f);
    }
    SafeWithoutEffects(s.nodes[a.i]);
    HandleSafe(n, a.now, InputOf(a));
    ActsByHandling(s, a);
    NextKeepsSize(s, a);
    OrderIsParity(s);
    ParityIsBase(s);
    NextKeepsBuild(s, a);
  }

  lemma SafeWithoutEffects(n: Node)
    requires Safe(n)
    ensures Safe(n.(out := []))
  {
  }

  /** Every assertion of the agent holds on every run without local repair, in networks of any size, as
      long as nobody accepts a reply with a wrapped hop count. */
  lemma {:induction false} AssertionsHold(states: seq<Net>, actions: seq<Action>, k: nat)
    requires Run(states, actions) && NoLosingReply(states, actions) && k < |states|
    requires WithoutRepair(states[0])
    ensures AllSafe(states[k])
  {
    hide OrderInv, Next, Safe, RepairFailsAt, RepairSpoilsAt, LosingReplyAt;
    if k == 0 {
      InitSafe(states[0]);
    } else {
      var s, a := states[k - 1], actions[k - 1];
      AssertionsHold(states, actions, k - 1);
      WithoutRepairIsSteady(states, actions);
      OrderlyRun(states, actions, k - 1);
      if a.Loses? {
        LosesSafe(s, a);
      } else {
        NextSafe(s, a);
      }
    }
  }

  lemma LosesSafe(s: Net, a: Action)
    requires AllSafe(s) && Enabled(s, a) && a.Loses?
    ensures AllSafe(Next(s, a))
  {
  }

  lemma InitSafe(s: Net)
    requires Init(s) && WithoutRepair(s)
    ensures AllSafe(s)
  {
    forall i | 0 <= i < |s.nodes| ensures Safe(s.nodes[i]) {
      assert s.nodes[i] == NewNode(i, false);
    }
  }

  /** In networks whose size fits the hop count field: on every run without local repair. */
  lemma AssertionsHoldWhenSized(states: seq<Net>, actions: seq<Action>, k: nat)
    requires Run(states, actions) && Sized(states, actions) && k < |states| && WithoutRepair(states[0])
    ensures AllSafe(states[k])
  {
    hide Next, Init, AllSafe, NoLosingReply;
    WithoutRepairIsSteady(states, actions);
    SizedLosesNoReply(states, actions);
    AssertionsHold(states, actions, k);
  }

  /** A build without local repair needs no exclusion of failed repairs: its routes never loop. */
  lemma LoopFreedomWithoutRepair(states: seq<Net>, actions: seq<Action>, k: nat, d: Addr, path: seq<Addr>)
    requires Run(states, actions) && NoLosingReply(states, actions) && k < |states| && WithoutRepair(states[0])
    requires RoutePath(states[k], d, path)
    ensures NoDuplicates(path) && |path| <= |states[k].nodes|
  {
    hide Next, Init, RoutePath;
    WithoutRepairIsSteady(states, actions);
    LoopFreedom(states, actions, k, d, path);
  }
}
