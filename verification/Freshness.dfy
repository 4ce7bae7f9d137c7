/** The freshness order of routes: what every step does to it, and the one step that breaks it. */
module Freshness {
  import opened Types
  import opened RouteTable
  import opened Handlers
  import opened LocalSteps
  import opened Network
  import opened Baseline
  import opened Parity

  /** No entry of `n` is less fresh in `n'`: sequence number up, then hops down. */
  ghost predicate NoFresherBefore(n: Node, n': Node) {
    forall d, seqno, hops :: Fresh(n, d, seqno, hops) ==> Fresh(n', d, seqno, hops)
  }

  /** Under the parity discipline an action moves every entry of every node up the order, or leaves it
      equal, if and only if it is not a failed repair of that node. */
  lemma StepKeepsFreshnessIff(s: Net, a: Action, i: nat)
    requires ParityInv(s) && Enabled(s, a) && i < |s.nodes| == |Next(s, a).nodes|
    ensures NoFresherBefore(s.nodes[i], Next(s, a).nodes[i]) <==> !(RepairFailsAt(s, a) && a.i == i)
  {
    hide Next, Later, ParityInv, NoFresherBefore;
    NextKeepsSize(s, a);
    if !RepairSpoilsAt(s, a) {
      NextIsLater(s, a);
      LaterKeepsEntries(s, Next(s, a), i);
    } else if a.i != i {
      SameEntries(s.nodes[i]);
    } else {
      SoundAt(s, i);
      ActsByHandling(s, a);
      SoundWithoutEffects(s.nodes[i]);
      RepairTimerKeepsFreshnessIff(s.nodes[i].(out := []), a.input.dst);
      EffectsDoNotMatter(s.nodes[i], Next(s, a).nodes[i]);
    }
  }

  lemma LaterKeepsEntries(s: Net, s': Net, i: nat)
    requires Later(s, s') && i < |s.nodes|
    ensures NoFresherBefore(s.nodes[i], s'.nodes[i])
  {
  }

  lemma SameEntries(n: Node)
    ensures NoFresherBefore(n, n)
  {
  }

  lemma SoundAt(s: Net, i: nat)
    requires ParityInv(s) && i < |s.nodes|
    ensures NodeSound(s.nodes[i])
  {
  }

  lemma EffectsDoNotMatter(n: Node, n': Node)
    ensures NoFresherBefore(n.(out := []), n') <==> NoFresherBefore(n, n')
  {
    assert forall d, seqno, hops :: Fresh(n.(out := []), d, seqno, hops) <==> Fresh(n, d, seqno, hops);
  }

  /** Every action of a steady run, in a network of any size, keeps the order at every node. */
  lemma EveryStepKeepsFreshness(states: seq<Net>, actions: seq<Action>, k: nat, i: nat)
    requires SteadyRun(states, actions) && k < |actions| && i < |states[k].nodes|
    ensures i < |states[k + 1].nodes| && NoFresherBefore(states[k].nodes[i], states[k + 1].nodes[i])
  {
    hide Next, Init, ParityInv, NoFresherBefore, RepairSpoilsAt;
    SteadyParity(states, actions, k);
    NextKeepsSize(states[k], actions[k]);
    NextIsLater(states[k], actions[k]);
    LaterKeepsEntries(states[k], states[k + 1], i);
  }

  /** The repair timer keeps the order exactly when it does not find a usable route under repair. */
  lemma RepairTimerKeepsFreshnessIff(n: Node, dst: Addr)
    requires NodeSound(n)
    ensures NoFresherBefore(n, RepairTimeout(n, dst)) <==> !RepairFails(n, RepairTimer(dst))
  {
    var n' := RepairTimeout(n, dst);
    if RepairFails(n, RepairTimer(dst)) {
      var r := n.table[dst];
      RepairLowers(n, dst);
    } else if dst in n.table && n.table[dst].flag != Up {
      assert RouteSound(n.table[dst]);
    }
  }

  lemma RepairLowers(n: Node, dst: Addr)
    requires NodeSound(n) && RepairFails(n, RepairTimer(dst))
    ensures !NoFresherBefore(n, RepairTimeout(n, dst))
  {
    var r := n.table[dst];
    assert Fresh(n, dst, r.seqno, r.hops);
    assert !Fresh(RepairTimeout(n, dst), dst, r.seqno, r.hops);
  }

  /* ---------- sequence numbers alone, with no assumption at all ---------- */

  /** No entry disappears and no sequence number decreases. */
  ghost predicate Rises(n: Node, n': Node) {
    forall d :: d in n.table ==> d in n'.table && n.table[d].seqno <= n'.table[d].seqno
  }

  lemma SendRequestRises(n: Node, d: Addr, now: real)
    requires d in n.table
    ensures Rises(n, SendRequest(n, d, now))
  {
    hide Drain;
    DrainSilent(SetRoute(n, d, GivenUp(n.table[d], now)), d, now, DropIt);
  }

  lemma PurgeEntryRises(n: Node, d: Addr, now: real)
    requires d in n.table
    ensures Rises(n, PurgeEntry(n, d, now))
  {
    hide Drain, SendRequest;
    var n0 := Check(n, Usable(n.table[d]));
    DrainSilent(n0, d, now, DropIt);
    DrainSilent(n0, d, now, ForwardIt);
    SendRequestRises(n, d, now);
  }

  lemma {:induction false} PurgeAllRises(n: Node, ds: seq<Addr>, now: real)
    ensures Rises(n, PurgeAll(n, ds, now))
    decreases |ds|
  {
    hide PurgeEntry;
    if ds != [] {
      if ds[0] in n.table {
        PurgeEntryRises(n, ds[0], now);
        PurgeAllRises(PurgeEntry(n, ds[0], now), ds[1..], now);
      } else {
        PurgeAllRises(n, ds[1..], now);
      }
    }
  }

  lemma ReverseRouteRises(n: Node, now: real, m: Request)
    requires m.src in n.table
    ensures Rises(n, ReverseRoute(n, now, m))
  {
    hide Drain;
    var r := n.table[m.src];
    if Better(m.srcSeqno, m.hops, r) {
      var r2 := ReverseEntry(r, now, m);
      DrainSilent(SetRoute(n, m.src, r2), m.src, now, ForwardIt);
    }
  }

  lemma AnswerRequestRises(n: Node, now: real, m: Request)
    requires m.src in n.table
    ensures Rises(n, AnswerRequest(n, now, m))
  {
  }

  lemma RecvRequestRises(n: Node, now: real, m: Request)
    ensures Rises(n, RecvRequest(n, now, m))
  {
    hide ReverseRoute, AnswerRequest;
    var n1 := EnsureRoute(CacheInsert(n, m.src, m.bid, now), m.src);
    ReverseRouteRises(n1, now, m);
    AnswerRequestRises(ReverseRoute(n1, now, m), now, m);
  }

  lemma RelayReplyRises(n: Node, now: real, m: Reply)
    requires m.dst in n.table
    ensures Rises(n, RelayReply(n, now, m))
  {
  }

  lemma RecvReplyRises(n: Node, now: real, m: Reply)
    ensures Rises(n, RecvReply(n, now, m))
  {
    hide Drain, RelayReply;
    var n1 := EnsureRoute(n, m.dst);
    if Better(m.dstSeqno, m.hops, n1.table[m.dst]) {
      var r1 := ForwardEntry(n1.table[m.dst], n.id, now, m);
      var how := ReplyDisposal(m);
      DrainSilent(SetRoute(n1, m.dst, r1), m.dst, now, how);
      RelayReplyRises(Drain(SetRoute(n1, m.dst, r1), m.dst, now, how), now, m);
    }
  }

  lemma {:induction false} ErrorScanRises(n: Node, from: Addr, lost: seq<Lost>)
    ensures Rises(n, ErrorScan(n, from, lost).0)
  {
    if lost != [] {
      ErrorScanRises(n, from, lost[..|lost| - 1]);
    }
  }

  lemma RtResolveRises(n: Node, now: real, pkt: Data)
    ensures Rises(n, RtResolve(n, now, pkt))
  {
    hide SendRequest, Enqueue, ForwardVia;
    var n1 := EnsureRoute(n, pkt.dst);
    var r := n1.table[pkt.dst];
    if r.flag == Up {
      ForwardViaSilent(Check(n1, Usable(r)), pkt.dst, pkt, now);
    } else if pkt.src == n.id || r.flag == InRepair {
      EnqueueSilent(n1, pkt, now);
      SendRequestRises(Enqueue(n1, pkt, now), pkt.dst, now);
    }
  }

  lemma StartRepairRises(n: Node, now: real, pkt: Data)
    requires pkt.dst in n.table
    ensures Rises(n, StartRepair(n, now, pkt))
  {
    hide SendRequest, Enqueue;
    var n1 := Enqueue(n, pkt, now);
    EnqueueSilent(n, pkt, now);
    SendRequestRises(SetRoute(n1, pkt.dst, n1.table[pkt.dst].(flag := InRepair)), pkt.dst, now);
  }

  lemma LinkFailureRises(n: Node, neighbor: Addr)
    ensures Rises(n, HandleLinkFailure(n, neighbor))
  {
    hide LostVia;
  }

  lemma LinkFailedRises(n: Node, now: real, pkt: Data, neighbor: Addr)
    ensures Rises(n, LinkFailed(n, now, pkt, neighbor))
  {
    hide StartRepair, HandleLinkFailure;
    if pkt.dst in n.table {
      StartRepairRises(n, now, pkt);
    }
    var n1 := Emit(n, Drop(pkt, MacCallback)).(seqno := n.seqno + 2);
    LinkFailureRises(Check(n1, Even(n1.seqno)), neighbor);
  }

  /** Whatever state an agent is in and whatever happens to it, failed repairs included, its
      entries stay and their sequence numbers never decrease. */
  lemma SeqnosNeverDecrease(n: Node, now: real, input: Input)
    ensures Rises(n, Handle(n, now, input))
  {
    hide RecvRequest, RecvReply, ErrorScan, RtResolve, LinkFailed, PurgeAll;
    match input
    case Hear(m) =>
      match m {
        case Rreq(q) => RecvRequestRises(n, now, q.(ttl := q.ttl - 1));
        case Rrep(q) => RecvReplyRises(n, now, q.(ttl := q.ttl - 1));
        case Rerr(q) => ErrorScanRises(n, q.from, q.lost);
      }
    case Packet(pkt) =>
      RtResolveRises(n, now, pkt.(ttl := pkt.ttl - 1));
      RtResolveRises(n, now, pkt.(ttl := NETWORK_DIAMETER));
    case LinkDown(pkt, neighbor) => LinkFailedRises(n, now, pkt, neighbor);
    case RouteTimer => PurgeAllRises(n, n.order, now);
    case CacheTimer =>
    case RepairTimer(_) =>
  }
}
