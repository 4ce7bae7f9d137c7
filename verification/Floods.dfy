/** Replies are passed on once, and request floods end. */
module Floods {
  import opened Types
  import opened RouteTable
  import opened Handlers
  import opened LocalSteps
  import opened Network
  import opened Baseline
  import opened Order
  import opened Invariant
  import opened Freshness

  /* ---------- replies ---------- */

  /** The messages a handler run sends are justified by what it heard. */
  lemma SentIsJustified(s: Net, a: Action, e: Effect)
    requires BaseInv(s) && Enabled(s, a) && !a.Loses?
    requires e in Next(s, a).nodes[a.i].out && e.Transmit?
    ensures Justified(s.nodes[a.i].(out := []), Next(s, a).nodes[a.i], e.msg, CauseOf(InputOf(a)))
    ensures Next(s, a).nodes[a.i].id == a.i
  {
    hide Next, RouteBase, FlightBase, NodeSound, Justified;
    if RepairSpoilsAt(s, a) {
      SpoilingRepair(s, a);
    } else {
      ActionLegal(s, a);
      LegalFrame(s.nodes[a.i].(out := []), Next(s, a).nodes[a.i], CauseOf(InputOf(a)));
      LegalMessage(s.nodes[a.i].(out := []), Next(s, a).nodes[a.i], CauseOf(InputOf(a)), e);
    }
  }

  /** What becomes of a copy `f` of a reply that node `i` passes on as effect `e`. */
  predicate PassedOn(s: Net, f: Flight, i: nat, e: Effect)
    requires f.msg.Rrep? && e.Transmit?
  {
    && e.msg.Rrep? && e.msg.rp.hops == f.msg.rp.hops + 1
    && Flight(e.next, e.msg, f.asked, f.trail + {i}) in s.air
  }

  /** What an agent sends when it hears a reply is that reply one hop further, if it was better. */
  lemma SentIsRelay(s: Net, a: Action, e: Effect)
    requires BaseInv(s) && Enabled(s, a) && a.Hears? && a.f.msg.Rrep?
    requires e in Next(s, a).nodes[a.i].out && e.Transmit?
    ensures Next(s, a).nodes[a.i].id == a.i && e.msg.Rrep?
    ensures RelayedReply(s.nodes[a.i].(out := []), Next(s, a).nodes[a.i], e.msg.rp, Some(a.f.msg))
  {
    hide Next, BaseInv, RelayedReply;
    SentIsJustified(s, a, e);
    ActsByHandling(s, a);
    OnlyRepliesFromReplies(s.nodes[a.i].(out := []), a.now, a.f.msg.rp, e);
  }

  /** A better reply finds the node outside its trail. */
  lemma RelayerIsNew(s: Net, i: nat, f: Flight)
    requires OrderInv(s) && f in s.air && f.msg.Rrep? && i < |s.nodes|
    requires Better(f.msg.rp.dstSeqno, f.msg.rp.hops, RouteOf(s.nodes[i], f.msg.rp.dst))
    ensures i !in f.trail && |f.trail + {i}| <= |s.nodes|
  {
    hide OrderInv;
    var p := f.msg.rp;
    HeardHolds(s, Some(f));
    assert !Fresh(s.nodes[i], p.dst, p.dstSeqno, p.hops - 1);
    RangeSize(f.trail + {i}, |s.nodes|);
  }

  /** A node passes on a reply only if it is not among those this copy went through already: along
      its way a reply is forwarded at most once by any node, and it gains one hop each time. */
  lemma ReplyRelayedOnce(states: seq<Net>, actions: seq<Action>, k: nat, e: Effect)
    requires CalmRun(states, actions) && NoLosingReply(states, actions) && k < |actions|
    requires actions[k].Hears? && actions[k].f.msg.Rrep?
    requires e in states[k + 1].nodes[actions[k].i].out && e.Transmit?
    ensures actions[k].i !in actions[k].f.trail
    ensures PassedOn(states[k + 1], actions[k].f, actions[k].i, e)
    ensures |actions[k].f.trail + {actions[k].i}| <= |states[k].nodes|
  {
    hide Next, BaseInv, OrderInv, Init, LosingReplyAt;
    var s, a := states[k], actions[k];
    OrderlyRun(states, actions, k);
    RunBase(states, actions, k);
    NextFits(s, a);
    SentIsRelay(s, a, e);
    assert RouteOf(s.nodes[a.i].(out := []), a.f.msg.rp.dst) == RouteOf(s.nodes[a.i], a.f.msg.rp.dst);
    RelayerIsNew(s, a.i, a.f);
    SentIsInFlight(s, a, e);
  }

  /** Hearing a reply makes an agent send nothing but replies. */
  lemma OnlyRepliesFromReplies(n: Node, now: real, p: Reply, e: Effect)
    requires n.out == [] && e in Handle(n, now, Hear(Rrep(p))).out && e.Transmit?
    ensures e.msg.Rrep?
  {
    hide ForwardRoute, RelayReply;
    var m := p.(ttl := p.ttl - 1);
    var n1 := EnsureRoute(n, m.dst);
    ForwardRouteSendsNothing(n1, now, m);
    RelayReplySends(ForwardRoute(n1, now, m), now, m);
  }

  /** Freshness once reached is kept for the rest of the run. */
  lemma {:induction false} FreshForever(states: seq<Net>, actions: seq<Action>, j: nat, k: nat, i: nat, d: Addr,
                                        seqno: nat, hops: nat)
    requires SteadyRun(states, actions) && j <= k < |states|
    requires i < |states[j].nodes| && Fresh(states[j].nodes[i], d, seqno, hops)
    ensures i < |states[k].nodes| && Fresh(states[k].nodes[i], d, seqno, hops)
    decreases k
  {
    hide Next, Fresh, Init, RepairSpoilsAt;
    if j < k {
      FreshForever(states, actions, j, k - 1, i, d, seqno, hops);
      EveryStepKeepsFreshness(states, actions, k - 1, i);
    }
  }

  predicate HoldsReply(n: Node, p: Reply) { Fresh(n, p.dst, p.dstSeqno, p.hops) }

  /** Once a node holds (seqno, hops) for d, every later copy of such a reply with as many hops or
      more changes nothing at that node and is not passed on. */
  lemma LaterCopySuppressed(states: seq<Net>, actions: seq<Action>, j: nat, k: nat)
    requires SteadyRun(states, actions) && j <= k < |actions|
    requires actions[k].Hears? && actions[k].f.msg.Rrep? && actions[k].i < |states[j].nodes|
    requires HoldsReply(states[j].nodes[actions[k].i], actions[k].f.msg.rp)
    ensures states[k + 1] == states[k].(nodes := states[k + 1].nodes, clock := actions[k].now)
    ensures actions[k].i < |states[k].nodes| == |states[k + 1].nodes|
    ensures states[k + 1].nodes[actions[k].i] == states[k].nodes[actions[k].i].(out := [])
  {
    hide Handle;
    var i, p := actions[k].i, actions[k].f.msg.rp;
    FreshForever(states, actions, j, k, i, p.dst, p.dstSeqno, p.hops);
    SuppressedReply(states[k].nodes[i].(out := []), actions[k].now, p);
    assert Sent(states[k].nodes[i].(out := []), Some(actions[k].f)) == {};
  }

  lemma SuppressedReply(n: Node, now: real, p: Reply)
    requires HoldsReply(n, p)
    ensures Handle(n, now, Hear(Rrep(p))) == n
  {
  }

  lemma SuppressedSendsNothing(states: seq<Net>, actions: seq<Action>, j: nat, k: nat)
    requires SteadyRun(states, actions) && j <= k < |actions|
    requires actions[k].Hears? && actions[k].f.msg.Rrep? && actions[k].i < |states[j].nodes|
    requires HoldsReply(states[j].nodes[actions[k].i], actions[k].f.msg.rp)
    ensures states[k + 1].nodes[actions[k].i].out == []
  {
    hide Next, RepairSpoilsAt;
    LaterCopySuppressed(states, actions, j, k);
  }

  /** In this action node `i` passes on a reply for `d` that came in with number `seqno` and `hops` hops. */
  predicate Relays(s: Net, a: Action, i: nat, d: Addr, seqno: nat, hops: nat)
    requires Enabled(s, a)
  {
    && a.Hears? && a.i == i && a.f.msg.Rrep?
    && a.f.msg.rp.dst == d && a.f.msg.rp.dstSeqno == seqno && a.f.msg.rp.hops == hops
    && exists e :: e in Next(s, a).nodes[i].out && e.Transmit?
  }

  /** A relay leaves the node holding what the reply offered. */
  lemma RelayHolds(states: seq<Net>, actions: seq<Action>, k: nat, i: nat, d: Addr, seqno: nat, hops: nat)
    requires Run(states, actions) && k < |actions| && Relays(states[k], actions[k], i, d, seqno, hops)
    ensures i < |states[k + 1].nodes| && Fresh(states[k + 1].nodes[i], d, seqno, hops)
  {
    hide Next, BaseInv;
    var s, a := states[k], actions[k];
    RunBase(states, actions, k);
    NextKeepsSize(s, a);
    var e :| e in Next(s, a).nodes[i].out && e.Transmit?;
    SentIsJustified(s, a, e);
    ActsByHandling(s, a);
    OnlyRepliesFromReplies(s.nodes[i].(out := []), a.now, a.f.msg.rp, e);
  }

  /** Replies of one number for one destination that a node passes on come in with fewer and fewer hops. */
  lemma RelaysGetShorter(states: seq<Net>, actions: seq<Action>, j: nat, k: nat, i: nat, d: Addr, seqno: nat,
                         first: nat, second: nat)
    requires SteadyRun(states, actions) && j < k < |actions|
    requires Relays(states[j], actions[j], i, d, seqno, first)
    requires Relays(states[k], actions[k], i, d, seqno, second)
    ensures second < first
  {
    hide Next, RepairSpoilsAt;
    RelayHolds(states, actions, j, i, d, seqno, first);
    if second >= first {
      SuppressedSendsNothing(states, actions, j + 1, k);
    }
  }

  /** How often node `i` passes on a reply (d, seqno, hops) between two points of a run. */
  function TimesRelayed(states: seq<Net>, actions: seq<Action>, i: nat, d: Addr, seqno: nat, hops: nat,
                        first: nat, last: nat): nat
    requires first <= last <= |actions| <= |states|
    requires forall k :: 0 <= k < |actions| ==> Enabled(states[k], actions[k])
    decreases last - first
  {
    if first == last then 0
    else (if Relays(states[first], actions[first], i, d, seqno, hops) then 1 else 0)
         + TimesRelayed(states, actions, i, d, seqno, hops, first + 1, last)
  }

  lemma {:induction false} NotRelayedAgain(states: seq<Net>, actions: seq<Action>, j: nat, i: nat, d: Addr,
                                           seqno: nat, hops: nat, first: nat, last: nat)
    requires SteadyRun(states, actions) && j < first <= last <= |actions|
    requires Relays(states[j], actions[j], i, d, seqno, hops)
    ensures TimesRelayed(states, actions, i, d, seqno, hops, first, last) == 0
    decreases last - first
  {
    hide Relays, Next, RepairSpoilsAt, Init;
    if first < last {
      NotRelayedAgain(states, actions, j, i, d, seqno, hops, first + 1, last);
      if Relays(states[first], actions[first], i, d, seqno, hops) {
        RelaysGetShorter(states, actions, j, first, i, d, seqno, hops, hops);
      }
    }
  }

  /** On the whole run a node passes on any one reply at most once, however many copies arrive. */
  lemma {:induction false} RelayedAtMostOnce(states: seq<Net>, actions: seq<Action>, i: nat, d: Addr,
                                             seqno: nat, hops: nat, first: nat, last: nat)
    requires SteadyRun(states, actions) && first <= last <= |actions|
    ensures TimesRelayed(states, actions, i, d, seqno, hops, first, last) <= 1
    decreases last - first
  {
    hide Relays, Next, RepairSpoilsAt, Init;
    if first < last {
      if Relays(states[first], actions[first], i, d, seqno, hops) {
        NotRelayedAgain(states, actions, first, i, d, seqno, hops, first + 1, last);
      } else {
        RelayedAtMostOnce(states, actions, i, d, seqno, hops, first + 1, last);
      }
    }
  }

  /* ---------- requests ---------- */

  /** In this action a node other than the source handles request (src, bid) beyond the cache test:
      it answers or rebroadcasts it. */
  predicate Handles(s: Net, a: Action, src: Addr, bid: nat)
    requires Enabled(s, a)
  {
    && a.Hears? && a.f.msg.Rreq? && a.f.msg.rq.src == src && a.f.msg.rq.bid == bid
    && s.nodes[a.i].id != src && !InCache(s.nodes[a.i].cache, src, bid)
  }

  /** Otherwise a copy of the request changes nothing and nothing is sent. */
  lemma UnhandledIsIgnored(s: Net, a: Action)
    requires Enabled(s, a) && a.Hears? && a.f.msg.Rreq?
    requires !Handles(s, a, a.f.msg.rq.src, a.f.msg.rq.bid)
    ensures Next(s, a).nodes[a.i] == s.nodes[a.i].(out := []) && Next(s, a).air == s.air
  {
    var n := s.nodes[a.i].(out := []);
    assert Handle(n, a.now, InputOf(a)) == n;
    assert Sent(n, Some(a.f)) == {};
  }

  /** No cache purge in this action forgets (src, bid). */
  ghost predicate Remembers(s: Net, a: Action, src: Addr, bid: nat)
    requires Enabled(s, a)
  {
    a.Acts? && a.input.CacheTimer? && InCache(s.nodes[a.i].cache, src, bid) ==>
      InCache(IdPurge(s.nodes[a.i], a.now).cache, src, bid)
  }

  /** How often (src, bid) is handled between two points of a run. */
  function TimesHandled(states: seq<Net>, actions: seq<Action>, src: Addr, bid: nat, first: nat, last: nat): nat
    requires first <= last <= |actions| <= |states|
    requires forall k :: 0 <= k < |actions| ==> Enabled(states[k], actions[k])
    decreases last - first
  {
    if first == last then 0
    else (if Handles(states[first], actions[first], src, bid) then 1 else 0)
         + TimesHandled(states, actions, src, bid, first + 1, last)
  }

  /** The nodes that have yet to see the request. */
  function Unaware(s: Net, src: Addr, bid: nat): set<nat> {
    set i | 0 <= i < |s.nodes| && s.nodes[i].id != src && !InCache(s.nodes[i].cache, src, bid)
  }

  /** An action that handles the request takes one node out of those unaware of it; none joins them. */
  lemma HandlingRemovesOne(s: Net, a: Action, src: Addr, bid: nat)
    requires BaseInv(s) && Enabled(s, a) && Remembers(s, a, src, bid)
    ensures |Unaware(Next(s, a), src, bid)| + (if Handles(s, a, src, bid) then 1 else 0) <= |Unaware(s, src, bid)|
  {
    hide Next, BaseInv, Remembers;
    var s' := Next(s, a);
    NextKeepsSize(s, a);
    if !a.Loses? {
      NodeRemembers(s, a, src, bid);
    }
    SubsetSize(Unaware(s', src, bid), Unaware(s, src, bid));
    if Handles(s, a, src, bid) {
      ActsByHandling(s, a);
      HandledIsCached(s.nodes[a.i].(out := []), a.now, a.f.msg.rq);
      OneMore(Unaware(s', src, bid), Unaware(s, src, bid), a.i);
    }
  }

  lemma HandledIsCached(n: Node, now: real, q: Request)
    requires q.src != n.id && !InCache(n.cache, q.src, q.bid)
    ensures InCache(Handle(n, now, Hear(Rreq(q))).cache, q.src, q.bid)
  {
    hide ReverseRoute, AnswerRequest;
    var m := q.(ttl := q.ttl - 1);
    CacheInsertKeeps(n, m.src, m.bid, now);
    var n1 := EnsureRoute(CacheInsert(n, m.src, m.bid, now), m.src);
    ReverseRouteCache(n1, now, m);
    AnswerRequestCache(ReverseRoute(n1, now, m), now, m);
  }

  lemma ReverseRouteCache(n: Node, now: real, m: Request)
    requires m.src in n.table
    ensures ReverseRoute(n, now, m).cache == n.cache
  {
    hide Drain;
    var r2 := ReverseEntry(n.table[m.src], now, m);
    DrainSilent(SetRoute(n, m.src, r2), m.src, now, ForwardIt);
  }

  lemma NodeRemembers(s: Net, a: Action, src: Addr, bid: nat)
    requires BaseInv(s) && Enabled(s, a) && Remembers(s, a, src, bid) && !a.Loses?
    ensures Next(s, a).nodes[a.i].id == s.nodes[a.i].id
    ensures InCache(s.nodes[a.i].cache, src, bid) ==> InCache(Next(s, a).nodes[a.i].cache, src, bid)
  {
    hide RouteBase, NodeSound, Legal, Next;
    if RepairSpoilsAt(s, a) {
      SpoilingRepair(s, a);
    } else {
      ActionLegal(s, a);
      LegalFrame(s.nodes[a.i].(out := []), Next(s, a).nodes[a.i], CauseOf(InputOf(a)));
      ActsByHandling(s, a);
    }
  }

  /** Every request flood ends: as long as the caches remember (src, bid), all nodes together answer
      or rebroadcast it at most N times, however many copies the network delivers. */
  lemma {:induction false} FloodBounded(states: seq<Net>, actions: seq<Action>, src: Addr, bid: nat,
                                        first: nat, last: nat)
    requires Run(states, actions) && first <= last <= |actions|
    requires forall k :: first <= k < last ==> Remembers(states[k], actions[k], src, bid)
    ensures TimesHandled(states, actions, src, bid, first, last) + |Unaware(states[last], src, bid)|
            <= |Unaware(states[first], src, bid)| <= |states[0].nodes|
    decreases last - first
  {
    hide BaseInv, Next, Handles, Remembers;
    RunBase(states, actions, first);
    RangeSize(Unaware(states[first], src, bid), |states[first].nodes|);
    if first < last {
      HandlingRemovesOne(states[first], actions[first], src, bid);
      FloodBounded(states, actions, src, bid, first + 1, last);
    }
  }

  /** `q` is request `p` one hop further. */
  predicate Spent(p: Request, q: Request) {
    && q.src == p.src && q.bid == p.bid
    && 1 <= q.ttl < p.ttl && q.hops + q.ttl == p.hops + p.ttl <= NETWORK_DIAMETER + 1
  }

  /** A rebroadcast moves one unit from the time to live to the hop count, so that even a forgotten
      request dies out within a network diameter of hops. */
  lemma RebroadcastSpendsTtl(states: seq<Net>, actions: seq<Action>, k: nat, e: Effect)
    requires Run(states, actions) && k < |actions|
    requires actions[k].Hears? && e in states[k + 1].nodes[actions[k].i].out && e.Transmit? && e.msg.Rreq?
    requires e.msg.rq.src != actions[k].i
    ensures actions[k].f.msg.Rreq? && Spent(actions[k].f.msg.rq, e.msg.rq)
    ensures Handles(states[k], actions[k], e.msg.rq.src, e.msg.rq.bid)
  {
    hide Handle, RouteBase, NodeSound, Init;
    var s, a := states[k], actions[k];
    RunBase(states, actions, k);
    SentIsJustified(s, a, e);
    assert FlightBase(s, a.f);
    assert RelayedRequest(s.nodes[a.i].(out := []), states[k + 1].nodes[a.i], e.msg.rq, Some(a.f.msg));
  }
}
