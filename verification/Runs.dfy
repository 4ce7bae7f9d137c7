/** The invariants along whole runs, and what they say about routes: no loops, bounded hop counts, and
    nobody ahead of the destination. */
module Runs {
  import opened Types
  import opened RouteTable
  import opened Handlers
  import opened LocalSteps
  import opened Network
  import opened Baseline
  import opened Parity
  import opened Order
  import opened Invariant

  /* ---------- sized networks ---------- */

  lemma InitInv(s: Net, slack: nat)
    requires Init(s) && |s.nodes| + slack <= 254
    ensures Inv(s, slack)
  {
    InitOrder(s);
  }

  /** An action remembers the request in flight `f`, unless it is a cache purge that is not patient. */
  lemma ActionStillCached(s: Net, a: Action, f: Flight)
    requires BaseInv(s) && Enabled(s, a) && !a.Loses? && !RepairSpoilsAt(s, a) && Patient(s, a) && f in s.air
    ensures StillCached(s, Next(s, a), f)
  {
    hide Legal, NodeSound, RouteBase, FlightBase;
    if InputOf(a).CacheTimer? {
      assert Next(s, a).nodes[a.i].cache == IdPurge(s.nodes[a.i], a.now).cache;
    } else {
      hide Next;
      ActionLegal(s, a);
      NextKeepsSize(s, a);
    }
  }

  lemma RunKeepsInv(s: Net, slack: nat, a: Action)
    requires Inv(s, slack) && Enabled(s, a) && !a.Loses? && !RepairFailsAt(s, a)
    requires slack >= NETWORK_DIAMETER || Patient(s, a)
    ensures Inv(Next(s, a), slack)
  {
    hide Next, Legal, OrderInv, ParityInv, BaseInv, FlightCount, RouteCount, Patient, RepairFailsAt, RepairSpoilsAt;
    InvIsParity(s, slack);
    CalmIsLegal(s, a);
    ActionLegal(s, a);
    if slack < NETWORK_DIAMETER {
      forall f | f in s.air ensures StillCached(s, Next(s, a), f) {
        ActionStillCached(s, a, f);
      }
    }
    LegalKeepsInv(s, slack, a.i, Next(s, a).nodes[a.i], HeardBy(a), a.now);
  }

  lemma LossKeepsInv(s: Net, slack: nat, a: Action)
    requires Inv(s, slack) && Enabled(s, a) && a.Loses?
    ensures Inv(Next(s, a), slack)
  {
    hide OrderInv, ParityInv, FlightCount, RouteCount;
    var s' := Next(s, a);
    InvIsParity(s, slack);
    LossKeepsOrder(s, a);
    NextIsLater(s, a);
    forall i, d | 0 <= i < |s'.nodes| && d in s'.nodes[i].table ensures RouteCount(s', slack, d, s'.nodes[i].table[d]) {
      RouteCountLater(s, s', slack, d, s.nodes[i].table[d]);
    }
    forall g | g in s'.air ensures FlightCount(s', slack, g) {
      FlightCountLater(s, s', slack, g);
    }
  }

  /** Every action keeps the invariant, failed repairs excepted. */
  lemma NextInv(s: Net, slack: nat, a: Action)
    requires Inv(s, slack) && Enabled(s, a) && !RepairFailsAt(s, a)
    requires slack >= NETWORK_DIAMETER || Patient(s, a)
    ensures Inv(Next(s, a), slack)
  {
    if a.Loses? {
      LossKeepsInv(s, slack, a);
    } else {
      RunKeepsInv(s, slack, a);
    }
  }

  lemma {:induction false} CalmRunInv(states: seq<Net>, actions: seq<Action>, slack: nat, k: nat)
    requires CalmRun(states, actions) && k < |states| && |states[0].nodes| + slack <= 254
    requires slack >= NETWORK_DIAMETER || PatientRun(states, actions)
    ensures Inv(states[k], slack) && |states[k].nodes| == |states[0].nodes|
  {
    hide Inv, Next, Init, RepairFailsAt, Patient;
    if k == 0 {
      InitInv(states[0], slack);
    } else {
      CalmRunInv(states, actions, slack, k - 1);
      NextInv(states[k - 1], slack, actions[k - 1]);
      NextKeepsSize(states[k - 1], actions[k - 1]);
    }
  }

  lemma InvFits(s: Net, slack: nat, a: Action)
    requires Inv(s, slack) && Enabled(s, a)
    ensures !LosingReplyAt(s, a)
  {
    hide OrderInv, FlightCount, RouteCount;
    if !a.Loses? {
      HopsFit(s, slack, a.i, HeardBy(a));
    }
  }

  /** In a network whose size fits the hop count field nobody ever accepts a reply whose hop count
      means "no route". */
  lemma SizedLosesNoReply(states: seq<Net>, actions: seq<Action>)
    requires CalmRun(states, actions) && Sized(states, actions)
    ensures NoLosingReply(states, actions)
  {
    hide Inv, Next, Init, RepairFailsAt, LosingReplyAt;
    var slack := if |states[0].nodes| <= 224 then NETWORK_DIAMETER else 0;
    forall k | 0 <= k < |actions| ensures !LosingReplyAt(states[k], actions[k]) {
      CalmRunInv(states, actions, slack, k);
      InvFits(states[k], slack, actions[k]);
    }
  }

  /* ---------- loop freedom ---------- */

  /** Node `i` would send a packet for `d` on to another node. */
  predicate Forwards(s: Net, i: Addr, d: Addr) {
    IsNode(s, i) && i != d && d in s.nodes[i].table && Usable(s.nodes[i].table[d])
  }

  function NextHop(s: Net, i: Addr, d: Addr): Addr
    requires Forwards(s, i, d)
  {
    s.nodes[i].table[d].nexthop
  }

  /** `path` follows next hops towards `d`. */
  predicate RoutePath(s: Net, d: Addr, path: seq<Addr>) {
    && (forall k :: 0 <= k < |path| ==> IsNode(s, path[k]))
    && (forall k :: 0 <= k < |path| - 1 ==> Forwards(s, path[k], d) && path[k + 1] == NextHop(s, path[k], d))
  }

  predicate StrictlyFresher(r: Route, than: Route) {
    r.seqno > than.seqno || (r.seqno == than.seqno && r.hops < than.hops)
  }

  /** Along a route the entries get strictly fresher, until the destination is reached. */
  lemma {:induction false} FresherDownstream(s: Net, d: Addr, path: seq<Addr>, a: nat, b: nat)
    requires OrderInv(s) && RoutePath(s, d, path) && a < b < |path|
    ensures path[b] == d ||
            (d in s.nodes[path[b]].table && StrictlyFresher(s.nodes[path[b]].table[d], s.nodes[path[a]].table[d]))
    decreases b
  {
    hide NodeOk, ParityInv, FlightOrder;
    assert Forwards(s, path[b - 1], d);
    var r := s.nodes[path[b - 1]].table[d];
    assert RouteOrder(s, d, r);
    if b - 1 > a {
      FresherDownstream(s, d, path, a, b - 1);
    }
  }

  /** Loop freedom in a network in order: a route never visits a node twice. */
  lemma NoLoop(s: Net, d: Addr, path: seq<Addr>)
    requires OrderInv(s) && RoutePath(s, d, path)
    ensures NoDuplicates(path)
  {
    hide OrderInv;
    forall a, b | 0 <= a < b < |path| ensures path[a] != path[b] {
      FresherDownstream(s, d, path, a, b);
      assert Forwards(s, path[a], d);
    }
  }

  /** Loop freedom for every destination and every route, in networks of any size and whatever the
      caches forget, as long as no repair fails and nobody accepts a reply with a wrapped hop count. */
  lemma LoopFreedom(states: seq<Net>, actions: seq<Action>, k: nat, d: Addr, path: seq<Addr>)
    requires CalmRun(states, actions) && NoLosingReply(states, actions) && k < |states|
    requires RoutePath(states[k], d, path)
    ensures NoDuplicates(path) && |path| <= |states[k].nodes|
  {
    hide OrderInv, Next;
    OrderlyRun(states, actions, k);
    NoLoop(states[k], d, path);
    DistinctNodesFit(path, |states[k].nodes|);
  }

  /** In networks whose size fits the hop count field: on every calm run. */
  lemma LoopFreedomWhenSized(states: seq<Net>, actions: seq<Action>, k: nat, d: Addr, path: seq<Addr>)
    requires CalmRun(states, actions) && Sized(states, actions) && k < |states|
    requires RoutePath(states[k], d, path)
    ensures NoDuplicates(path) && |path| <= |states[k].nodes|
  {
    hide Next, RoutePath, NoLosingReply;
    SizedLosesNoReply(states, actions);
    LoopFreedom(states, actions, k, d, path);
  }

  lemma {:induction false} DistinctNodesFit(path: seq<Addr>, n: nat)
    requires NoDuplicates(path) && forall k :: 0 <= k < |path| ==> 0 <= path[k] < n
    ensures |path| <= n
  {
    var members: set<nat> := set k | 0 <= k < |path| :: path[k];
    MembersOfDistinct(path, members);
    RangeSize(members, n);
  }

  lemma {:induction false} MembersOfDistinct(path: seq<Addr>, members: set<nat>)
    requires NoDuplicates(path) && forall x :: x in members <==> x in path
    requires forall k :: 0 <= k < |path| ==> path[k] >= 0
    ensures |members| == |path|
  {
    if path == [] {
      assert members == {};
    } else {
      var x := path[|path| - 1];
      var rest := path[..|path| - 1];
      assert path == rest + [x] && x in members && x !in rest;
      MembersOfDistinct(rest, members - {x});
    }
  }

  /** The route a packet for `d` takes from `i`, at most `steps` hops of it. */
  function Walk(s: Net, d: Addr, i: Addr, steps: nat): (path: seq<Addr>)
    ensures |path| >= 1 && path[0] == i
    decreases steps
  {
    if steps > 0 && Forwards(s, i, d) then [i] + Walk(s, d, NextHop(s, i, d), steps - 1) else [i]
  }

  lemma RoutePrepend(s: Net, d: Addr, i: Addr, rest: seq<Addr>)
    requires Forwards(s, i, d) && RoutePath(s, d, rest) && rest != [] && rest[0] == NextHop(s, i, d)
    ensures RoutePath(s, d, [i] + rest)
  {
    hide Forwards, NextHop;
    var path := [i] + rest;
    forall k | 0 <= k < |path| - 1 ensures Forwards(s, path[k], d) && path[k + 1] == NextHop(s, path[k], d) {
      if k > 0 {
        assert path[k] == rest[k - 1] && path[k + 1] == rest[k];
      }
    }
    assert forall k :: 0 < k < |path| ==> path[k] == rest[k - 1];
    assert IsNode(s, i) by {
      ForwardsIsNode(s, i, d);
    }
  }

  lemma RouteStart(s: Net, d: Addr, i: Addr)
    requires IsNode(s, i)
    ensures RoutePath(s, d, [i])
  {
  }

  lemma ForwardsIsNode(s: Net, i: Addr, d: Addr)
    requires Forwards(s, i, d)
    ensures IsNode(s, i)
  {
  }

  lemma NextHopIsNode(s: Net, i: Addr, d: Addr)
    requires OrderInv(s) && Forwards(s, i, d)
    ensures IsNode(s, NextHop(s, i, d))
  {
    hide NodeOk, ParityInv, FlightOrder;
    assert RouteOrder(s, d, s.nodes[i].table[d]);
  }

  lemma {:induction false} WalkIsRoute(s: Net, d: Addr, i: Addr, steps: nat)
    requires OrderInv(s) && IsNode(s, i)
    ensures var path := Walk(s, d, i, steps);
            RoutePath(s, d, path) && (|path| == steps + 1 || !Forwards(s, path[|path| - 1], d))
    decreases steps
  {
    hide OrderInv, Forwards, NextHop, RoutePath;
    var path := Walk(s, d, i, steps);
    if steps > 0 && Forwards(s, i, d) {
      var rest := Walk(s, d, NextHop(s, i, d), steps - 1);
      NextHopIsNode(s, i, d);
      WalkIsRoute(s, d, NextHop(s, i, d), steps - 1);
      RoutePrepend(s, d, i, rest);
      assert path == [i] + rest && path[|path| - 1] == rest[|rest| - 1];
    } else {
      RouteStart(s, d, i);
      assert path == [i];
    }
  }

  /** Following valid routes from any node for N hops ends at the destination or at a node without a
      valid route. */
  lemma RoutesEnd(states: seq<Net>, actions: seq<Action>, k: nat, d: Addr, i: Addr)
    requires CalmRun(states, actions) && NoLosingReply(states, actions) && k < |states| && IsNode(states[k], i)
    ensures var path := Walk(states[k], d, i, |states[k].nodes|);
            RoutePath(states[k], d, path) && !Forwards(states[k], path[|path| - 1], d)
  {
    hide OrderInv, Next, RoutePath, Forwards;
    OrderlyRun(states, actions, k);
    WalkIsRoute(states[k], d, i, |states[k].nodes|);
    LoopFreedom(states, actions, k, d, Walk(states[k], d, i, |states[k].nodes|));
  }

  /* ---------- what else holds in every reachable state ---------- */

  lemma RouteHopsBounded(s: Net, slack: nat, i: nat, d: Addr)
    requires Inv(s, slack) && i < |s.nodes| && d in s.nodes[i].table && Usable(s.nodes[i].table[d])
    ensures 1 <= s.nodes[i].table[d].hops <= |s.nodes| + slack
  {
    hide ParityInv, NodeOk, FlightOrder, FlightCount;
    var r := s.nodes[i].table[d];
    assert RouteCount(s, slack, d, r) && RouteOrder(s, d, r);
    FreshSetBounded(s, d, r.seqno, r.hops);
  }

  lemma MessageHopsBounded(s: Net, f: Flight)
    requires Inv(s, 0) && f in s.air
    ensures f.msg.Rreq? ==> 1 <= f.msg.rq.hops <= |s.nodes| + 1
    ensures f.msg.Rrep? ==> 1 <= f.msg.rp.hops <= |s.nodes| + 1
  {
    hide OrderInv, RouteCount;
    assert FlightCount(s, 0, f);
    match f.msg
    case Rreq(q) => RangeSize(RelaySet(s, q.src, q.bid, q.srcSeqno, q.hops - 1), |s.nodes|);
    case Rrep(q) => FreshSetBounded(s, q.dst, q.dstSeqno, q.hops - 1);
    case Rerr(_) =>
  }

  /** Hop counts: no route in use is longer than the network, no message carries more than one
      hop more, and so nothing wraps or collides with "infinity". */
  lemma HopsBounded(states: seq<Net>, actions: seq<Action>, k: nat)
    requires CalmRun(states, actions) && PatientRun(states, actions) && |states[0].nodes| <= 254 && k < |states|
    ensures var n := |states[k].nodes|;
            && (forall i, d :: 0 <= i < n && d in states[k].nodes[i].table && Usable(states[k].nodes[i].table[d]) ==>
                  1 <= states[k].nodes[i].table[d].hops <= n)
            && (forall f :: f in states[k].air && f.msg.Rreq? ==> 1 <= f.msg.rq.hops <= n + 1)
            && (forall f :: f in states[k].air && f.msg.Rrep? ==> 1 <= f.msg.rp.hops <= n + 1)
  {
    hide Inv;
    var s := states[k];
    CalmRunInv(states, actions, 0, k);
    forall i, d | 0 <= i < |s.nodes| && d in s.nodes[i].table && Usable(s.nodes[i].table[d])
      ensures 1 <= s.nodes[i].table[d].hops <= |s.nodes|
    {
      RouteHopsBounded(s, 0, i, d);
    }
    forall f | f in s.air
      ensures f.msg.Rreq? ==> 1 <= f.msg.rq.hops <= |s.nodes| + 1
      ensures f.msg.Rrep? ==> 1 <= f.msg.rp.hops <= |s.nodes| + 1
    {
      MessageHopsBounded(s, f);
    }
  }

  /** The same without patience: at most a network diameter more. */
  lemma HopsBoundedAnyCache(states: seq<Net>, actions: seq<Action>, k: nat, i: nat, d: Addr)
    requires CalmRun(states, actions) && |states[0].nodes| <= 224 && k < |states| && i < |states[k].nodes|
    requires d in states[k].nodes[i].table && Usable(states[k].nodes[i].table[d])
    ensures 1 <= states[k].nodes[i].table[d].hops <= |states[k].nodes| + NETWORK_DIAMETER
  {
    CalmRunInv(states, actions, NETWORK_DIAMETER, k);
    RouteHopsBounded(states[k], NETWORK_DIAMETER, i, d);
  }

  /** On such runs the hop count decides the parity too: routes in use carry even numbers from 2 on,
      all others 0 or odd ones, and routes that are up are in use. */
  lemma ParityByHops(states: seq<Net>, actions: seq<Action>, k: nat, i: nat, d: Addr)
    requires CalmRun(states, actions) && NoLosingReply(states, actions) && k < |states| && i < |states[k].nodes|
    requires d in states[k].nodes[i].table
    ensures var r := states[k].nodes[i].table[d];
            && (r.flag == Up ==> Usable(r)) && (r.flag == Down ==> !Usable(r))
            && if Usable(r) then Even(r.seqno) && r.seqno >= 2 else r.seqno == 0 || !Even(r.seqno)
  {
    hide OrderInv, Next;
    OrderlyRun(states, actions, k);
    OrderHasOk(states[k], i);
    EntryOk(states[k].nodes[i], d);
  }

  /** Nobody outruns the destination by more than the one increment of an invalidation: on every
      run, failed repairs included. */
  lemma NobodyOutrunsDestination(states: seq<Net>, actions: seq<Action>, k: nat)
    requires Run(states, actions) && k < |states|
    ensures forall i, d :: 0 <= i < |states[k].nodes| && d in states[k].nodes[i].table ==>
              var r := states[k].nodes[i].table[d];
              r.seqno <= Cap(states[k], d) && (Usable(r) ==> r.seqno <= OwnSeqno(states[k], d))
    ensures forall f :: f in states[k].air ==>
              match f.msg
              case Rreq(q) => q.srcSeqno <= OwnSeqno(states[k], q.src) && q.dstSeqno <= Cap(states[k], q.dst)
              case Rrep(q) => q.dstSeqno <= OwnSeqno(states[k], q.dst)
              case Rerr(q) => forall l :: l in q.lost ==> l.seqno <= Cap(states[k], l.dst)
  {
    var s := states[k];
    RunBase(states, actions, k);
    forall i, d | 0 <= i < |s.nodes| && d in s.nodes[i].table ensures RouteBase(s, d, s.nodes[i].table[d]) {
    }
    forall f | f in s.air ensures FlightBase(s, f) {
    }
  }
}
