/** Counting: a hop count of h is backed by h nodes that are at least that fresh, so in networks whose
    size fits the hop count field no hop count ever reaches the value for "no route". */
module Invariant {
  import opened Types
  import opened RouteTable
  import opened Handlers
  import opened LocalSteps
  import opened Network
  import opened Baseline
  import opened Parity
  import opened Order

  /* ---------- sizes of sets ---------- */

  lemma {:induction false} SubsetSize<T>(a: set<T>, b: set<T>)
    requires a <= b
    ensures |a| <= |b|
  {
    if a != {} {
      var x :| x in a;
      SubsetSize(a - {x}, b - {x});
    }
  }

  lemma {:induction false} RangeSize(a: set<int>, n: nat)
    requires forall x :: x in a ==> 0 <= x < n
    ensures |a| <= n
  {
    if n == 0 {
      assert forall x :: x !in a;
    } else {
      RangeSize(a - {n - 1}, n - 1);
    }
  }

  lemma OneMore<T>(a: set<T>, b: set<T>, x: T)
    requires a <= b && x in b && x !in a
    ensures |a| + 1 <= |b|
  {
    SubsetSize(a + {x}, b);
  }

  lemma FreshSetBounded(s: Net, d: Addr, seqno: nat, hops: nat)
    ensures |FreshSet(s, d, seqno, hops)| <= |s.nodes|
  {
    RangeSize(FreshSet(s, d, seqno, hops), |s.nodes|);
  }

  /* ---------- what only grows ---------- */

  /** The caches still remember the request in `f`. */
  ghost predicate StillCached(s: Net, s': Net, f: Flight) {
    f.msg.Rreq? ==>
      forall j :: 0 <= j < |s.nodes| && j < |s'.nodes| && InCache(s.nodes[j].cache, f.msg.rq.src, f.msg.rq.bid) ==>
        InCache(s'.nodes[j].cache, f.msg.rq.src, f.msg.rq.bid)
  }

  lemma FreshSetGrows(s: Net, s': Net, d: Addr, seqno: nat, hops: nat)
    requires Later(s, s')
    ensures FreshSet(s, d, seqno, hops) <= FreshSet(s', d, seqno, hops)
    ensures |FreshSet(s, d, seqno, hops)| <= |FreshSet(s', d, seqno, hops)|
  {
    SubsetSize(FreshSet(s, d, seqno, hops), FreshSet(s', d, seqno, hops));
  }

  lemma RelaySetGrows(s: Net, s': Net, f: Flight, hops: nat)
    requires Later(s, s') && f.msg.Rreq? && StillCached(s, s', f)
    ensures var q := f.msg.rq;
            |RelaySet(s, q.src, q.bid, q.srcSeqno, hops)| <= |RelaySet(s', q.src, q.bid, q.srcSeqno, hops)|
  {
    var q := f.msg.rq;
    SubsetSize(RelaySet(s, q.src, q.bid, q.srcSeqno, hops), RelaySet(s', q.src, q.bid, q.srcSeqno, hops));
  }

  lemma RouteCountLater(s: Net, s': Net, slack: nat, d: Addr, r: Route)
    requires Later(s, s') && RouteCount(s, slack, d, r)
    ensures RouteCount(s', slack, d, r)
  {
    FreshSetGrows(s, s', d, r.seqno, r.hops);
  }

  lemma FlightCountLater(s: Net, s': Net, slack: nat, f: Flight)
    requires Later(s, s') && FlightCount(s, slack, f)
    requires slack >= NETWORK_DIAMETER || StillCached(s, s', f)
    ensures FlightCount(s', slack, f)
  {
    match f.msg
    case Rreq(q) =>
      if slack < NETWORK_DIAMETER {
        RelaySetGrows(s, s', f, q.hops - 1);
      }
    case Rrep(q) => FreshSetGrows(s, s', q.dst, q.dstSeqno, q.hops - 1);
    case Rerr(_) =>
  }

  /* ---------- routes ---------- */

  /** A node that a message improves is not among those that are already that fresh. */
  lemma BetterIsNew(s: Net, i: nat, d: Addr, seqno: nat, hops: nat)
    requires i < |s.nodes| && hops >= 1 && Better(seqno, hops, RouteOf(s.nodes[i], d))
    ensures i !in FreshSet(s, d, seqno, hops - 1)
    ensures |FreshSet(s, d, seqno, hops - 1)| + 1 <= |s.nodes|
  {
    RangeSize(FreshSet(s, d, seqno, hops - 1) + {i}, |s.nodes|);
  }

  /** An accepted reply never carries the value that means "no route". */
  lemma AcceptedReplyFits(s: Net, slack: nat, i: nat, f: Flight)
    requires |s.nodes| + slack <= 254 && i < |s.nodes| && FlightCount(s, slack, f) && f.msg.Rrep?
    requires Better(f.msg.rp.dstSeqno, f.msg.rp.hops, RouteOf(s.nodes[i], f.msg.rp.dst))
    ensures f.msg.rp.hops <= 254
  {
    BetterIsNew(s, i, f.msg.rp.dst, f.msg.rp.dstSeqno, f.msg.rp.hops);
  }

  /** A route taken from a reply is backed by one node more: the one that takes it. */
  lemma InstalledFromReply(s: Net, s': Net, slack: nat, i: nat, f: Flight, r': Route)
    requires Later(s, s') && i < |s.nodes| && f.msg.Rrep? && FlightCount(s, slack, f)
    requires Better(f.msg.rp.dstSeqno, f.msg.rp.hops, RouteOf(s.nodes[i], f.msg.rp.dst))
    requires r'.seqno == f.msg.rp.dstSeqno && r'.hops == f.msg.rp.hops
    requires f.msg.rp.dst in s'.nodes[i].table && s'.nodes[i].table[f.msg.rp.dst] == r'
    ensures RouteCount(s', slack, f.msg.rp.dst, r')
  {
    var q := f.msg.rp;
    BetterIsNew(s, i, q.dst, q.dstSeqno, q.hops);
    FreshSetGrows(s, s', q.dst, q.dstSeqno, q.hops - 1);
    assert FreshSet(s', q.dst, q.dstSeqno, q.hops - 1) <= FreshSet(s', q.dst, q.dstSeqno, q.hops);
    OneMore(FreshSet(s, q.dst, q.dstSeqno, q.hops - 1), FreshSet(s', q.dst, q.dstSeqno, q.hops), i);
  }

  /** So is a route taken from a request. */
  lemma InstalledFromRequest(s: Net, s': Net, slack: nat, i: nat, f: Flight, r': Route)
    requires Later(s, s') && i < |s.nodes| && f.msg.Rreq? && FlightCount(s, slack, f)
    requires f.msg.rq.hops <= NETWORK_DIAMETER
    requires Better(f.msg.rq.srcSeqno, f.msg.rq.hops, RouteOf(s.nodes[i], f.msg.rq.src))
    requires r'.seqno == f.msg.rq.srcSeqno && r'.hops == f.msg.rq.hops
    requires f.msg.rq.src in s'.nodes[i].table && s'.nodes[i].table[f.msg.rq.src] == r'
    ensures RouteCount(s', slack, f.msg.rq.src, r')
  {
    var q := f.msg.rq;
    if slack < NETWORK_DIAMETER {
      BetterIsNew(s, i, q.src, q.srcSeqno, q.hops);
      FreshSetGrows(s, s', q.src, q.srcSeqno, q.hops - 1);
      var relays := RelaySet(s, q.src, q.bid, q.srcSeqno, q.hops - 1);
      assert FreshSet(s', q.src, q.srcSeqno, q.hops - 1) <= FreshSet(s', q.src, q.srcSeqno, q.hops);
      assert relays <= FreshSet(s, q.src, q.srcSeqno, q.hops - 1);
      OneMore(relays, FreshSet(s', q.src, q.srcSeqno, q.hops), i);
    }
  }

  /** Node `i` of a network in a good state runs legally to `n'`, having heard `heard`. */
  ghost predicate LegalAt(s: Net, slack: nat, i: nat, n': Node, heard: Option<Flight>) {
    Inv(s, slack) && LegalIn(s, i, n', heard)
  }

  lemma HeardCounts(s: Net, slack: nat, heard: Option<Flight>)
    requires Inv(s, slack) && heard.Some? && heard.value in s.air
    ensures FlightCount(s, slack, heard.value) && FlightBase(s, heard.value)
  {
  }

  lemma HopsFit(s: Net, slack: nat, i: nat, heard: Option<Flight>)
    requires Inv(s, slack) && i < |s.nodes| && (heard.Some? ==> heard.value in s.air)
    ensures HeardFits(s, i, heard)
  {
    hide OrderInv, FlightCount, RouteCount;
    if heard.Some? && heard.value.msg.Rrep? {
      var q := heard.value.msg.rp;
      if Better(q.dstSeqno, q.hops, RouteOf(s.nodes[i], q.dst)) {
        AcceptedReplyFits(s, slack, i, heard.value);
      }
    }
  }

  lemma RouteCountAtActor(s: Net, slack: nat, i: nat, n': Node, heard: Option<Flight>, now: real, d: Addr)
    requires LegalAt(s, slack, i, n', heard) && d in n'.table
    ensures RouteCount(After(s, i, n', heard, now), slack, d, n'.table[d])
  {
    hide Legal, OrderInv, Sent, RouteCount, FlightCount, Later;
    var s' := After(s, i, n', heard, now);
    InvIsParity(s, slack);
    LegalIsLater(s, i, n', heard, now);
    var r, r' := RouteOf(s.nodes[i], d), n'.table[d];
    LegalRoute(s.nodes[i].(out := []), n', Heard(heard), d);
    assert RouteOf(s.nodes[i].(out := []), d) == r;
    EntryCounts(s, slack, i, d);
    RouteCountLater(s, s', slack, d, r);
    if InstalledBy(r, r', d, Heard(heard)) {
      HeardCounts(s, slack, heard);
      if heard.value.msg.Rreq? {
        InstalledFromRequest(s, s', slack, i, heard.value, r');
      } else {
        InstalledFromReply(s, s', slack, i, heard.value, r');
      }
    } else {
      StepCounts(s', slack, r, r', d, heard, s.nodes[i].localRepair);
    }
  }

  lemma InvIsParity(s: Net, slack: nat)
    requires Inv(s, slack)
    ensures OrderInv(s) && ParityInv(s) && BaseInv(s)
  {
  }

  lemma EntryCounts(s: Net, slack: nat, i: nat, d: Addr)
    requires Inv(s, slack) && i < |s.nodes|
    ensures RouteCount(s, slack, d, RouteOf(s.nodes[i], d))
  {
  }

  lemma StepCounts(s': Net, slack: nat, r: Route, r': Route, d: Addr, heard: Option<Flight>, repair: bool)
    requires RouteStep(r, r', d, Heard(heard), repair) && RouteCount(s', slack, d, r)
    requires !InstalledBy(r, r', d, Heard(heard))
    ensures RouteCount(s', slack, d, r')
  {
  }

  /* ---------- the messages of a legal run ---------- */

  /** The relaying node was not among those that remember the request; now it is. */
  lemma RelayAddsNode(s: Net, s': Net, i: nat, f: Flight)
    requires i < |s.nodes| && Later(s, s') && f.msg.Rreq? && StillCached(s, s', f) && f.msg.rq.hops >= 1
    requires !InCache(s.nodes[i].cache, f.msg.rq.src, f.msg.rq.bid)
    requires InCache(s'.nodes[i].cache, f.msg.rq.src, f.msg.rq.bid)
    requires Fresh(s'.nodes[i], f.msg.rq.src, f.msg.rq.srcSeqno, f.msg.rq.hops)
    ensures var q := f.msg.rq;
            |RelaySet(s, q.src, q.bid, q.srcSeqno, q.hops - 1)| + 1 <= |RelaySet(s', q.src, q.bid, q.srcSeqno, q.hops)|
  {
    var q := f.msg.rq;
    var before := RelaySet(s, q.src, q.bid, q.srcSeqno, q.hops - 1);
    var after := RelaySet(s', q.src, q.bid, q.srcSeqno, q.hops);
    forall j | j in before ensures j in after {
      assert Fresh(s'.nodes[j], q.src, q.srcSeqno, q.hops - 1);
    }
    OneMore(before, after, i);
  }

  lemma RelayIsOfRequest(n: Node, n': Node, q: Request, cause: Option<Message>)
    requires RelayedRequest(n, n', q, cause)
    ensures cause.Some? && cause.value.Rreq?
    ensures var p := cause.value.rq;
            && !InCache(n.cache, p.src, p.bid) && InCache(n'.cache, p.src, p.bid)
            && Fresh(n', p.src, p.srcSeqno, p.hops)
            && q.src == p.src && q.bid == p.bid && q.srcSeqno == p.srcSeqno && q.hops == Byte(p.hops + 1)
  {
  }

  /** A request passed on is backed by one more node that remembers it. */
  lemma RelayedRequestCount(s: Net, s': Net, slack: nat, i: nat, next: Addr, q: Request, heard: Option<Flight>)
    requires i < |s.nodes| == |s'.nodes| && Later(s, s') && s'.nodes[i].id == i
    requires RelayedRequest(s.nodes[i].(out := []), s'.nodes[i], q, Heard(heard))
    requires FlightCount(s, slack, heard.value) && heard.value.msg.rq.hops <= NETWORK_DIAMETER
    requires slack >= NETWORK_DIAMETER || StillCached(s, s', heard.value)
    ensures FlightCount(s', slack, Tagged(next, Rreq(q), s'.nodes[i], heard))
  {
    hide RelayedRequest, Later, StillCached;
    RelayIsOfRequest(s.nodes[i].(out := []), s'.nodes[i], q, Heard(heard));
    if slack < NETWORK_DIAMETER {
      RelayAddsNode(s, s', i, heard.value);
    }
  }

  /** A generated reply is backed by the nodes that back the route it comes from. */
  lemma OwnReplyCount(s': Net, slack: nat, i: nat, next: Addr, q: Reply, heard: Option<Flight>)
    requires i < |s'.nodes| && s'.nodes[i].id == i && OwnReply(s'.nodes[i], q, Heard(heard))
    requires q.dst in s'.nodes[i].table ==>
               s'.nodes[i].table[q.dst].hops <= INFINITY2 && RouteCount(s', slack, q.dst, s'.nodes[i].table[q.dst])
    ensures FlightCount(s', slack, Tagged(next, Rrep(q), s'.nodes[i], heard))
  {
  }

  /** A reply passed on is backed by the nodes that back the route just taken from it. */
  lemma RelayedReplyCount(s: Net, s': Net, slack: nat, i: nat, next: Addr, q: Reply, heard: Option<Flight>)
    requires i < |s.nodes| == |s'.nodes| && HeardFits(s, i, heard)
    requires RelayedReply(s.nodes[i].(out := []), s'.nodes[i], q, Heard(heard))
    requires RouteCount(s', slack, q.dst, s'.nodes[i].table[q.dst])
    ensures FlightCount(s', slack, Tagged(next, Rrep(q), s'.nodes[i], heard))
  {
    var p := heard.value.msg.rp;
    assert RouteOf(s.nodes[i].(out := []), p.dst) == RouteOf(s.nodes[i], p.dst);
    assert q.hops == p.hops + 1;
  }

  lemma NewFlightCount(s: Net, s': Net, slack: nat, i: nat, heard: Option<Flight>, e: Effect)
    requires Inv(s, slack) && i < |s.nodes| == |s'.nodes| && Later(s, s')
    requires s'.nodes[i].id == i && NodeSound(s'.nodes[i])
    requires heard.Some? ==> heard.value in s.air && (slack >= NETWORK_DIAMETER || StillCached(s, s', heard.value))
    requires forall d :: d in s'.nodes[i].table ==> RouteCount(s', slack, d, s'.nodes[i].table[d])
    requires e.Transmit? && Justified(s.nodes[i].(out := []), s'.nodes[i], e.msg, Heard(heard))
    ensures FlightCount(s', slack, Tagged(e.next, e.msg, s'.nodes[i], heard))
  {
    hide Inv, NodeSound, FlightCount, RouteCount, HeardFits, RelayedRequest, OwnReply, RelayedReply, Later, StillCached;
    var n, n' := s.nodes[i].(out := []), s'.nodes[i];
    HopsFit(s, slack, i, heard);
    if heard.Some? {
      HeardCounts(s, slack, heard);
    }
    match e.msg
    case Rreq(q) =>
      if OwnRequest(n, n', q) {
        FirstHopCounts(s', slack, i, e.next, q, heard);
      } else {
        RelayIsOfRequest(n, n', q, Heard(heard));
        RelayedRequestCount(s, s', slack, i, e.next, q, heard);
      }
    case Rrep(q) =>
      if OwnReply(n', q, Heard(heard)) {
        if q.dst in n'.table {
          EntrySound(n', q.dst);
        }
        OwnReplyCount(s', slack, i, e.next, q, heard);
      } else {
        RelayedReplyRoute(n, n', q, Heard(heard));
        RelayedReplyCount(s, s', slack, i, e.next, q, heard);
      }
    case Rerr(_) => ErrorsCount(s', slack, i, e, heard);
  }

  lemma FirstHopCounts(s': Net, slack: nat, i: nat, next: Addr, q: Request, heard: Option<Flight>)
    requires q.hops == 1 && i < |s'.nodes|
    ensures FlightCount(s', slack, Tagged(next, Rreq(q), s'.nodes[i], heard))
  {
  }

  lemma RelayedReplyRoute(n: Node, n': Node, q: Reply, cause: Option<Message>)
    requires RelayedReply(n, n', q, cause)
    ensures cause.Some? && q.dst in n'.table
  {
  }

  lemma ErrorsCount(s': Net, slack: nat, i: nat, e: Effect, heard: Option<Flight>)
    requires e.Transmit? && e.msg.Rerr? && i < |s'.nodes|
    ensures FlightCount(s', slack, Tagged(e.next, e.msg, s'.nodes[i], heard))
  {
  }

  /** The invariant survives every legal run. */
  lemma LegalKeepsInv(s: Net, slack: nat, i: nat, n': Node, heard: Option<Flight>, now: real)
    requires LegalAt(s, slack, i, n', heard)
    requires slack >= NETWORK_DIAMETER ||
             forall f :: f in s.air ==> StillCached(s, After(s, i, n', heard, now), f)
    ensures Inv(After(s, i, n', heard, now), slack)
  {
    hide Legal, NodeOk, NodeSound, OrderInv, ParityInv, BaseInv;
    hide RouteCount, FlightCount, HeardFits, Justified, StillCached;
    var s' := After(s, i, n', heard, now);
    InvIsParity(s, slack);
    HopsFit(s, slack, i, heard);
    LegalKeepsOrder(s, i, n', heard, now);
    LegalIsLater(s, i, n', heard, now);
    LegalGrows(s, i, n', heard, now);
    forall j, d | 0 <= j < |s'.nodes| && d in s'.nodes[j].table
      ensures RouteCount(s', slack, d, s'.nodes[j].table[d])
    {
      if j == i {
        RouteCountAtActor(s, slack, i, n', heard, now, d);
      } else {
        RouteCountLater(s, s', slack, d, s.nodes[j].table[d]);
      }
    }
    forall f | f in s'.air ensures FlightCount(s', slack, f) {
      if f in s.air {
        FlightCountLater(s, s', slack, f);
      } else {
        var e :| e in n'.out && e.Transmit? && f == Tagged(e.next, e.msg, n', heard);
        LegalMessage(s.nodes[i].(out := []), n', Heard(heard), e);
        NewFlightCount(s, s', slack, i, heard, e);
      }
    }
  }
}
