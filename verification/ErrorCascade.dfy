/** Route errors: what a link failure reports, what is passed on, and why cascades end. */
module ErrorCascade {
  import opened Types
  import opened RouteTable
  import opened Handlers
  import opened LocalSteps
  import opened Network
  import opened Baseline
  import opened Invariant

  /* ---------- a link failure at one node ---------- */

  /** No two entries of an error are for the same destination. */
  predicate DistinctDsts(lost: seq<Lost>) {
    forall j, k :: 0 <= j < k < |lost| ==> lost[j].dst != lost[k].dst
  }

  lemma NoLost()
    ensures DistinctDsts([])
  {
  }

  lemma DistinctAppend(lost: seq<Lost>, l: Lost)
    requires DistinctDsts(lost) && forall x :: x in lost ==> x.dst != l.dst
    ensures DistinctDsts(lost + [l])
  {
    assert forall j :: 0 <= j < |lost| ==> lost[j] in lost;
  }

  lemma {:induction false} LostViaDistinct(order: seq<Addr>, table: map<Addr, Route>, id: Addr)
    requires NoDuplicates(order)
    ensures DistinctDsts(LostVia(order, table, id)) && |LostVia(order, table, id)| <= |order|
    ensures forall l :: l in LostVia(order, table, id) ==> l.dst in order
  {
    hide DistinctDsts, RoutedVia;
    if order == [] {
      assert DistinctDsts([]) by {
        NoLost();
      }
    } else {
      var k := |order| - 1;
      LostViaDistinct(order[..k], table, id);
      LostViaExact(order[..k], table, id);
      var rest := LostVia(order[..k], table, id);
      if order[k] in table && RoutedVia(table[order[k]], id) {
        DistinctAppend(rest, Lost(order[k], table[order[k]].seqno + 1));
      } else {
        assert LostVia(order, table, id) == rest + [] == rest;
      }
    }
  }

  /** After `handle_link_failure(id)` no route in use goes through `id`, `id` is in no precursor
      list, every other route is as before, and the error names exactly the destinations that were
      routed via `id`, once each, with their raised numbers. */
  lemma LinkFailureExact(n: Node, id: Addr)
    requires NodeSound(n)
    ensures var n' := HandleLinkFailure(n, id);
            && n'.table.Keys == n.table.Keys && n'.seqno == n.seqno && n'.buffer == n.buffer
            && (forall d :: d in n'.table ==> !RoutedVia(n'.table[d], id) && id !in n'.table[d].precursors)
            && (forall d :: d in n.table && RoutedVia(n.table[d], id) ==>
                  n'.table[d].flag == Down && !Usable(n'.table[d]) && n'.table[d].seqno == n.table[d].seqno + 1)
            && (forall d :: d in n.table && !RoutedVia(n.table[d], id) ==>
                  n'.table[d] == n.table[d].(precursors := n'.table[d].precursors)
                  && forall x :: x in n'.table[d].precursors <==> x != id && x in n.table[d].precursors)
            && var lost := LostVia(n.order, n.table, id);
               && n'.out == n.out + (if lost == [] then [] else [Transmit(BROADCAST, Rerr(RouteError(n.id, lost)))])
               && DistinctDsts(lost) && |lost| <= |n.order|
               && forall l :: l in lost <==>
                    l.dst in n.table && RoutedVia(n.table[l.dst], id) && l.seqno == n.table[l.dst].seqno + 1
  {
    hide LostVia;
    LostViaExact(n.order, n.table, id);
    LostViaDistinct(n.order, n.table, id);
    forall d | d in n.table ensures RouteSound(n.table[d]) {
    }
    forall d | d in n.table
      ensures forall x :: x in WithoutFirst(n.table[d].precursors, id) <==> x != id && x in n.table[d].precursors
    {
      WithoutFirstRemoves(n.table[d].precursors, id);
    }
  }

  /* ---------- what `recvError` passes on ---------- */

  /** An entry `l` of the error passed on, with state `n'` after the scan: from the incoming list, for a
      route via the sender that was just taken down, with the number it was told. */
  predicate Report(n: Node, n': Node, from: Addr, lost: seq<Lost>, l: Lost) {
    && l in lost && l.dst in n.table && RoutedVia(n.table[l.dst], from)
    && l.dst in n'.table && !Usable(n'.table[l.dst]) && n'.table[l.dst].seqno == l.seqno >= n.table[l.dst].seqno
  }

  /** It reports only routes of its own that it just took down, each once, with the number it was
      told, and only destinations of the incoming list. */
  lemma {:induction false} ErrorScanReports(n: Node, re: RouteError, lost: seq<Lost>)
    requires NodeSound(n) && (forall l :: l in lost ==> l in re.lost)
    ensures var (n', acc) := ErrorScan(n, re.from, lost);
            DistinctDsts(acc) && forall l :: l in acc ==> Report(n, n', re.from, lost, l)
  {
    hide NodeSound, ErrorEntry, Report;
    if lost != [] {
      var k := |lost| - 1;
      ErrorScanReports(n, re, lost[..k]);
      ErrorScanStep(n, re, lost[..k]);
      var (n1, acc) := ErrorScan(n, re.from, lost[..k]);
      var (n2, more) := ErrorEntry(n1, re.from, lost[k]);
      if lost[k].dst in n.table {
        EntrySound(n, lost[k].dst);
      }
      ErrorEntryReports(n, n1, acc, re, lost, n2, more);
    }
  }

  /** One more turn of the loop. */
  lemma ErrorEntryReports(n: Node, n1: Node, acc: seq<Lost>, re: RouteError, lost: seq<Lost>, n2: Node, more: seq<Lost>)
    requires lost != [] && (n2, more) == ErrorEntry(n1, re.from, lost[|lost| - 1])
    requires Erring(n, n1, acc, Some(Rerr(re))) && DistinctDsts(acc)
    requires forall l :: l in acc ==> Report(n, n1, re.from, lost[..|lost| - 1], l)
    requires lost[|lost| - 1].dst in n.table ==> RouteSound(n.table[lost[|lost| - 1].dst])
    ensures DistinctDsts(acc + more) && forall l :: l in acc + more ==> Report(n, n2, re.from, lost, l)
  {
    var x := lost[|lost| - 1];
    if Breaks(n1, re.from, x) {
      assert n1.table[x.dst] == n.table[x.dst];
      assert forall l :: l in acc ==> l.dst != x.dst;
    }
  }

  /** On a calm run the numbers reported are strictly larger than those held before. */
  lemma ErrorScanRaises(n: Node, re: RouteError)
    requires NodeOk(n) && ErrorOk(re)
    ensures forall l :: l in ErrorScan(n, re.from, re.lost).1 ==> l.dst in n.table && l.seqno > n.table[l.dst].seqno
  {
    hide NodeOk;
    SoundOfOk(n);
    ErrorScanReports(n, re, re.lost);
    forall l | l in ErrorScan(n, re.from, re.lost).1 ensures l.dst in n.table && l.seqno > n.table[l.dst].seqno {
      EntryOk(n, l.dst);
    }
  }

  lemma SoundOfOk(n: Node)
    requires NodeOk(n)
    ensures NodeSound(n)
  {
  }

  predicate Reported(acc: seq<Lost>, d: Addr) { exists k :: 0 <= k < |acc| && acc[k].dst == d }

  predicate Broken(n: Node, from: Addr, lost: seq<Lost>, d: Addr) {
    exists k :: 0 <= k < |lost| && lost[k].dst == d && Breaks(n, from, lost[k])
  }

  lemma BrokenPrefix(n: Node, from: Addr, lost: seq<Lost>, k: nat, d: Addr)
    requires k + 1 == |lost|
    ensures Broken(n, from, lost, d) <==>
            Broken(n, from, lost[..k], d) || (lost[k].dst == d && Breaks(n, from, lost[k]))
  {
  }

  /** And it reports every route it takes down that has a precursor, and touches no other route. */
  lemma {:induction false} ErrorScanComplete(n: Node, re: RouteError, lost: seq<Lost>)
    requires NodeSound(n) && (forall l :: l in lost ==> l in re.lost)
    ensures var (n', acc) := ErrorScan(n, re.from, lost);
            forall d :: d in n.table ==>
              d in n'.table &&
              if Broken(n, re.from, lost, d)
              then !Usable(n'.table[d]) && (n.table[d].precursors != [] ==> Reported(acc, d))
              else n'.table[d] == n.table[d]
  {
    if lost != [] {
      var k := |lost| - 1;
      var (n1, acc) := ErrorScan(n, re.from, lost[..k]);
      var (n2, more) := ErrorEntry(n1, re.from, lost[k]);
      ErrorScanComplete(n, re, lost[..k]);
      ErrorScanStep(n, re, lost[..k]);
      forall d | d in n.table
        ensures d in n2.table
        ensures if Broken(n, re.from, lost, d)
                then !Usable(n2.table[d]) && (n.table[d].precursors != [] ==> Reported(acc + more, d))
                else n2.table[d] == n.table[d]
      {
        BrokenPrefix(n, re.from, lost, k, d);
        assert RouteSound(n.table[d]);
        if Reported(acc, d) {
          var j :| 0 <= j < |acc| && acc[j].dst == d;
          assert (acc + more)[j].dst == d;
        }
        if lost[k].dst == d && Breaks(n1, re.from, lost[k]) && more != [] {
          assert (acc + more)[|acc|].dst == d;
        }
      }
    }
  }

  /** A node that passes a reply for `d` on to a neighbour records it as a precursor of `d`, and so
      will tell it when the route breaks. */
  lemma RelayRecordsPrecursor(n: Node, now: real, p: Reply, next: Addr, m: Message)
    requires n.out == [] && Transmit(next, m) in Handle(n, now, Hear(Rrep(p))).out
    ensures var n' := Handle(n, now, Hear(Rrep(p)));
            p.dst in n'.table && next in n'.table[p.dst].precursors
  {
    hide ForwardRoute;
    var m1 := p.(ttl := p.ttl - 1);
    var n1 := EnsureRoute(n, m1.dst);
    ForwardRouteSendsNothing(n1, now, m1);
  }

  /** So does a node that answers from its table, for both ends of the route. */
  lemma AnswerRecordsPrecursors(n: Node, now: real, p: Request, next: Addr, q: Reply)
    requires n.out == [] && Transmit(next, Rrep(q)) in Handle(n, now, Hear(Rreq(p))).out && p.dst != n.id
    ensures var n' := Handle(n, now, Hear(Rreq(p)));
            && p.dst in n'.table && next in n'.table[p.dst].precursors
            && p.src in n'.table && n'.table[p.dst].nexthop in n'.table[p.src].precursors
  {
    hide ReverseRoute, AnswerRequest;
    var m := p.(ttl := p.ttl - 1);
    assert Handle(n, now, Hear(Rreq(p))) == RecvRequest(n, now, m);
    assert m.src != n.id && !InCache(n.cache, m.src, m.bid);
    var n1 := EnsureRoute(CacheInsert(n, m.src, m.bid, now), m.src);
    ReverseRouteSendsNothing(n1, now, m);
    TableAnswerRecords(ReverseRoute(n1, now, m), now, m, next, q);
  }

  lemma TableAnswerRecords(b: Node, now: real, m: Request, next: Addr, q: Reply)
    requires m.src in b.table && m.dst != b.id && forall x :: x in b.out ==> !x.Transmit?
    requires Transmit(next, Rrep(q)) in AnswerRequest(b, now, m).out
    ensures var n' := AnswerRequest(b, now, m);
            && m.dst in n'.table && next in n'.table[m.dst].precursors
            && m.src in n'.table && n'.table[m.dst].nexthop in n'.table[m.src].precursors
  {
    var n' := AnswerRequest(b, now, m);
    assert n'.out == b.out + [n'.out[|b.out|]];
    assert n'.out[|b.out|] == Transmit(next, Rrep(q));
  }

  /* ---------- cascades ---------- */

  /** The routes in use, all over the network. */
  function InUse(s: Net): set<(nat, Addr)> {
    set i, d | 0 <= i < |s.nodes| && d in s.nodes[i].table && Usable(s.nodes[i].table[d]) :: (i, d)
  }

  /** This action passes on a route error. */
  predicate Resends(s: Net, a: Action)
    requires Enabled(s, a)
  {
    a.Hears? && a.f.msg.Rerr? && exists e :: e in Next(s, a).nodes[a.i].out && e.Transmit?
  }

  /** This action puts a route into use. */
  predicate Installs(s: Net, a: Action)
    requires Enabled(s, a)
  {
    !(InUse(Next(s, a)) <= InUse(s))
  }

  function Resent(states: seq<Net>, actions: seq<Action>, first: nat, last: nat): nat
    requires first <= last <= |actions| <= |states|
    requires forall k :: 0 <= k < |actions| ==> Enabled(states[k], actions[k])
    decreases last - first
  {
    if first == last then 0
    else (if Resends(states[first], actions[first]) then 1 else 0) + Resent(states, actions, first + 1, last)
  }

  function Installed(states: seq<Net>, actions: seq<Action>, first: nat, last: nat): nat
    requires first <= last <= |actions| <= |states|
    requires forall k :: 0 <= k < |actions| ==> Enabled(states[k], actions[k])
    decreases last - first
  {
    if first == last then 0
    else (if Installs(states[first], actions[first]) then 1 else 0) + Installed(states, actions, first + 1, last)
  }

  /** The only destination whose route a message can put into use. */
  function Subject(cause: Option<Message>): Addr {
    match cause
    case Some(Rreq(q)) => q.src
    case Some(Rrep(q)) => q.dst
    case _ => 0
  }

  lemma NewRouteIsSubject(r: Route, r': Route, d: Addr, cause: Option<Message>, localRepair: bool)
    requires RouteStep(r, r', d, cause, localRepair) && Usable(r') && !Usable(r)
    ensures cause.Some? && !cause.value.Rerr? && d == Subject(cause)
  {
  }

  /** One action puts at most one route into use, and an error never does. */
  lemma AtMostOneInstalled(s: Net, a: Action)
    requires BaseInv(s) && Enabled(s, a) && !a.Loses?
    ensures InUse(Next(s, a)) <= InUse(s) + {(a.i, Subject(CauseOf(InputOf(a))))}
    ensures a.Hears? && a.f.msg.Rerr? ==> !Installs(s, a)
  {
    hide Next, RouteBase, FlightBase, NodeSound, Legal;
    NextKeepsSize(s, a);
    var s' := Next(s, a);
    if RepairSpoilsAt(s, a) {
      SpoilingRepair(s, a);
    } else {
      var n, n' := s.nodes[a.i].(out := []), s'.nodes[a.i];
      var cause := CauseOf(InputOf(a));
      ActionLegal(s, a);
      forall i, d | (i, d) in InUse(s') && (i, d) !in InUse(s)
        ensures i == a.i && d == Subject(cause) && cause.Some? && !cause.value.Rerr?
      {
        LegalRoute(n, n', cause, d);
        assert RouteOf(n, d) == RouteOf(s.nodes[a.i], d);
        NewRouteIsSubject(RouteOf(n, d), n'.table[d], d, cause, n.localRepair);
      }
    }
  }

  /** Passing on an error costs at least one route in use. */
  lemma ResendBreaksOne(s: Net, a: Action)
    requires BaseInv(s) && Enabled(s, a) && Resends(s, a)
    ensures exists p :: p in InUse(s) && p !in InUse(Next(s, a))
  {
    hide RouteBase, ErrorScan;
    var n := s.nodes[a.i].(out := []);
    SoundWithoutEffects(s.nodes[a.i]);
    var re := a.f.msg.re;
    ErrorScanReports(n, re, re.lost);
    ErrorScanStep(n, re, re.lost);
    var (n', acc) := ErrorScan(n, re.from, re.lost);
    assert acc != [];
    assert acc[0] in acc;
    var p := (a.i, acc[0].dst);
    assert p in InUse(s) && p !in InUse(Next(s, a));
  }

  lemma CascadeStep(s: Net, a: Action)
    requires BaseInv(s) && Enabled(s, a)
    ensures (if Resends(s, a) then 1 else 0) + |InUse(Next(s, a))|
            <= |InUse(s)| + (if Installs(s, a) then 1 else 0)
  {
    hide BaseInv, Next, Handle;
    if a.Loses? {
      LossKeepsRoutes(s, a);
    } else {
      var subject := (a.i, Subject(CauseOf(InputOf(a))));
      AtMostOneInstalled(s, a);
      SubsetSize(InUse(Next(s, a)), InUse(s) + {subject});
      if Resends(s, a) {
        ResendBreaksOne(s, a);
        var p :| p in InUse(s) && p !in InUse(Next(s, a));
        OneMore(InUse(Next(s, a)), InUse(s), p);
      } else if !Installs(s, a) {
        SubsetSize(InUse(Next(s, a)), InUse(s));
      }
    }
  }

  lemma LossKeepsRoutes(s: Net, a: Action)
    requires Enabled(s, a) && a.Loses?
    ensures InUse(Next(s, a)) == InUse(s)
  {
  }

  /** Every error cascade ends: between any two points of a run, the errors passed on are at most
      the routes in use at the start plus the routes put into use meanwhile. */
  lemma {:induction false} CascadeBounded(states: seq<Net>, actions: seq<Action>, first: nat, last: nat)
    requires Run(states, actions) && first <= last <= |actions|
    ensures Resent(states, actions, first, last) + |InUse(states[last])|
            <= |InUse(states[first])| + Installed(states, actions, first, last)
    decreases last - first
  {
    hide BaseInv, Next, Resends, Installs, InUse;
    if first < last {
      RunBase(states, actions, first);
      CascadeStep(states[first], actions[first]);
      CascadeBounded(states, actions, first + 1, last);
    }
  }
}
