/** What a link failure and a route error do to an agent: which routes go down, which stay, and exactly
    what is reported. */
module FailureEffects {
  import opened Types
  import opened RouteTable
  import opened Handlers
  import opened LocalSteps
  import opened Effects
  import opened ErrorCascade
  import opened Network
  import opened Baseline

  /* ---------- link failures ---------- */

  /** A route in use goes through `id`. */
  predicate Uses(r: Route, id: Addr) { r.hops != 255 && r.nexthop == id }

  /** The entry `r` after it was taken down at number `seqno`. */
  predicate Dead(r: Route, r': Route, seqno: nat) {
    r' == r.(seqno := seqno, lastHops := r.hops, hops := 255, flag := Down, nexthop := 0, expire := 0.0,
             precursors := r'.precursors)
  }

  /** What losing the link to `id` does to an entry. */
  ghost predicate Cut(r: Route, r': Route, id: Addr) {
    && (if Uses(r, id) then Dead(r, r', r.seqno + 1) else r' == r.(precursors := r'.precursors))
    && (forall x :: x in r'.precursors <==> x in r.precursors && x != id)
  }

  /** `lost` lists exactly the destinations that were routed via `id`, once each, one above the number
      held for them. */
  ghost predicate ListsCut(n: Node, lost: seq<Lost>, id: Addr) {
    && DistinctDsts(lost)
    && forall l :: l in lost <==> l.dst in n.table && Uses(n.table[l.dst], id) && l.seqno == n.table[l.dst].seqno + 1
  }

  /** What the assertions of a link failure demand: the own number is even, and every route that breaks
      was up at an even number. */
  ghost predicate MayCut(n: Node, id: Addr) {
    && Even(n.seqno + 2)
    && forall d :: d in n.table && Uses(n.table[d], id) ==> n.table[d].flag == Up && Even(n.table[d].seqno)
  }

  /** `n'` is `n` after it dropped `pkt` and gave up the link to `id`: every entry is cut, the own number
      rises by 2, and an error goes out if and only if a route broke. */
  ghost predicate GaveUpLink(n: Node, n': Node, pkt: Data, id: Addr, lost: seq<Lost>) {
    && n' == n.(seqno := n.seqno + 2, table := n'.table, out := n'.out, failed := n.failed || !MayCut(n, id))
    && n'.table.Keys == n.table.Keys
    && (forall d :: d in n.table ==> Cut(n.table[d], n'.table[d], id))
    && ListsCut(n, lost, id)
    && n'.out == n.out + [Drop(pkt, MacCallback)]
                 + if lost == [] then [] else [Transmit(BROADCAST, Rerr(RouteError(n.id, lost)))]
  }

  lemma CutListed(n: Node, id: Addr)
    requires NodeSound(n)
    ensures ListsCut(n, LostVia(n.order, n.table, id), id)
  {
    LostViaExact(n.order, n.table, id);
    LostViaDistinct(n.order, n.table, id);
    hide LostVia;
  }

  lemma EntryCut(r: Route, id: Addr)
    requires RouteSound(r)
    ensures Cut(r, AfterLinkFailure(r, id), id)
  {
    WithoutFirstRemoves(r.precursors, id);
  }

  lemma EntriesCut(n: Node, id: Addr)
    requires NodeSound(n)
    ensures var table := TableAfterLinkFailure(n.table, id);
            table.Keys == n.table.Keys && forall d :: d in n.table ==> Cut(n.table[d], table[d], id)
  {
    hide Cut, AfterLinkFailure;
    forall d | d in n.table ensures Cut(n.table[d], AfterLinkFailure(n.table[d], id), id) {
      EntrySound(n, d);
      EntryCut(n.table[d], id);
    }
  }

  /** The link layer could not deliver `pkt` to `neighbor`, and no local repair is due. */
  lemma LinkFailureCloses(n: Node, now: real, pkt: Data, neighbor: Addr) returns (lost: seq<Lost>)
    requires NodeSound(n) && pkt.dst != BROADCAST && pkt.dst in n.table
    requires !n.localRepair || pkt.forwards <= n.table[pkt.dst].hops
    ensures GaveUpLink(n, Handle(n, now, LinkDown(pkt, neighbor)), pkt, neighbor, lost)
  {
    hide NbDelete, GaveUpLink, NodeSound;
    lost := LostVia(n.order, n.table, neighbor);
    GivingUpCloses(n, pkt, neighbor);
  }

  /** `nb_delete` field by field. */
  lemma GivingUpShape(m: Node, id: Addr)
    ensures var lost := LostVia(m.order, m.table, id);
            NbDelete(m, id) ==
            m.(seqno := m.seqno + 2, table := TableAfterLinkFailure(m.table, id),
               failed := m.failed || !Even(m.seqno + 2) || !LinkFailureChecks(m, id),
               out := m.out + if lost == [] then [] else [Transmit(BROADCAST, Rerr(RouteError(m.id, lost)))])
  {
    hide LostVia, TableAfterLinkFailure;
    var m2 := Check(m.(seqno := m.seqno + 2), Even(m.seqno + 2));
    SameLinkChecks(m, m2, id);
    hide LinkFailureChecks;
    assert m.out + [] == m.out;
  }

  lemma SameLinkChecks(m: Node, m2: Node, id: Addr)
    requires m2.table == m.table
    ensures LinkFailureChecks(m2, id) == LinkFailureChecks(m, id)
  {
  }

  lemma ChecksCut(n: Node, id: Addr)
    ensures Even(n.seqno + 2) && LinkFailureChecks(n, id) <==> MayCut(n, id)
  {
  }

  lemma GivingUpCloses(n: Node, pkt: Data, id: Addr)
    requires NodeSound(n)
    ensures GaveUpLink(n, NbDelete(Emit(n, Drop(pkt, MacCallback)), id), pkt, id, LostVia(n.order, n.table, id))
  {
    hide LostVia, Cut, ListsCut, NodeSound, LinkFailureChecks, MayCut, TableAfterLinkFailure, NbDelete;
    var m := Emit(n, Drop(pkt, MacCallback));
    GivingUpShape(m, id);
    SameLinkChecks(n, m, id);
    ChecksCut(n, id);
    CutListed(n, id);
    EntriesCut(n, id);
  }

  /** So afterwards nothing depends on the lost neighbour. */
  lemma NothingViaLostNeighbor(n: Node, now: real, pkt: Data, neighbor: Addr, d: Addr)
    requires NodeSound(n) && pkt.dst != BROADCAST && pkt.dst in n.table
    requires !n.localRepair || pkt.forwards <= n.table[pkt.dst].hops
    requires d in Handle(n, now, LinkDown(pkt, neighbor)).table
    ensures var r' := Handle(n, now, LinkDown(pkt, neighbor)).table[d];
            !Uses(r', neighbor) && neighbor !in r'.precursors
  {
    hide Handle;
    var lost := LinkFailureCloses(n, now, pkt, neighbor);
    assert Cut(n.table[d], Handle(n, now, LinkDown(pkt, neighbor)).table[d], neighbor);
  }

  /** A broadcast packet, or one without an entry, is dropped and that is all. */
  lemma FailedBroadcastDropped(n: Node, now: real, pkt: Data, neighbor: Addr)
    requires pkt.dst == BROADCAST || pkt.dst !in n.table
    ensures Handle(n, now, LinkDown(pkt, neighbor)) == n.(out := n.out + [Drop(pkt, MacCallback)])
  {
  }

  /** A local repair is due: the packet has come further than it has to go. It waits in the buffer, the
      route is under repair at the same number and hops, and the agent asks for it. */
  lemma RepairStarts(n: Node, now: real, pkt: Data, neighbor: Addr) returns (b: Node)
    requires pkt.dst != BROADCAST && pkt.dst in n.table
    requires n.localRepair && pkt.forwards > n.table[pkt.dst].hops
    ensures BufferedInto(n, b, pkt, now) && b.table == n.table
    ensures AskedInto(b.(table := b.table[pkt.dst := n.table[pkt.dst].(flag := InRepair)]),
                      Handle(n, now, LinkDown(pkt, neighbor)), pkt.dst, now)
    ensures var r, n' := n.table[pkt.dst], Handle(n, now, LinkDown(pkt, neighbor));
            pkt.dst in n'.table && n'.table[pkt.dst].flag == InRepair
            && n'.table[pkt.dst].seqno == r.seqno && n'.table[pkt.dst].hops == r.hops
            && n'.table[pkt.dst].nexthop == r.nexthop
  {
    hide SendRequest, Enqueue, PerHopTime;
    b := Enqueue(n, pkt, now);
    EnqueueCloses(n, pkt, now);
    var c := b.(table := b.table[pkt.dst := n.table[pkt.dst].(flag := InRepair)]);
    SendRequestCloses(c, pkt.dst, now);
    assert Handle(n, now, LinkDown(pkt, neighbor)) == SendRequest(c, pkt.dst, now);
  }

  /** On every run: the node gives up the link, its error is in flight to everybody, and no other node
      is affected. */
  lemma LinkFailureOnRun(states: seq<Net>, actions: seq<Action>, k: nat, i: nat, pkt: Data, neighbor: Addr, now: real)
    returns (lost: seq<Lost>)
    requires Run(states, actions) && k < |actions| && actions[k] == Acts(i, LinkDown(pkt, neighbor), now)
    requires pkt.dst != BROADCAST && pkt.dst in states[k].nodes[i].table
    requires !states[k].nodes[i].localRepair || pkt.forwards <= states[k].nodes[i].table[pkt.dst].hops
    ensures |states[k + 1].nodes| == |states[k].nodes|
    ensures GaveUpLink(states[k].nodes[i].(out := []), states[k + 1].nodes[i], pkt, neighbor, lost)
    ensures lost != [] ==> Flight(BROADCAST, Rerr(RouteError(i, lost)), 0, {}) in states[k + 1].air
    ensures states[k + 1].nodes == states[k].nodes[i := states[k + 1].nodes[i]]
  {
    hide Next, NodeSound, RouteBase, FlightBase, Init, Cut, ListsCut;
    var s, a := states[k], actions[k];
    RunBase(states, actions, k);
    NextKeepsSize(s, a);
    ActsByHandling(s, a);
    SoundWithoutEffects(s.nodes[i]);
    lost := LinkFailureCloses(s.nodes[i].(out := []), now, pkt, neighbor);
    if lost != [] {
      SentIsInFlight(s, a, Transmit(BROADCAST, Rerr(RouteError(i, lost))));
    }
    assert s.nodes[i := states[k + 1].nodes[i]] == states[k + 1].nodes;
  }

  /* ---------- route errors ---------- */

  /** An error from `from` that names `l` breaks a route of `n`. */
  predicate Names(n: Node, from: Addr, l: Lost) {
    l.dst in n.table && Uses(n.table[l.dst], from) && n.table[l.dst].seqno <= l.seqno
  }

  /** Entry `k` breaks a route that no earlier entry breaks already. */
  predicate NamesFirst(n: Node, from: Addr, lost: seq<Lost>, k: nat) {
    && k < |lost| && Names(n, from, lost[k])
    && forall j :: 0 <= j < k ==> !(lost[j].dst == lost[k].dst && Names(n, from, lost[j]))
  }

  /** The error breaks the route for `d`. */
  predicate Hit(n: Node, from: Addr, lost: seq<Lost>, d: Addr) {
    exists k :: 0 <= k < |lost| && lost[k].dst == d && Names(n, from, lost[k])
  }

  /** What the assertions demand of the routes that break: that they were up at an even number. */
  ghost predicate MayStrike(n: Node, from: Addr, lost: seq<Lost>) {
    forall d :: Hit(n, from, lost, d) ==> n.table[d].flag == Up && Even(n.table[d].seqno)
  }

  /** The entry for `d` afterwards. */
  ghost predicate Struck(n: Node, r': Route, from: Addr, lost: seq<Lost>, d: Addr)
    requires d in n.table
  {
    if Hit(n, from, lost, d)
    then r'.precursors == [] && exists k: nat :: NamesFirst(n, from, lost, k) && lost[k].dst == d
                                           && Dead(n.table[d], r', lost[k].seqno)
    else r' == n.table[d]
  }

  /** `l` is passed on because of entry `k`. */
  predicate PassedFor(n: Node, from: Addr, lost: seq<Lost>, k: nat, l: Lost) {
    NamesFirst(n, from, lost, k) && lost[k] == l && n.table[l.dst].precursors != []
  }

  /** What is passed on: the entries that break a route first, if the route had precursors to tell. */
  ghost predicate PassesOn(n: Node, from: Addr, lost: seq<Lost>, more: seq<Lost>) {
    && DistinctDsts(more)
    && forall l :: l in more <==> exists k: nat :: PassedFor(n, from, lost, k, l)
  }

  ghost predicate Scanned(n: Node, b: Node, from: Addr, lost: seq<Lost>, more: seq<Lost>) {
    && b == n.(table := b.table, failed := n.failed || !MayStrike(n, from, lost)) && b.table.Keys == n.table.Keys
    && (forall d :: d in n.table ==> Struck(n, b.table[d], from, lost, d))
    && PassesOn(n, from, lost, more)
  }

  lemma NamesFirstPrefix(n: Node, from: Addr, lost: seq<Lost>, m: nat, k: nat)
    requires m + 1 == |lost|
    ensures NamesFirst(n, from, lost, k) <==>
            NamesFirst(n, from, lost[..m], k)
            || (k == m && Names(n, from, lost[m]) && !Hit(n, from, lost[..m], lost[m].dst))
  {
    assert forall j :: 0 <= j < m ==> lost[..m][j] == lost[j];
    if k == m && Hit(n, from, lost[..m], lost[m].dst) {
      var j :| 0 <= j < m && lost[..m][j].dst == lost[m].dst && Names(n, from, lost[..m][j]);
      assert lost[j].dst == lost[m].dst && Names(n, from, lost[j]);
    }
  }

  lemma HitPrefix(n: Node, from: Addr, lost: seq<Lost>, m: nat, d: Addr)
    requires m + 1 == |lost|
    ensures Hit(n, from, lost, d) <==> Hit(n, from, lost[..m], d) || (lost[m].dst == d && Names(n, from, lost[m]))
  {
    assert forall j :: 0 <= j < m ==> lost[..m][j] == lost[j];
  }

  /** A route that was hit is not hit again by one more entry at the end of the list. */
  lemma StruckOnce(n: Node, b: Node, from: Addr, lost: seq<Lost>, more: seq<Lost>)
    requires lost != [] && NodeSound(n) && Scanned(n, b, from, lost[..|lost| - 1], more)
    ensures var x := lost[|lost| - 1];
            Breaks(b, from, x) <==> Names(n, from, x) && !Hit(n, from, lost[..|lost| - 1], x.dst)
    ensures var x := lost[|lost| - 1];
            Breaks(b, from, x) ==> b.table[x.dst] == n.table[x.dst] && n.table[x.dst].flag != Down
  {
    var x := lost[|lost| - 1];
    if x.dst in n.table {
      assert Struck(n, b.table[x.dst], from, lost[..|lost| - 1], x.dst);
      EntrySound(n, x.dst);
    }
  }

  /** What one turn of the loop does to the table. */
  lemma TurnStrikes(b: Node, from: Addr, x: Lost, d: Addr)
    requires d in b.table && (Breaks(b, from, x) ==> b.table[x.dst].flag != Down)
    ensures var b' := ErrorEntry(b, from, x).0;
            d in b'.table &&
            if Breaks(b, from, x) && x.dst == d
            then Dead(b.table[d], b'.table[d], x.seqno) && b'.table[d].precursors == []
            else b'.table[d] == b.table[d]
  {
  }

  lemma EntryStrikes(n: Node, b: Node, from: Addr, lost: seq<Lost>, more: seq<Lost>, d: Addr)
    requires lost != [] && NodeSound(n) && Scanned(n, b, from, lost[..|lost| - 1], more) && d in n.table
    ensures d in ErrorEntry(b, from, lost[|lost| - 1]).0.table
    ensures Struck(n, ErrorEntry(b, from, lost[|lost| - 1]).0.table[d], from, lost, d)
  {
    hide ErrorEntry, Names, Hit, Dead, PassesOn, NodeSound;
    var m := |lost| - 1;
    StruckOnce(n, b, from, lost, more);
    TurnStrikes(b, from, lost[m], d);
    HitPrefix(n, from, lost, m, d);
    assert Struck(n, b.table[d], from, lost[..m], d);
    if Hit(n, from, lost[..m], d) {
      var k: nat :| NamesFirst(n, from, lost[..m], k) && lost[..m][k].dst == d
                    && Dead(n.table[d], b.table[d], lost[..m][k].seqno);
      NamesFirstPrefix(n, from, lost, m, k);
      assert lost[k] == lost[..m][k];
      assert NamesFirst(n, from, lost, k);
    } else if Breaks(b, from, lost[m]) && lost[m].dst == d {
      NamesFirstPrefix(n, from, lost, m, m);
      assert NamesFirst(n, from, lost, m);
    }
  }

  lemma PassedForPrefix(n: Node, from: Addr, lost: seq<Lost>, m: nat, k: nat, l: Lost)
    requires m + 1 == |lost|
    ensures PassedFor(n, from, lost, k, l) <==>
            PassedFor(n, from, lost[..m], k, l)
            || (k == m && l == lost[m] && Names(n, from, l) && !Hit(n, from, lost[..m], l.dst)
                && n.table[l.dst].precursors != [])
  {
    hide Names, Hit;
    NamesFirstPrefix(n, from, lost, m, k);
    if k < m {
      assert lost[..m][k] == lost[k];
    }
  }

  /** What one turn of the loop passes on. */
  lemma TurnPasses(n: Node, b: Node, from: Addr, lost: seq<Lost>, more: seq<Lost>)
    requires lost != [] && NodeSound(n) && Scanned(n, b, from, lost[..|lost| - 1], more)
    ensures var x := lost[|lost| - 1];
            ErrorEntry(b, from, x).1 ==
            if Names(n, from, x) && !Hit(n, from, lost[..|lost| - 1], x.dst) && n.table[x.dst].precursors != []
            then [x] else []
  {
    hide Struck, PassesOn, Hit, NodeSound;
    StruckOnce(n, b, from, lost, more);
  }

  lemma EntryPasses(n: Node, b: Node, from: Addr, lost: seq<Lost>, more: seq<Lost>)
    requires lost != [] && NodeSound(n) && Scanned(n, b, from, lost[..|lost| - 1], more)
    ensures PassesOn(n, from, lost, more + ErrorEntry(b, from, lost[|lost| - 1]).1)
  {
    hide Struck, ErrorEntry, NamesFirst, Hit, Names, NodeSound, PassedFor, DistinctDsts;
    var m := |lost| - 1;
    var x, extra := lost[m], ErrorEntry(b, from, lost[m]).1;
    TurnPasses(n, b, from, lost, more);
    forall l ensures l in more + extra <==> exists k: nat :: PassedFor(n, from, lost, k, l) {
      PassedForPrefix(n, from, lost, m, m, x);
      if l in more {
        var k: nat :| PassedFor(n, from, lost[..m], k, l);
        PassedForPrefix(n, from, lost, m, k, l);
      }
      forall k: nat | PassedFor(n, from, lost, k, l) ensures l in more + extra {
        PassedForPrefix(n, from, lost, m, k, l);
        PassedInside(n, from, lost, k, l);
      }
    }
    if extra != [] {
      forall l | l in more ensures l.dst != x.dst {
        var k: nat :| PassedFor(n, from, lost[..m], k, l);
        PassedIsHit(n, from, lost[..m], k, l);
      }
      DistinctAppend(more, x);
    } else {
      assert more + extra == more;
    }
  }

  lemma PassedInside(n: Node, from: Addr, lost: seq<Lost>, k: nat, l: Lost)
    requires PassedFor(n, from, lost, k, l)
    ensures k < |lost|
  {
  }

  lemma PassedIsHit(n: Node, from: Addr, lost: seq<Lost>, k: nat, l: Lost)
    requires PassedFor(n, from, lost, k, l)
    ensures Hit(n, from, lost, l.dst)
  {
  }

  lemma NothingScanned(n: Node, from: Addr)
    ensures Scanned(n, n, from, [], [])
  {
    forall d | d in n.table ensures Struck(n, n.table[d], from, [], d) {
    }
    assert forall k: nat :: !NamesFirst(n, from, [], k);
    assert forall d :: !Hit(n, from, [], d);
  }

  lemma TurnFrame(b: Node, from: Addr, x: Lost)
    ensures var b' := ErrorEntry(b, from, x).0;
            && b' == b.(table := b'.table, failed := b'.failed) && b'.table.Keys == b.table.Keys
            && (b'.failed <==>
                b.failed || (Breaks(b, from, x) && !(b.table[x.dst].flag == Up && Even(b.table[x.dst].seqno))))
  {
  }

  lemma TurnChecks(n: Node, b: Node, from: Addr, lost: seq<Lost>, more: seq<Lost>)
    requires lost != [] && NodeSound(n) && Scanned(n, b, from, lost[..|lost| - 1], more)
    ensures ErrorEntry(b, from, lost[|lost| - 1]).0.failed <==> n.failed || !MayStrike(n, from, lost)
  {
    hide Struck, PassesOn, NodeSound, Hit, Names, ErrorEntry;
    var m := |lost| - 1;
    var pre, x := lost[..m], lost[m];
    TurnFrame(b, from, x);
    StruckOnce(n, b, from, lost, more);
    forall d ensures Hit(n, from, lost, d) <==> Hit(n, from, pre, d) || (x.dst == d && Names(n, from, x)) {
      HitPrefix(n, from, lost, m, d);
    }
    assert Breaks(b, from, x) ==> Hit(n, from, lost, x.dst);
  }

  lemma {:induction false} ScanCloses(n: Node, from: Addr, lost: seq<Lost>)
    requires NodeSound(n)
    ensures Scanned(n, ErrorScan(n, from, lost).0, from, lost, ErrorScan(n, from, lost).1)
  {
    if lost == [] {
      NothingScanned(n, from);
    } else {
      hide Struck, PassesOn, NodeSound, ErrorEntry, MayStrike;
      var m := |lost| - 1;
      ScanCloses(n, from, lost[..m]);
      var (b, more) := ErrorScan(n, from, lost[..m]);
      var b' := ErrorEntry(b, from, lost[m]).0;
      EntryPasses(n, b, from, lost, more);
      forall d | d in n.table ensures Struck(n, b'.table[d], from, lost, d) {
        EntryStrikes(n, b, from, lost, more, d);
      }
      TurnFrame(b, from, lost[m]);
      TurnChecks(n, b, from, lost, more);
    }
  }

  /** An error heard from a neighbour: every route via it that the error names at a number not below the
      one held goes down at the number of the first such entry and forgets its precursors, every other
      entry stays as it was, and the agent broadcasts one error that names exactly the broken routes
      that had precursors, or nothing if there is none. */
  lemma ErrorCloses(n: Node, now: real, re: RouteError) returns (more: seq<Lost>)
    requires NodeSound(n)
    ensures var n' := Handle(n, now, Hear(Rerr(re)));
            && n' == n.(table := n'.table, out := n'.out, failed := n.failed || !MayStrike(n, re.from, re.lost))
            && n'.table.Keys == n.table.Keys
            && (forall d :: d in n.table ==> Struck(n, n'.table[d], re.from, re.lost, d))
            && PassesOn(n, re.from, re.lost, more)
            && n'.out == n.out + if more == [] then [] else [Transmit(BROADCAST, Rerr(RouteError(n.id, more)))]
  {
    hide ErrorScan, Struck, PassesOn, NodeSound, MayStrike;
    ScanCloses(n, re.from, re.lost);
    more := ErrorScan(n, re.from, re.lost).1;
    assert n.out + [] == n.out;
  }

  /** A destination is in the error passed on if and only if its route broke and had a precursor. */
  lemma PassedOnIff(n: Node, from: Addr, lost: seq<Lost>, more: seq<Lost>, d: Addr)
    requires PassesOn(n, from, lost, more)
    ensures Reported(more, d) <==> Hit(n, from, lost, d) && n.table[d].precursors != []
  {
    if Reported(more, d) {
      var j :| 0 <= j < |more| && more[j].dst == d;
      assert more[j] in more;
      var k: nat :| PassedFor(n, from, lost, k, more[j]);
    }
    if Hit(n, from, lost, d) && n.table[d].precursors != [] {
      var k := FirstNamed(n, from, lost, d);
      assert PassedFor(n, from, lost, k, lost[k]);
      assert lost[k] in more;
      var j :| 0 <= j < |more| && more[j] == lost[k];
    }
  }

  lemma {:induction false} FirstNamed(n: Node, from: Addr, lost: seq<Lost>, d: Addr) returns (k: nat)
    requires Hit(n, from, lost, d)
    ensures NamesFirst(n, from, lost, k) && lost[k].dst == d
  {
    var m := |lost| - 1;
    HitPrefix(n, from, lost, m, d);
    if Hit(n, from, lost[..m], d) {
      k := FirstNamed(n, from, lost[..m], d);
    } else {
      k := m;
    }
    NamesFirstPrefix(n, from, lost, m, k);
  }

  /* ---------- the repair timer ---------- */

  /** A repair timer takes the route down at the number it has, if it is not up. */
  lemma RepairTimerCloses(n: Node, now: real, dst: Addr)
    ensures var n' := Handle(n, now, RepairTimer(dst));
            if dst in n.table && n.table[dst].flag == InRepair
            then var r := n.table[dst];
                 n' == n.(table := n.table[dst := r.(lastHops := r.hops, hops := 255, flag := Down, nexthop := 0,
                                                     expire := 0.0)])
            else n' == n
  {
    if dst in n.table {
      assert n.table[dst := n.table[dst]] == n.table;
    }
  }
}
