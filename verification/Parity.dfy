/** The parity discipline of sequence numbers and the freshness order of routes: what holds on every
    run, of any number of nodes, in which no repair timer takes down a route at a live number. */
module Parity {
  import opened Types
  import opened RouteTable
  import opened Handlers
  import opened LocalSteps
  import opened Network
  import opened Baseline

  /* ---------- one legal run at node i ---------- */

  lemma RouteStepParity(r: Route, r': Route, d: Addr, cause: Option<Message>, repair: bool)
    requires RouteSound(r) && RouteParity(r) && CauseOk(cause) && RouteStep(r, r', d, cause, repair)
    ensures RouteParity(r')
  {
    if DownFor(r, r', d, cause) {
      DownIsStrict(r, r', d, cause);
    }
  }

  lemma ParityAtActor(s: Net, i: nat, n': Node, heard: Option<Flight>, d: Addr)
    requires LegalIn(s, i, n', heard) && ParityInv(s) && d in n'.table
    ensures RouteParity(n'.table[d])
  {
    hide Legal, RouteStep, RouteBase, FlightBase, MessageParity;
    var n := s.nodes[i].(out := []);
    LegalRoute(n, n', Heard(heard), d);
    assert RouteOf(n, d) == RouteOf(s.nodes[i], d);
    assert RouteSound(RouteOf(n, d)) && RouteParity(RouteOf(n, d));
    RouteStepParity(RouteOf(n, d), n'.table[d], d, Heard(heard), n.localRepair);
  }

  /** A justified message carries numbers of the right parity. */
  lemma NewMessageParity(n: Node, n': Node, m: Message, cause: Option<Message>)
    requires NodeSound(n) && NodeSound(n') && CauseOk(cause) && Justified(n, n', m, cause)
    requires forall d :: d in n'.table ==> RouteParity(n'.table[d])
    ensures MessageParity(m)
  {
    if m.Rerr? {
      forall l | l in m.re.lost ensures DeadNumber(l.seqno) {
        assert IsDown(n', l) && RouteParity(n'.table[l.dst]);
      }
    }
  }

  lemma LegalKeepsParity(s: Net, i: nat, n': Node, heard: Option<Flight>, now: real)
    requires LegalIn(s, i, n', heard) && ParityInv(s)
    ensures ParityInv(After(s, i, n', heard, now))
  {
    hide Legal, NodeSound, RouteBase, FlightBase, RouteParity, MessageParity, Justified;
    var s' := After(s, i, n', heard, now);
    LegalKeepsBase(s, i, n', heard, now);
    forall j, d | 0 <= j < |s'.nodes| && d in s'.nodes[j].table ensures RouteParity(s'.nodes[j].table[d]) {
      if j == i {
        ParityAtActor(s, i, n', heard, d);
      }
    }
    forall f | f in s'.air ensures MessageParity(f.msg) {
      if f !in s.air {
        var e :| e in n'.out && e.Transmit? && f == Tagged(e.next, e.msg, n', heard);
        LegalMessage(s.nodes[i].(out := []), n', Heard(heard), e);
        SoundWithoutEffects(s.nodes[i]);
        assert s'.nodes[i] == n';
        NewMessageParity(s.nodes[i].(out := []), n', e.msg, Heard(heard));
      }
    }
  }

  /* ---------- freshness ---------- */

  /** `s'` is `s` after steps that lose no freshness. */
  ghost predicate Later(s: Net, s': Net) {
    && NumbersGrow(s, s')
    && (forall j, d, seqno, hops :: 0 <= j < |s.nodes| && Fresh(s.nodes[j], d, seqno, hops) ==>
          Fresh(s'.nodes[j], d, seqno, hops))
  }

  lemma RouteStepFresh(r: Route, r': Route, d: Addr, cause: Option<Message>, repair: bool, seqno: nat, hops: nat)
    requires RouteSound(r) && RouteParity(r) && CauseOk(cause) && RouteStep(r, r', d, cause, repair)
    requires AtLeast(r, seqno, hops)
    ensures AtLeast(r', seqno, hops)
  {
    if DownFor(r, r', d, cause) {
      DownIsStrict(r, r', d, cause);
    }
  }

  lemma LegalIsLater(s: Net, i: nat, n': Node, heard: Option<Flight>, now: real)
    requires LegalIn(s, i, n', heard) && ParityInv(s)
    ensures Later(s, After(s, i, n', heard, now))
  {
    hide Legal, RouteStep, RouteBase, FlightBase, MessageParity, AtLeast, RouteParity, RouteSound;
    var n := s.nodes[i].(out := []);
    LegalGrows(s, i, n', heard, now);
    forall d, seqno, hops | Fresh(n, d, seqno, hops) ensures Fresh(n', d, seqno, hops) {
      LegalKeepsEntry(n, n', Heard(heard), d);
      LegalRoute(n, n', Heard(heard), d);
      EntrySound(s.nodes[i], d);
      RouteStepFresh(n.table[d], n'.table[d], d, Heard(heard), n.localRepair, seqno, hops);
    }
  }

  lemma LegalKeepsEntry(n: Node, n': Node, cause: Option<Message>, d: Addr)
    requires Legal(n, n', cause) && d in n.table
    ensures d in n'.table
  {
  }

  /* ---------- every action ---------- */

  lemma NextParity(s: Net, a: Action)
    requires ParityInv(s) && Enabled(s, a) && !RepairSpoilsAt(s, a)
    ensures ParityInv(Next(s, a))
  {
    hide Handle, Legal, RouteBase, FlightBase, NodeSound, RouteParity, MessageParity;
    NextBase(s, a);
    if !a.Loses? {
      ActionLegal(s, a);
      LegalKeepsParity(s, a.i, Next(s, a).nodes[a.i], HeardBy(a), a.now);
    }
  }

  lemma NextIsLater(s: Net, a: Action)
    requires ParityInv(s) && Enabled(s, a) && !RepairSpoilsAt(s, a)
    ensures Later(s, Next(s, a))
  {
    hide Handle, Legal, RouteBase, FlightBase, NodeSound, RouteParity, MessageParity;
    if !a.Loses? {
      ActionLegal(s, a);
      LegalIsLater(s, a.i, Next(s, a).nodes[a.i], HeardBy(a), a.now);
    }
  }

  lemma InitParity(s: Net)
    requires Init(s)
    ensures ParityInv(s)
  {
    InitBase(s);
  }

  lemma {:induction false} SteadyParity(states: seq<Net>, actions: seq<Action>, k: nat)
    requires SteadyRun(states, actions) && k < |states|
    ensures ParityInv(states[k]) && |states[k].nodes| == |states[0].nodes|
  {
    hide ParityInv, Next, Init, RepairSpoilsAt;
    if k == 0 {
      InitParity(states[0]);
    } else {
      SteadyParity(states, actions, k - 1);
      NextParity(states[k - 1], actions[k - 1]);
      NextKeepsSize(states[k - 1], actions[k - 1]);
    }
  }

  /* ---------- runs without local repair ---------- */

  lemma NextKeepsBuild(s: Net, a: Action)
    requires BaseInv(s) && WithoutRepair(s) && Enabled(s, a)
    ensures WithoutRepair(Next(s, a)) && !RepairSpoilsAt(s, a) && !RepairFailsAt(s, a)
  {
    hide Next, Legal, RouteBase, FlightBase;
    NextKeepsSize(s, a);
    if !a.Loses? {
      assert NodeSound(s.nodes[a.i]) && !s.nodes[a.i].localRepair;
      ActionLegal(s, a);
      LegalFrame(s.nodes[a.i].(out := []), Next(s, a).nodes[a.i], CauseOf(InputOf(a)));
    }
  }

  lemma {:induction false} BuildKept(states: seq<Net>, actions: seq<Action>, k: nat)
    requires Run(states, actions) && k < |states| && WithoutRepair(states[0])
    ensures WithoutRepair(states[k])
  {
    hide Next, Init, WithoutRepair;
    if k > 0 {
      BuildKept(states, actions, k - 1);
      RunBase(states, actions, k - 1);
      NextKeepsBuild(states[k - 1], actions[k - 1]);
    }
  }

  /** Without local repair every run is steady and calm. */
  lemma WithoutRepairIsSteady(states: seq<Net>, actions: seq<Action>)
    requires Run(states, actions) && WithoutRepair(states[0])
    ensures SteadyRun(states, actions) && CalmRun(states, actions)
  {
    hide Next, Init, WithoutRepair, RepairSpoilsAt, RepairFailsAt, BaseInv;
    forall k | 0 <= k < |actions|
      ensures !RepairSpoilsAt(states[k], actions[k]) && !RepairFailsAt(states[k], actions[k])
    {
      BuildKept(states, actions, k);
      RunBase(states, actions, k);
      NextKeepsBuild(states[k], actions[k]);
    }
  }

  /* ---------- results ---------- */

  /** Parity: routes that are up or usable, replies and request sources carry even numbers from 2 on;
      routes that are down and errors carry 0 or odd ones. */
  lemma ParityDiscipline(states: seq<Net>, actions: seq<Action>, k: nat)
    requires SteadyRun(states, actions) && k < |states|
    ensures forall i, d :: 0 <= i < |states[k].nodes| && d in states[k].nodes[i].table ==>
              var r := states[k].nodes[i].table[d];
              && (r.flag == Up || Usable(r) ==> Even(r.seqno) && r.seqno >= 2)
              && (r.flag == Down ==> !Usable(r) && (r.seqno == 0 || !Even(r.seqno)))
    ensures forall f :: f in states[k].air ==>
              match f.msg
              case Rreq(q) => Even(q.srcSeqno) && q.srcSeqno >= 2
              case Rrep(q) => Even(q.dstSeqno) && q.dstSeqno >= 2
              case Rerr(q) => forall l :: l in q.lost ==> l.seqno == 0 || !Even(l.seqno)
  {
    SteadyParity(states, actions, k);
    var s := states[k];
    forall i, d | 0 <= i < |s.nodes| && d in s.nodes[i].table
      ensures RouteParity(s.nodes[i].table[d]) && RouteSound(s.nodes[i].table[d])
    {
      assert NodeSound(s.nodes[i]);
    }
    forall f | f in s.air ensures MessageParity(f.msg) {
    }
  }

  /** Invalidation is strict: whenever an action takes down a route that was up or usable, the route
      ends at a strictly larger, odd number. */
  lemma InvalidationIsStrict(states: seq<Net>, actions: seq<Action>, k: nat, i: nat, d: Addr)
    requires SteadyRun(states, actions) && k < |actions| && i < |states[k].nodes| && i < |states[k + 1].nodes|
    requires d in states[k].nodes[i].table && d in states[k + 1].nodes[i].table
    requires states[k].nodes[i].table[d].flag == Up || Usable(states[k].nodes[i].table[d])
    requires states[k + 1].nodes[i].table[d].flag == Down
    ensures states[k + 1].nodes[i].table[d].seqno > states[k].nodes[i].table[d].seqno
    ensures !Even(states[k + 1].nodes[i].table[d].seqno)
  {
    hide Next, Init, Legal, RouteBase, FlightBase, MessageParity;
    var s, a := states[k], actions[k];
    SteadyParity(states, actions, k);
    NextKeepsSize(s, a);
    EntrySound(s.nodes[i], d);
    assert !a.Loses? && a.i == i;
    var n, n' := s.nodes[i].(out := []), Next(s, a).nodes[i];
    ActionLegal(s, a);
    LegalRoute(n, n', Heard(HeardBy(a)), d);
    DownIsStrict(n.table[d], n'.table[d], d, Heard(HeardBy(a)));
  }
}
