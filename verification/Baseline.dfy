/** What holds on every run, failed local repairs included, whatever the size of the network: nobody
    outruns the destination, answers are as fresh as asked for, and hop count and time to live of a
    request stay within the diameter. */
module Baseline {
  import opened Types
  import opened RouteTable
  import opened Handlers
  import opened LocalSteps
  import opened Network

  /* ---------- one legal run at node i ---------- */

  /** Own sequence numbers and broadcast ids only grow. */
  ghost predicate NumbersGrow(s: Net, s': Net) {
    && |s'.nodes| == |s.nodes|
    && forall j :: 0 <= j < |s.nodes| ==> s.nodes[j].seqno <= s'.nodes[j].seqno && s.nodes[j].bid <= s'.nodes[j].bid
  }

  lemma RouteBaseLater(s: Net, s': Net, d: Addr, r: Route)
    requires NumbersGrow(s, s') && RouteBase(s, d, r)
    ensures RouteBase(s', d, r)
  {
  }

  lemma FlightBaseLater(s: Net, s': Net, f: Flight)
    requires NumbersGrow(s, s') && FlightBase(s, f)
    ensures FlightBase(s', f)
  {
    if f.msg.Rerr? {
      forall l | l in f.msg.re.lost ensures l.seqno <= Cap(s', l.dst) {
        assert l.seqno <= Cap(s, l.dst);
      }
    }
  }

  /** Node `i` runs legally from its state to `n'`, having heard `heard`. */
  ghost predicate LegalIn(s: Net, i: nat, n': Node, heard: Option<Flight>) {
    && BaseInv(s) && i < |s.nodes|
    && (heard.Some? ==> heard.value in s.air)
    && Legal(s.nodes[i].(out := []), n', Heard(heard))
  }

  lemma LegalGrows(s: Net, i: nat, n': Node, heard: Option<Flight>, now: real)
    requires LegalIn(s, i, n', heard)
    ensures NumbersGrow(s, After(s, i, n', heard, now)) && n'.id == i && NodeSound(n')
  {
    hide FlightBase;
    SoundWithoutEffects(s.nodes[i]);
    LegalKeepsNodeSound(s.nodes[i].(out := []), n', Heard(heard));
  }

  /** A step of one route keeps the bounds. */
  lemma RouteStepBase(s: Net, s': Net, r: Route, r': Route, d: Addr, heard: Option<Flight>, repair: bool)
    requires NumbersGrow(s, s') && RouteBase(s, d, r) && RouteStep(r, r', d, Heard(heard), repair)
    requires heard.Some? ==> FlightBase(s, heard.value)
    requires r.flag == Down ==> !Usable(r)
    ensures RouteBase(s', d, r')
  {
    RouteBaseLater(s, s', d, r);
    if DownFor(r, r', d, Heard(heard)) && ErrorNamed(Heard(heard), d, r'.seqno) {
      assert Lost(d, r'.seqno) in heard.value.msg.re.lost;
    }
  }

  lemma RouteBaseAtActor(s: Net, i: nat, n': Node, heard: Option<Flight>, now: real, d: Addr)
    requires LegalIn(s, i, n', heard) && d in n'.table
    ensures RouteBase(After(s, i, n', heard, now), d, n'.table[d])
  {
    hide Legal, RouteStep, FlightBase, Sent;
    var n := s.nodes[i].(out := []);
    LegalGrows(s, i, n', heard, now);
    LegalRoute(n, n', Heard(heard), d);
    assert RouteOf(n, d) == RouteOf(s.nodes[i], d);
    assert RouteSound(RouteOf(n, d)) && RouteBase(s, d, RouteOf(n, d));
    RouteStepBase(s, After(s, i, n', heard, now), RouteOf(n, d), n'.table[d], d, heard, n.localRepair);
  }

  /** A justified message satisfies the bounds. */
  lemma NewFlightBase(s: Net, s': Net, i: nat, heard: Option<Flight>, e: Effect)
    requires i < |s.nodes| && NumbersGrow(s, s') && s'.nodes[i].id == i && s.nodes[i].bid >= 1
    requires heard.Some? ==> FlightBase(s, heard.value)
    requires forall d :: d in s'.nodes[i].table ==> RouteBase(s', d, s'.nodes[i].table[d])
    requires e.Transmit? && Justified(s.nodes[i].(out := []), s'.nodes[i], e.msg, Heard(heard))
    ensures FlightBase(s', Tagged(e.next, e.msg, s'.nodes[i], heard))
  {
    hide NodeSound;
    if heard.Some? {
      FlightBaseLater(s, s', heard.value);
    }
    if e.msg.Rerr? {
      forall l | l in e.msg.re.lost ensures l.seqno <= Cap(s', l.dst) {
        assert RouteBase(s', l.dst, s'.nodes[i].table[l.dst]);
      }
    }
  }

  lemma LegalKeepsBase(s: Net, i: nat, n': Node, heard: Option<Flight>, now: real)
    requires LegalIn(s, i, n', heard)
    ensures BaseInv(After(s, i, n', heard, now))
  {
    hide Legal, NodeSound, RouteBase, FlightBase, Justified;
    var s' := After(s, i, n', heard, now);
    LegalGrows(s, i, n', heard, now);
    forall j, d | 0 <= j < |s'.nodes| && d in s'.nodes[j].table ensures RouteBase(s', d, s'.nodes[j].table[d]) {
      if j == i {
        RouteBaseAtActor(s, i, n', heard, now, d);
      } else {
        RouteBaseLater(s, s', d, s.nodes[j].table[d]);
      }
    }
    forall f | f in s'.air ensures FlightBase(s', f) {
      if f in s.air {
        FlightBaseLater(s, s', f);
      } else {
        var e :| e in n'.out && e.Transmit? && f == Tagged(e.next, e.msg, n', heard);
        LegalMessage(s.nodes[i].(out := []), n', Heard(heard), e);
        assert s.nodes[i].bid >= 1 by {
          NodeHasBid(s.nodes[i]);
        }
        NewFlightBase(s, s', i, heard, e);
      }
    }
  }

  lemma NodeHasBid(n: Node)
    requires NodeSound(n)
    ensures n.bid >= 1
  {
  }

  /* ---------- every action ---------- */

  /** Every action is a legal run of its node, losses and spoilt numbers excepted. */
  lemma ActionLegal(s: Net, a: Action)
    requires BaseInv(s) && Enabled(s, a) && !a.Loses? && !RepairSpoilsAt(s, a)
    ensures LegalIn(s, a.i, Next(s, a).nodes[a.i], HeardBy(a))
    ensures Next(s, a) == After(s, a.i, Next(s, a).nodes[a.i], HeardBy(a), a.now)
    ensures Heard(HeardBy(a)) == CauseOf(InputOf(a))
    ensures !InputOf(a).CacheTimer? ==> CacheKept(s.nodes[a.i], Next(s, a).nodes[a.i])
  {
    hide Handle, Legal, NodeSound, RouteBase, FlightBase;
    SoundWithoutEffects(s.nodes[a.i]);
    HandleLegal(s.nodes[a.i].(out := []), a.now, InputOf(a));
  }

  /** A repair timer that takes a route down changes that route and sends nothing. */
  lemma SpoilingRepair(s: Net, a: Action)
    requires Enabled(s, a) && RepairSpoilsAt(s, a)
    ensures var d := a.input.dst;
            && d in s.nodes[a.i].table && s.nodes[a.i].table[d].flag == InRepair
            && Next(s, a).nodes[a.i] ==
               s.nodes[a.i].(out := [], table := s.nodes[a.i].table[d := Downed(s.nodes[a.i].table[d])])
            && Next(s, a).air == s.air
  {
    var n' := Next(s, a).nodes[a.i];
    assert Sent(n', None) == {};
  }

  lemma SpoilingRepairKeepsBase(s: Net, a: Action)
    requires BaseInv(s) && Enabled(s, a) && RepairSpoilsAt(s, a)
    ensures BaseInv(Next(s, a))
  {
    hide Next, RouteBase, FlightBase;
    SpoilingRepair(s, a);
    NextKeepsSize(s, a);
    var d, s', n := a.input.dst, Next(s, a), s.nodes[a.i];
    assert forall j :: 0 <= j < |s.nodes| && j != a.i ==> s'.nodes[j] == s.nodes[j];
    assert NodeSound(s'.nodes[a.i]) by {
      assert RouteSound(n.table[d]);
    }
    assert NumbersGrow(s, s');
    forall j, x | 0 <= j < |s'.nodes| && x in s'.nodes[j].table ensures RouteBase(s', x, s'.nodes[j].table[x]) {
      RouteBaseLater(s, s', x, s.nodes[j].table[x]);
      if j == a.i && x == d {
        DownedBase(s', d, n.table[d]);
      }
    }
    forall f | f in s'.air ensures FlightBase(s', f) {
      FlightBaseLater(s, s', f);
    }
  }

  lemma DownedBase(s: Net, d: Addr, r: Route)
    requires RouteBase(s, d, r) && r.flag == InRepair
    ensures RouteBase(s, d, Downed(r))
  {
  }

  lemma ActsByHandling(s: Net, a: Action)
    requires Enabled(s, a) && !a.Loses?
    ensures Next(s, a).nodes[a.i] == Handle(s.nodes[a.i].(out := []), a.now, InputOf(a))
  {
    hide Handle;
  }

  lemma SentIsInFlight(s: Net, a: Action, e: Effect)
    requires Enabled(s, a) && !a.Loses? && e in Next(s, a).nodes[a.i].out && e.Transmit?
    ensures Tagged(e.next, e.msg, Next(s, a).nodes[a.i], HeardBy(a)) in Next(s, a).air
  {
    hide Handle;
    var n' := Next(s, a).nodes[a.i];
    assert Tagged(e.next, e.msg, n', HeardBy(a)) in Sent(n', HeardBy(a));
  }

  lemma NextKeepsSize(s: Net, a: Action)
    requires Enabled(s, a)
    ensures |Next(s, a).nodes| == |s.nodes|
    ensures forall j :: 0 <= j < |s.nodes| && (a.Loses? || j != a.i) ==> Next(s, a).nodes[j] == s.nodes[j]
  {
  }

  lemma NextBase(s: Net, a: Action)
    requires BaseInv(s) && Enabled(s, a)
    ensures BaseInv(Next(s, a))
  {
    hide Handle, Legal, NodeSound, RouteBase, FlightBase;
    if a.Loses? {
      var s' := Next(s, a);
      forall j, d | 0 <= j < |s'.nodes| && d in s'.nodes[j].table ensures RouteBase(s', d, s'.nodes[j].table[d]) {
        RouteBaseLater(s, s', d, s.nodes[j].table[d]);
      }
      forall f | f in s'.air ensures FlightBase(s', f) {
        FlightBaseLater(s, s', f);
      }
    } else if RepairSpoilsAt(s, a) {
      SpoilingRepairKeepsBase(s, a);
    } else {
      ActionLegal(s, a);
      LegalKeepsBase(s, a.i, Next(s, a).nodes[a.i], HeardBy(a), a.now);
    }
  }

  /** The bounds hold in every state of every run. */
  lemma {:induction false} RunBase(states: seq<Net>, actions: seq<Action>, k: nat)
    requires Run(states, actions) && k < |states|
    ensures BaseInv(states[k]) && |states[k].nodes| == |states[0].nodes|
  {
    hide BaseInv, Next, Init;
    if k == 0 {
      InitBase(states[0]);
    } else {
      RunBase(states, actions, k - 1);
      NextBase(states[k - 1], actions[k - 1]);
      NextKeepsSize(states[k - 1], actions[k - 1]);
    }
  }

  lemma InitBase(s: Net)
    requires Init(s)
    ensures BaseInv(s)
  {
  }
}
