/** Buffers and data packets in the network. */
module Packets {
  import opened SendBuffer
  import opened Handlers
  import opened Network
  import opened Baseline
  import opened Runs
  import opened Ledger

  predicate AllInOrder(s: Net) {
    forall i :: 0 <= i < |s.nodes| ==> InOrder(s.nodes[i].buffer, s.clock)
  }

  /** On every run every send buffer is a bounded FIFO whose deadlines are sorted, so that the full
      scan of `purge` leaves what the head-only purge would leave. */
  lemma {:induction false} BuffersInOrder(states: seq<Net>, actions: seq<Action>, k: nat, i: nat, now: real)
    requires Run(states, actions) && k < |states| && i < |states[k].nodes|
    ensures AllInOrder(states[k])
    ensures Live(states[k].nodes[i].buffer, now) == HeadPurge(states[k].nodes[i].buffer, now)
  {
    hide Next, Live, HeadPurge;
    if k == 0 {
      assert forall j :: 0 <= j < |states[0].nodes| ==> states[0].nodes[j].buffer == [];
    } else {
      NextKeepsSize(states[k - 1], actions[k - 1]);
      BuffersInOrder(states, actions, k - 1, i, now);
      NextInOrder(states[k - 1], actions[k - 1]);
    }
    FullScanIsHeadPurge(states[k].nodes[i].buffer, now);
  }

  lemma NextInOrder(s: Net, a: Action)
    requires AllInOrder(s) && Enabled(s, a)
    ensures AllInOrder(Next(s, a))
  {
    hide Handle, InOrder;
    if !a.Loses? {
      forall i | 0 <= i < |s.nodes| ensures InOrder(Next(s, a).nodes[i].buffer, a.now) {
        LaterInOrder(s.nodes[i].buffer, s.clock, a.now);
        if i == a.i {
          HandleInOrder(s.nodes[i].(out := []), a.now, InputOf(a));
        }
      }
    }
  }

  /** On every run an action accounts for what was buffered or aged before and for the packet it was
      given, unless it accepts a reply with a wrapped hop count. */
  lemma PacketsConserved(states: seq<Net>, actions: seq<Action>, k: nat, u: nat)
    requires Run(states, actions) && k < |actions| && !actions[k].Loses?
    requires !LosingReplyAt(states[k], actions[k])
    ensures actions[k].i < |states[k + 1].nodes|
    ensures var n := states[k].nodes[actions[k].i].(out := []);
            Account(states[k + 1].nodes[actions[k].i], u) == Account(n, u) + HandedIn(InputOf(actions[k]), u)
  {
    hide Handle, Account, Init, InOrder;
    var s, a := states[k], actions[k];
    NextKeepsSize(s, a);
    ActsByHandling(s, a);
    HandleAccounts(s.nodes[a.i].(out := []), a.now, InputOf(a), u);
  }

  /** How often node `i` has sent, delivered or dropped packet `u` before state `k`. */
  function DoneSoFar(states: seq<Net>, actions: seq<Action>, i: nat, u: nat, k: nat): nat
    requires |states| == |actions| + 1 && k <= |actions|
  {
    if k == 0 then 0
    else DoneSoFar(states, actions, i, u, k - 1)
         + if !actions[k - 1].Loses? && actions[k - 1].i == i && i < |states[k].nodes|
           then InEffects(states[k].nodes[i].out, u) else 0
  }

  /** How often packet `u` was handed to node `i` before state `k`. */
  function HandedSoFar(states: seq<Net>, actions: seq<Action>, i: nat, u: nat, k: nat): nat
    requires |states| == |actions| + 1 && k <= |actions|
  {
    if k == 0 then 0
    else HandedSoFar(states, actions, i, u, k - 1)
         + if !actions[k - 1].Loses? && actions[k - 1].i == i then HandedIn(InputOf(actions[k - 1]), u) else 0
  }

  /** Conservation in the network: as long as nobody accepts a reply with a wrapped hop count, each packet
      that was ever handed to a node is found there, as often as it was handed in, among what the node
      did, buffers or let age. */
  lemma {:induction false} RunConserves(states: seq<Net>, actions: seq<Action>, i: nat, u: nat, k: nat)
    requires Run(states, actions) && NoLosingReply(states, actions) && k < |states| && i < |states[0].nodes|
    ensures i < |states[k].nodes|
    ensures DoneSoFar(states, actions, i, u, k)
            + InBuffer(states[k].nodes[i].buffer, u) + InPackets(states[k].nodes[i].aged, u)
            == HandedSoFar(states, actions, i, u, k)
    decreases k
  {
    hide Next, LosingReplyAt, Init;
    if k == 0 {
      StartsEmpty(states[0], i);
    } else {
      RunConserves(states, actions, i, u, k - 1);
      NextKeepsSize(states[k - 1], actions[k - 1]);
      if !actions[k - 1].Loses? && actions[k - 1].i == i {
        PacketsConserved(states, actions, k - 1, u);
      }
    }
  }

  /** In networks whose size fits the hop count field: on every calm run. */
  lemma RunConservesWhenSized(states: seq<Net>, actions: seq<Action>, i: nat, u: nat, k: nat)
    requires CalmRun(states, actions) && Sized(states, actions) && k < |states| && i < |states[0].nodes|
    ensures i < |states[k].nodes|
    ensures DoneSoFar(states, actions, i, u, k)
            + InBuffer(states[k].nodes[i].buffer, u) + InPackets(states[k].nodes[i].aged, u)
            == HandedSoFar(states, actions, i, u, k)
  {
    hide Next, Init, NoLosingReply;
    SizedLosesNoReply(states, actions);
    RunConserves(states, actions, i, u, k);
  }

  lemma StartsEmpty(s: Net, i: nat)
    requires Init(s) && i < |s.nodes|
    ensures s.nodes[i].buffer == [] && s.nodes[i].aged == []
  {
    assert s.nodes[i] == NewNode(i, s.nodes[i].localRepair);
  }
}
