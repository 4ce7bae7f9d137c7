/** Data packets: drain loops are exact, the buffer stays a bounded FIFO in deadline order, and
    every packet an agent receives is accounted for. */
module Ledger {
  import opened Types
  import opened RouteTable
  import opened SendBuffer
  import opened Handlers

  /* ---------- drain loops ---------- */

  /** What becomes of one drained packet: its single effect, if it has one. */
  function Outcome(id: Addr, nexthop: Addr, pkt: Data, how: Disposal): seq<Effect> {
    match how
    case ForwardIt =>
      if pkt.ttl == 0 then [Drop(pkt, TtlExpired)]
      else if (pkt.up && pkt.dst == BROADCAST) || pkt.dst == id then [Effect.Deliver(pkt)]
      else [Forward(nexthop, pkt.(up := false))]
    case DropIt => [Drop(pkt, NoRoute)]
    case LoseIt => []
  }

  function Outcomes(id: Addr, nexthop: Addr, pkts: seq<Data>, how: Disposal): seq<Effect> {
    if pkts == [] then [] else Outcome(id, nexthop, pkts[0], how) + Outcomes(id, nexthop, pkts[1..], how)
  }

  lemma DisposeOutcome(n: Node, d: Addr, pkt: Data, now: real, how: Disposal)
    requires d in n.table
    ensures var n' := Dispose(n, d, pkt, now, how);
            && n'.id == n.id && d in n'.table && n'.table[d].nexthop == n.table[d].nexthop
            && n'.buffer == n.buffer && n'.aged == n.aged
            && n'.out == n.out + Outcome(n.id, n.table[d].nexthop, pkt, how)
  {
  }

  /** The three results of a drain: what stays, what aged out, what was done. */
  ghost predicate Drained(n: Node, n': Node, d: Addr, now: real, how: Disposal)
    requires d in n.table
  {
    && n'.buffer == PacketsNotFor(Live(n.buffer, now), d)
    && n'.aged == n.aged + Aged(n.buffer, now)
    && n'.out == n.out + Outcomes(n.id, n.table[d].nexthop, PacketsFor(Live(n.buffer, now), d), how)
  }

  /** A drain loop ends, takes exactly the unexpired packets for `d` in the order they were
      enqueued, disposes of each once, and leaves the other unexpired packets in their order. */
  lemma {:induction false} DrainExact(n: Node, d: Addr, now: real, how: Disposal)
    requires d in n.table
    ensures Drained(n, Drain(n, d, now, how), d, now, how)
    decreases |n.buffer|
  {
    hide Dispose, Outcome, Drained, OneTaken;
    var (n1, p) := Deque(n, d, now);
    if p.None? {
      NothingToDrain(n, d, now, how);
    } else {
      var n2 := Dispose(n1, d, p.value, now, how);
      TakingOne(n, d, now, how);
      DrainExact(n2, d, now, how);
      OneDrained(n, n2, Drain(n2, d, now, how), d, p.value, now, how);
    }
  }

  lemma NothingToDrain(n: Node, d: Addr, now: real, how: Disposal)
    requires d in n.table && Deque(n, d, now).1.None?
    ensures Drained(n, Deque(n, d, now).0, d, now, how)
  {
    FirstForSplits(Live(n.buffer, now), d);
  }

  /** `n2` is `n` after one packet `p` was taken and disposed of. */
  ghost predicate OneTaken(n: Node, n2: Node, d: Addr, p: Data, now: real, how: Disposal)
    requires d in n.table
  {
    var live := Live(n.buffer, now);
    && d in n2.table && n2.id == n.id && n2.table[d].nexthop == n.table[d].nexthop
    && Live(n2.buffer, now) == n2.buffer && Aged(n2.buffer, now) == []
    && PacketsNotFor(n2.buffer, d) == PacketsNotFor(live, d)
    && PacketsFor(live, d) == [p] + PacketsFor(n2.buffer, d)
    && n2.aged == n.aged + Aged(n.buffer, now)
    && n2.out == n.out + Outcome(n.id, n.table[d].nexthop, p, how)
  }

  lemma DequeTakes(n: Node, d: Addr, now: real)
    requires Deque(n, d, now).1.Some?
    ensures var (n1, p) := Deque(n, d, now);
            var live := Live(n.buffer, now);
            var k := FirstFor(live, d);
            k < |live| && p.value == live[k].pkt && n1.buffer == Without(live, k)
            && n1 == n.(buffer := Without(live, k), aged := n.aged + Aged(n.buffer, now))
  {
    hide Live, Aged;
  }

  lemma WithoutStaysLive(q: seq<Queued>, k: nat, now: real)
    requires k < |Live(q, now)|
    ensures Live(Without(Live(q, now), k), now) == Without(Live(q, now), k)
    ensures Aged(Without(Live(q, now), k), now) == []
  {
    LiveIsLive(q, now);
    LiveOfAllLive(Without(Live(q, now), k), now);
  }

  lemma TakingOne(n: Node, d: Addr, now: real, how: Disposal)
    requires d in n.table && Deque(n, d, now).1.Some?
    ensures var (n1, p) := Deque(n, d, now);
            OneTaken(n, Dispose(n1, d, p.value, now, how), d, p.value, now, how)
  {
    hide Dispose, Outcome, Deque, Live, Aged, PacketsFor, PacketsNotFor, FirstFor, Without;
    var (n1, p) := Deque(n, d, now);
    DequeTakes(n, d, now);
    FirstForSplits(Live(n.buffer, now), d);
    DisposeOutcome(n1, d, p.value, now, how);
    WithoutStaysLive(n.buffer, FirstFor(Live(n.buffer, now), d), now);
  }

  lemma OneDrained(n: Node, n2: Node, n': Node, d: Addr, p: Data, now: real, how: Disposal)
    requires d in n.table && OneTaken(n, n2, d, p, now, how) && Drained(n2, n', d, now, how)
    ensures Drained(n, n', d, now, how)
  {
    hide Outcome, Live, Aged, PacketsFor, PacketsNotFor;
    var nexthop := n.table[d].nexthop;
    var first, rest := Outcome(n.id, nexthop, p, how), PacketsFor(n2.buffer, d);
    assert n2.aged + [] == n2.aged;
    assert (n.out + first) + Outcomes(n.id, nexthop, rest, how) == n.out + (first + Outcomes(n.id, nexthop, rest, how));
    assert Outcomes(n.id, nexthop, [p] + rest, how) == first + Outcomes(n.id, nexthop, rest, how) by {
      assert ([p] + rest)[1..] == rest;
    }
  }

  lemma {:induction false} NoneFor(q: seq<Queued>, d: Addr)
    ensures !HasPacketFor(PacketsNotFor(q, d), d)
  {
    if q != [] {
      NoneFor(q[1..], d);
      var rest := PacketsNotFor(q[1..], d);
      if q[0].pkt.dst != d {
        assert PacketsNotFor(q, d) == [q[0]] + rest;
        forall i | 0 <= i < |[q[0]] + rest| ensures ([q[0]] + rest)[i].pkt.dst != d {
          if i > 0 {
            assert ([q[0]] + rest)[i] == rest[i - 1];
          }
        }
      }
    }
  }

  /** After a drain no packet for `d` is buffered. */
  lemma DrainEmptiesFor(n: Node, d: Addr, now: real, how: Disposal)
    requires d in n.table
    ensures !HasPacketFor(Drain(n, d, now, how).buffer, d)
  {
    DrainExact(n, d, now, how);
    NoneFor(Live(n.buffer, now), d);
  }

  /* ---------- the accounts of one agent ---------- */

  /** How often the packet `u` occurs: among aged packets, in the buffer, in effects. */
  function One(p: Data, u: nat): nat { if p.uid == u then 1 else 0 }

  function InPackets(pkts: seq<Data>, u: nat): nat {
    if pkts == [] then 0 else InPackets(pkts[..|pkts| - 1], u) + One(pkts[|pkts| - 1], u)
  }

  function InBuffer(q: seq<Queued>, u: nat): nat {
    if q == [] then 0 else One(q[0].pkt, u) + InBuffer(q[1..], u)
  }

  /** Effects send, deliver or drop at most one data packet. */
  function InEffect(e: Effect, u: nat): nat {
    match e
    case Forward(_, p) => One(p, u)
    case Deliver(p) => One(p, u)
    case Drop(p, _) => One(p, u)
    case Transmit(_, _) => 0
    case Discard(_, _) => 0
  }

  function InEffects(out: seq<Effect>, u: nat): nat {
    if out == [] then 0 else InEffects(out[..|out| - 1], u) + InEffect(out[|out| - 1], u)
  }

  /** How often the agent has sent, delivered, dropped, buffered or let age out packet `u`. */
  function Account(n: Node, u: nat): nat {
    InEffects(n.out, u) + InBuffer(n.buffer, u) + InPackets(n.aged, u)
  }

  lemma EmitAccount(n: Node, e: Effect, u: nat)
    ensures Account(Emit(n, e), u) == Account(n, u) + InEffect(e, u)
  {
    assert (n.out + [e])[..|n.out|] == n.out;
  }

  lemma {:induction false} PacketsAppend(a: seq<Data>, b: seq<Data>, u: nat)
    ensures InPackets(a + b, u) == InPackets(a, u) + InPackets(b, u)
  {
    if b == [] {
      assert a + b == a;
    } else {
      var k := |b| - 1;
      assert (a + b)[..|a + b| - 1] == a + b[..k];
      PacketsAppend(a, b[..k], u);
    }
  }

  lemma {:induction false} BufferAppend(a: seq<Queued>, b: seq<Queued>, u: nat)
    ensures InBuffer(a + b, u) == InBuffer(a, u) + InBuffer(b, u)
  {
    if a == [] {
      assert a + b == b;
    } else {
      assert (a + b)[1..] == a[1..] + b;
      BufferAppend(a[1..], b, u);
    }
  }

  /** A purge moves packets from the buffer to the aged ones. */
  lemma {:induction false} PurgeCounts(q: seq<Queued>, now: real, u: nat)
    ensures InBuffer(Live(q, now), u) + InPackets(Aged(q, now), u) == InBuffer(q, u)
  {
    if q != [] {
      PurgeCounts(q[1..], now, u);
      BufferAppend(if q[0].deadline < now then [] else [q[0]], Live(q[1..], now), u);
      PacketsAppend(if q[0].deadline < now then [q[0].pkt] else [], Aged(q[1..], now), u);
      assert [q[0].pkt][..0] == [];
    }
  }

  lemma {:induction false} WithoutCounts(q: seq<Queued>, k: nat, u: nat)
    requires k < |q|
    ensures InBuffer(q, u) == InBuffer(Without(q, k), u) + One(q[k].pkt, u)
  {
    if k == 0 {
      assert Without(q, 0) == q[1..];
    } else {
      hide Without;
      WithoutCounts(q[1..], k - 1, u);
      WithoutTail(q, k);
    }
  }

  /** From `n` to `n'` at time `now`: packet `u` was handed in `got` times, and the buffer stays in order. */
  ghost predicate Accounts(n: Node, n': Node, now: real, u: nat, got: nat) {
    && Account(n', u) == Account(n, u) + got
    && (InOrder(n.buffer, now) ==> InOrder(n'.buffer, now))
  }

  /** No packet changed hands. */
  predicate SameHoldings(n: Node, n': Node) {
    n'.out == n.out && n'.buffer == n.buffer && n'.aged == n.aged
  }

  lemma EmitAccounts(n: Node, e: Effect, now: real, u: nat)
    ensures Accounts(n, Emit(n, e), now, u, InEffect(e, u))
  {
    EmitAccount(n, e, u);
  }

  lemma EnqueueCounts(n: Node, pkt: Data, now: real, u: nat)
    ensures Account(Enqueue(n, pkt, now), u) == Account(n, u) + One(pkt, u)
  {
    var live := Live(n.buffer, now);
    var last := [Queued(pkt, now + AODV_RTQ_TIMEOUT)];
    PurgeCounts(n.buffer, now, u);
    PacketsAppend(n.aged, Aged(n.buffer, now), u);
    assert last[1..] == [];
    BufferAppend(live, last, u);
    if |live| == AODV_RTQ_MAX_LEN {
      BufferAppend(live[1..], last, u);
      var n1 := n.(buffer := Appended(live, pkt, now), aged := n.aged + Aged(n.buffer, now));
      EmitAccount(n1, Victim(live, now).value, u);
    }
  }

  lemma EnqueueAccounts(n: Node, pkt: Data, now: real, u: nat)
    ensures Accounts(n, Enqueue(n, pkt, now), now, u, One(pkt, u))
  {
    hide Account;
    EnqueueCounts(n, pkt, now, u);
    if InOrder(n.buffer, now) {
      AppendInOrder(n.buffer, pkt, now);
    }
  }

  lemma DequeCounts(n: Node, d: Addr, now: real, u: nat)
    ensures var (n', p) := Deque(n, d, now);
            Account(n, u) == Account(n', u) + if p.Some? then One(p.value, u) else 0
  {
    var live := Live(n.buffer, now);
    var k := FirstFor(live, d);
    PurgeCounts(n.buffer, now, u);
    PacketsAppend(n.aged, Aged(n.buffer, now), u);
    if k < |live| {
      WithoutCounts(live, k, u);
    }
  }

  lemma DequeInOrder(n: Node, d: Addr, now: real)
    requires InOrder(n.buffer, now)
    ensures InOrder(Deque(n, d, now).0.buffer, now)
  {
    hide InOrder;
    var live := Live(n.buffer, now);
    var k := FirstFor(live, d);
    LiveInOrder(n.buffer, now);
    if k < |live| {
      WithoutInOrder(live, k, now);
    }
  }

  lemma ForwardViaAccounts(n: Node, d: Addr, pkt: Data, now: real, u: nat)
    requires d in n.table
    ensures Accounts(n, ForwardVia(n, d, pkt, now), now, u, One(pkt, u))
  {
    var n' := ForwardVia(n, d, pkt, now);
    var e := n'.out[|n.out|];
    assert n'.out == n.out + [e];
    EmitAccount(n, e, u);
  }

  lemma DisposeAccounts(n: Node, d: Addr, pkt: Data, now: real, how: Disposal, u: nat)
    requires d in n.table && !how.LoseIt?
    ensures Accounts(n, Dispose(n, d, pkt, now, how), now, u, One(pkt, u))
  {
    hide ForwardVia;
    match how
    case ForwardIt =>
      var n1 := Check(n, n.table[d].flag == Up && Usable(n.table[d]));
      ForwardViaAccounts(n1, d, pkt, now, u);
    case DropIt => EmitAccount(n, Drop(pkt, NoRoute), u);
  }

  /** A drain loop keeps the accounts, unless it lets go of what it takes. */
  lemma {:induction false} DrainAccounts(n: Node, d: Addr, now: real, how: Disposal, u: nat)
    requires d in n.table && !how.LoseIt?
    ensures Accounts(n, Drain(n, d, now, how), now, u, 0)
    decreases |n.buffer|
  {
    hide Account, Dispose, Deque, InOrder;
    var (n1, p) := Deque(n, d, now);
    DequeCounts(n, d, now, u);
    if InOrder(n.buffer, now) {
      DequeInOrder(n, d, now);
    }
    if p.Some? {
      DisposeAccounts(n1, d, p.value, now, how, u);
      DrainAccounts(Dispose(n1, d, p.value, now, how), d, now, how, u);
    }
  }

  lemma SendRequestAccounts(n: Node, d: Addr, now: real, u: nat)
    requires d in n.table
    ensures Accounts(n, SendRequest(n, d, now), now, u, 0)
  {
    hide Drain, InOrder;
    var r := n.table[d];
    var n' := SendRequest(n, d, now);
    match AskDecision(r, now)
    case Quiet =>
    case GiveUp => DrainAccounts(SetRoute(n, d, GivenUp(r, now)), d, now, DropIt, u);
    case Ask =>
      assert n'.out == n.out + [n'.out[|n.out|]] && InEffect(n'.out[|n.out|], u) == 0;
      EmitAccount(n, n'.out[|n.out|], u);
  }

  /** A result that differs from `n` by effects without data packets. */
  lemma QuietEffects(n: Node, n': Node, now: real, extra: seq<Effect>, u: nat)
    requires n'.out == n.out + extra && n'.buffer == n.buffer && n'.aged == n.aged && |extra| <= 1
    requires forall e :: e in extra ==> InEffect(e, u) == 0
    ensures Accounts(n, n', now, u, 0)
  {
    if extra != [] {
      EmitAccount(n, extra[0], u);
      assert extra == [extra[0]];
    } else {
      assert n.out + extra == n.out;
    }
  }

  lemma RecvRequestAccounts(n: Node, now: real, m: Request, u: nat)
    ensures Accounts(n, RecvRequest(n, now, m), now, u, 0)
  {
    hide Account, InOrder, ReverseRoute, AnswerRequest;
    if m.src != n.id && !InCache(n.cache, m.src, m.bid) {
      var n1 := EnsureRoute(CacheInsert(n, m.src, m.bid, now), m.src);
      QuietEffects(n, n1, now, [], u);
      ReverseRouteAccounts(n1, now, m, u);
      AnswerRequestAccounts(ReverseRoute(n1, now, m), now, m, u);
    }
  }

  lemma ReverseRouteAccounts(n: Node, now: real, m: Request, u: nat)
    requires m.src in n.table
    ensures Accounts(n, ReverseRoute(n, now, m), now, u, 0)
  {
    hide Drain, InOrder;
    var r := n.table[m.src];
    if Better(m.srcSeqno, m.hops, r) {
      var r2 := ReverseEntry(r, now, m);
      DrainAccounts(SetRoute(n, m.src, r2), m.src, now, ForwardIt, u);
    }
  }

  lemma AnswerRequestAccounts(n: Node, now: real, m: Request, u: nat)
    requires m.src in n.table
    ensures Accounts(n, AnswerRequest(n, now, m), now, u, 0)
  {
    hide InOrder, Account;
    var n' := AnswerRequest(n, now, m);
    QuietEffects(n, n', now, [n'.out[|n.out|]], u);
  }

  lemma RelayReplyAccounts(n: Node, now: real, m: Reply, u: nat)
    requires m.dst in n.table
    ensures Accounts(n, RelayReply(n, now, m), now, u, 0)
  {
    hide InOrder, Account;
    var n' := RelayReply(n, now, m);
    QuietEffects(n, n', now, [n'.out[|n.out|]], u);
  }

  lemma RecvReplyAccounts(n: Node, now: real, m: Reply, u: nat)
    requires Better(m.dstSeqno, m.hops, EnsureRoute(n, m.dst).table[m.dst]) ==> m.hops != INFINITY2
    ensures Accounts(n, RecvReply(n, now, m), now, u, 0)
  {
    hide Account, InOrder, ForwardRoute, RelayReply;
    var n1 := EnsureRoute(n, m.dst);
    QuietEffects(n, n1, now, [], u);
    if Better(m.dstSeqno, m.hops, n1.table[m.dst]) {
      ForwardRouteAccounts(n1, now, m, u);
      RelayReplyAccounts(ForwardRoute(n1, now, m), now, m, u);
    }
  }

  lemma ForwardRouteAccounts(n: Node, now: real, m: Reply, u: nat)
    requires m.dst in n.table && m.hops != INFINITY2
    ensures Accounts(n, ForwardRoute(n, now, m), now, u, 0)
  {
    hide Drain, InOrder;
    var r1 := ForwardEntry(n.table[m.dst], n.id, now, m);
    DrainAccounts(SetRoute(n, m.dst, r1), m.dst, now, ForwardIt, u);
  }

  lemma {:induction false} ErrorScanHoldings(n: Node, from: Addr, lost: seq<Lost>)
    ensures SameHoldings(n, ErrorScan(n, from, lost).0)
  {
    if lost != [] {
      ErrorScanHoldings(n, from, lost[..|lost| - 1]);
    }
  }

  lemma SendErrorAccounts(n: Node, b: Node, lost: seq<Lost>, now: real, u: nat)
    requires SameHoldings(n, b)
    ensures Accounts(n, SendError(b, lost), now, u, 0)
  {
    hide Account, InOrder;
    QuietEffects(n, SendError(b, lost), now,
                 if lost == [] then [] else [Transmit(BROADCAST, Rerr(RouteError(b.id, lost)))], u);
  }

  lemma RtResolveAccounts(n: Node, now: real, pkt: Data, u: nat)
    ensures Accounts(n, RtResolve(n, now, pkt), now, u, One(pkt, u))
  {
    hide Account, InOrder, ForwardVia, Enqueue, SendRequest;
    var n1 := EnsureRoute(n, pkt.dst);
    var r := n1.table[pkt.dst];
    QuietEffects(n, n1, now, [], u);
    if r.flag == Up {
      var n2 := Check(n1, Usable(r));
      QuietEffects(n1, n2, now, [], u);
      ForwardViaAccounts(n2, pkt.dst, pkt, now, u);
    } else if pkt.src == n.id {
      EnqueueAccounts(n1, pkt, now, u);
      EnqueueKeepsTable(n1, pkt, now);
      SendRequestAccounts(Enqueue(n1, pkt, now), pkt.dst, now, u);
    } else if r.flag == InRepair {
      EnqueueAccounts(n1, pkt, now, u);
    } else {
      var n2 := SendError(Check(n1, r.flag == Down), [Lost(pkt.dst, r.seqno)]);
      SendErrorAccounts(n1, Check(n1, r.flag == Down), [Lost(pkt.dst, r.seqno)], now, u);
      EmitAccounts(n2, Drop(pkt, NoRoute), now, u);
    }
  }

  lemma OneEffectAccounts(n: Node, n': Node, e: Effect, now: real, u: nat)
    requires n'.out == n.out + [e] && n'.buffer == n.buffer && n'.aged == n.aged
    ensures Accounts(n, n', now, u, InEffect(e, u))
  {
    EmitAccount(n, e, u);
  }

  lemma RecvDataAccounts(n: Node, now: real, pkt: Data, u: nat)
    ensures Accounts(n, RecvData(n, now, pkt), now, u, One(pkt, u))
  {
    hide RtResolve, InOrder, Account, Accounts;
    var p := if pkt.src != n.id then pkt.(ttl := pkt.ttl - 1)
             else if pkt.dst != BROADCAST then pkt.(ttl := NETWORK_DIAMETER)
             else pkt;
    var n' := RecvData(n, now, pkt);
    if (pkt.src == n.id && pkt.forwards != 0) || (pkt.src != n.id && p.ttl == 0) || pkt.dst == BROADCAST {
      OneEffectAccounts(n, n', n'.out[|n.out|], now, u);
    } else {
      RtResolveAccounts(n, now, p, u);
    }
  }

  lemma PurgeEntryAccounts(n: Node, d: Addr, now: real, u: nat)
    requires d in n.table
    ensures Accounts(n, PurgeEntry(n, d, now), now, u, 0)
  {
    hide Account, InOrder, Drain, SendRequest;
    var r := n.table[d];
    var n0 := Check(n, Usable(r));
    QuietEffects(n, n0, now, [], u);
    if r.flag == Up && r.expire < now {
      DrainAccounts(n0, d, now, DropIt, u);
      QuietEffects(Drain(n0, d, now, DropIt), PurgeEntry(n, d, now), now, [], u);
    } else if r.flag == Up {
      DrainAccounts(n0, d, now, ForwardIt, u);
    } else if HasPacketFor(n.buffer, d) {
      SendRequestAccounts(n, d, now, u);
    }
  }

  lemma {:induction false} PurgeAllAccounts(n: Node, ds: seq<Addr>, now: real, u: nat)
    ensures Accounts(n, PurgeAll(n, ds, now), now, u, 0)
    decreases |ds|
  {
    hide Account, InOrder, PurgeEntry;
    if ds == [] {
    } else if ds[0] in n.table {
      PurgeEntryAccounts(n, ds[0], now, u);
      PurgeAllAccounts(PurgeEntry(n, ds[0], now), ds[1..], now, u);
    } else {
      PurgeAllAccounts(n, ds[1..], now, u);
    }
  }

  lemma LinkFailedAccounts(n: Node, now: real, pkt: Data, neighbor: Addr, u: nat)
    ensures Accounts(n, LinkFailed(n, now, pkt, neighbor), now, u, One(pkt, u))
  {
    hide Account, InOrder, Enqueue, SendRequest, LostVia;
    var n1 := Emit(n, Drop(pkt, MacCallback));
    EmitAccounts(n, Drop(pkt, MacCallback), now, u);
    if pkt.dst == BROADCAST || pkt.dst !in n.table {
    } else if n.localRepair && pkt.forwards > n.table[pkt.dst].hops {
      var n2 := Enqueue(n, pkt, now);
      EnqueueAccounts(n, pkt, now, u);
      EnqueueKeepsTable(n, pkt, now);
      var n3 := SetRoute(n2, pkt.dst, n2.table[pkt.dst].(flag := InRepair));
      QuietEffects(n2, n3, now, [], u);
      SendRequestAccounts(n3, pkt.dst, now, u);
    } else {
      LinkFailureAccounts(n1, neighbor, now, u);
    }
  }

  lemma EnqueueKeepsTable(n: Node, pkt: Data, now: real)
    ensures Enqueue(n, pkt, now).table == n.table
  {
  }

  lemma LinkFailureAccounts(n: Node, neighbor: Addr, now: real, u: nat)
    ensures Accounts(n, NbDelete(n, neighbor), now, u, 0)
  {
    hide Account, InOrder, LostVia, TableAfterLinkFailure, LinkFailureChecks;
    var n1 := n.(seqno := n.seqno + 2);
    var n2 := Check(n1, Even(n1.seqno));
    var b := Check(n2.(table := TableAfterLinkFailure(n2.table, neighbor)), LinkFailureChecks(n2, neighbor));
    SendErrorAccounts(n, b, LostVia(n2.order, n2.table, neighbor), now, u);
  }

  /** The data packet an input hands to the agent: a new one, or one the link layer gives back. */
  function HandedIn(input: Input, u: nat): nat {
    match input
    case Packet(p) => One(p, u)
    case LinkDown(p, _) => One(p, u)
    case _ => 0
  }

  /** One handler run accounts for exactly the packet it was given, and keeps the buffer in order. */
  lemma HandleAccounts(n: Node, now: real, input: Input, u: nat)
    requires !LosingReply(n, input)
    ensures Accounts(n, Handle(n, now, input), now, u, HandedIn(input, u))
  {
    hide Account, InOrder, RecvRequest, RecvReply, ErrorScan, RecvData, LinkFailed, PurgeAll;
    match input
    case Hear(m) =>
      match m {
        case Rreq(q) => RecvRequestAccounts(n, now, q.(ttl := q.ttl - 1), u);
        case Rrep(q) => RecvReplyAccounts(n, now, q.(ttl := q.ttl - 1), u);
        case Rerr(q) =>
          ErrorScanHoldings(n, q.from, q.lost);
          SendErrorAccounts(n, ErrorScan(n, q.from, q.lost).0, ErrorScan(n, q.from, q.lost).1, now, u);
      }
    case Packet(pkt) => RecvDataAccounts(n, now, pkt, u);
    case LinkDown(pkt, neighbor) => LinkFailedAccounts(n, now, pkt, neighbor, u);
    case RouteTimer => PurgeAllAccounts(n, n.order, now, u);
    case CacheTimer => QuietEffects(n, IdPurge(n, now), now, [], u);
    case RepairTimer(dst) => QuietEffects(n, RepairTimeout(n, dst), now, [], u);
  }

  /* ---------- the branch that loses packets ---------- */

  lemma {:induction false} DrainLoses(n: Node, d: Addr, now: real, u: nat)
    requires d in n.table
    ensures Account(Drain(n, d, now, LoseIt), u) + InPackets(PacketsFor(Live(n.buffer, now), d), u) == Account(n, u)
    decreases |n.buffer|
  {
    hide Account, Deque, ForwardVia;
    var (n1, p) := Deque(n, d, now);
    DequeCounts(n, d, now, u);
    if p.None? {
      NothingToDrain(n, d, now, LoseIt);
      FirstForSplits(Live(n.buffer, now), d);
      NoneTaken(n, d, now);
    } else {
      TakingOne(n, d, now, LoseIt);
      DrainLoses(n1, d, now, u);
      assert Dispose(n1, d, p.value, now, LoseIt) == n1;
      PacketsAppend([p.value], PacketsFor(n1.buffer, d), u);
      assert [p.value][..0] == [];
    }
  }

  lemma NoneTaken(n: Node, d: Addr, now: real)
    requires Deque(n, d, now).1.None?
    ensures PacketsFor(Live(n.buffer, now), d) == []
  {
    FirstForSplits(Live(n.buffer, now), d);
  }

  /** An accepted reply with the hop count that means "no route" loses exactly the unexpired packets
      buffered for its destination; an agent keeps its accounts if and only if there are none. */
  lemma LosingReplyLosesExactly(n: Node, now: real, p: Reply, u: nat)
    requires LosingReply(n, Hear(Rrep(p)))
    ensures Account(Handle(n, now, Hear(Rrep(p))), u) + InPackets(PacketsFor(Live(n.buffer, now), p.dst), u)
            == Account(n, u)
  {
    hide Account, Drain, InOrder;
    var m := p.(ttl := p.ttl - 1);
    var n1 := EnsureRoute(n, m.dst);
    QuietEffects(n, n1, now, [], u);
    var r1 := ForwardEntry(n1.table[m.dst], n.id, now, m);
    var n2 := SetRoute(n1, m.dst, r1);
    QuietEffects(n1, n2, now, [], u);
    DrainLoses(n2, m.dst, now, u);
    RelayReplyAccounts(Drain(n2, m.dst, now, LoseIt), now, m, u);
  }

  lemma {:induction false} DrainInOrder(n: Node, d: Addr, now: real, how: Disposal)
    requires d in n.table && InOrder(n.buffer, now)
    ensures InOrder(Drain(n, d, now, how).buffer, now)
    decreases |n.buffer|
  {
    hide InOrder, Deque, Dispose;
    var (n1, p) := Deque(n, d, now);
    DequeInOrder(n, d, now);
    if p.Some? {
      DrainInOrder(Dispose(n1, d, p.value, now, how), d, now, how);
    }
  }

  /** Every handler run keeps the buffer in order. */
  lemma HandleInOrder(n: Node, now: real, input: Input)
    requires InOrder(n.buffer, now)
    ensures InOrder(Handle(n, now, input).buffer, now)
  {
    hide InOrder, Handle, Drain;
    if !LosingReply(n, input) {
      HandleAccounts(n, now, input, 0);
    } else {
      LosingReplyInOrder(n, now, input.msg.rp);
    }
  }

  lemma LosingReplyInOrder(n: Node, now: real, p: Reply)
    requires InOrder(n.buffer, now) && LosingReply(n, Hear(Rrep(p)))
    ensures InOrder(Handle(n, now, Hear(Rrep(p))).buffer, now)
  {
    hide Account, Drain, InOrder;
    var m := p.(ttl := p.ttl - 1);
    var n1 := EnsureRoute(n, m.dst);
    var r1 := ForwardEntry(n1.table[m.dst], n.id, now, m);
    DrainInOrder(SetRoute(n1, m.dst, r1), m.dst, now, LoseIt);
  }

  /* ---------- whole lives ---------- */

  /** Something that happens to an agent, and when. */
  datatype Event = Event(now: real, input: Input)

  /** The agent after a sequence of events, its effects collected. */
  function Life(n: Node, events: seq<Event>): Node {
    if events == [] then n
    else Handle(Life(n, events[..|events| - 1]), events[|events| - 1].now, events[|events| - 1].input)
  }

  function TimesReceived(events: seq<Event>, u: nat): nat {
    if events == [] then 0
    else TimesReceived(events[..|events| - 1], u) + HandedIn(events[|events| - 1].input, u)
  }

  /** Data-packet conservation: whatever happens to an agent, each packet handed to it is found, as
      often as it was handed in, among the packets sent, delivered, dropped, buffered or aged out. */
  lemma {:induction false} Conservation(n: Node, events: seq<Event>, u: nat)
    requires forall k :: 0 <= k < |events| ==> !LosingReply(Life(n, events[..k]), events[k].input)
    ensures Account(Life(n, events), u) == Account(n, u) + TimesReceived(events, u)
  {
    hide Account, Handle, LosingReply;
    if events != [] {
      var k := |events| - 1;
      forall j | 0 <= j < k ensures !LosingReply(Life(n, events[..k][..j]), events[..k][j].input) {
        assert events[..k][..j] == events[..j];
      }
      Conservation(n, events[..k], u);
      HandleAccounts(Life(n, events[..k]), events[k].now, events[k].input, u);
    }
  }
}
