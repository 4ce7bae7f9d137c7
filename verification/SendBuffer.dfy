/** The send buffer: a pointer-linked FIFO of data packets waiting for a route.
    The first half states its operations on sequences, the second half is the linked list. */
module SendBuffer {
  import opened Types

  /* ---------- specification on sequences ---------- */

  /** What a purge at time `now` leaves. */
  function Live(q: seq<Queued>, now: real): seq<Queued> {
    if q == [] then []
    else (if q[0].deadline < now then [] else [q[0]]) + Live(q[1..], now)
  }

  /** The packets a purge at time `now` unlinks. */
  function Aged(q: seq<Queued>, now: real): seq<Data> {
    if q == [] then []
    else (if q[0].deadline < now then [q[0].pkt] else []) + Aged(q[1..], now)
  }

  /** Position of the oldest packet for `dst`, or the length if there is none. */
  function FirstFor(q: seq<Queued>, dst: Addr): (k: nat)
    ensures k <= |q|
    ensures k < |q| ==> q[k].pkt.dst == dst
    ensures forall j :: 0 <= j < k ==> q[j].pkt.dst != dst
  {
    if q == [] || q[0].pkt.dst == dst then 0 else 1 + FirstFor(q[1..], dst)
  }

  /** `q` without position `k`. */
  function Without<T>(q: seq<T>, k: nat): (r: seq<T>)
    requires k < |q|
    ensures |r| == |q| - 1
    ensures forall i :: 0 <= i < |r| ==> r[i] == if i < k then q[i] else q[i + 1]
  {
    q[..k] + q[k + 1..]
  }

  lemma WithoutAt<T>(q: seq<T>, k: nat)
    requires k < |q|
    ensures |Without(q, k)| == |q| - 1
    ensures forall i {:trigger Without(q, k)[i]} ::
              0 <= i < |q| - 1 ==> Without(q, k)[i] == if i < k then q[i] else q[i + 1]
  {
  }

  lemma WithoutTail<T>(q: seq<T>, k: nat)
    requires 0 < k < |q|
    ensures Without(q, k) == [q[0]] + Without(q[1..], k - 1)
    ensures Without(q, k)[1..] == Without(q[1..], k - 1)
  {
    var a, b := Without(q, k)[1..], Without(q[1..], k - 1);
    assert |a| == |b|;
    forall i | 0 <= i < |a| ensures a[i] == b[i] {
      assert a[i] == Without(q, k)[i + 1];
    }
    assert Without(q, k) == [Without(q, k)[0]] + a;
  }

  /** The packet evicted by an enqueue into a purged buffer `q`, with the drop reason. */
  function Victim(q: seq<Queued>, now: real): Option<Effect>
  {
    if |q| == AODV_RTQ_MAX_LEN then
      Some(Drop(q[0].pkt, if q[0].deadline > now then QueueFull else QueueTimeout))
    else None
  }

  /** The purged buffer `q` after enqueueing `pkt`. */
  function Appended(q: seq<Queued>, pkt: Data, now: real): seq<Queued> {
    (if |q| == AODV_RTQ_MAX_LEN then q[1..] else q) + [Queued(pkt, now + AODV_RTQ_TIMEOUT)]
  }

  /** The packets of `q` for `dst`, oldest first. */
  function PacketsFor(q: seq<Queued>, dst: Addr): seq<Data> {
    if q == [] then []
    else (if q[0].pkt.dst == dst then [q[0].pkt] else []) + PacketsFor(q[1..], dst)
  }

  /** The rest of `q` when the packets for `dst` are gone. */
  function PacketsNotFor(q: seq<Queued>, dst: Addr): seq<Queued> {
    if q == [] then []
    else (if q[0].pkt.dst == dst then [] else [q[0]]) + PacketsNotFor(q[1..], dst)
  }

  /** The head-only purge that the source keeps in a comment. */
  function HeadPurge(q: seq<Queued>, now: real): seq<Queued> {
    if q != [] && q[0].deadline < now then HeadPurge(q[1..], now) else q
  }

  predicate Sorted(q: seq<Queued>) {
    forall i, j :: 0 <= i < j < |q| ==> q[i].deadline <= q[j].deadline
  }

  /** A buffer as it can be at time `now`: bounded, deadlines sorted and none too far away. */
  predicate InOrder(q: seq<Queued>, now: real) {
    && |q| <= AODV_RTQ_MAX_LEN
    && Sorted(q)
    && forall i :: 0 <= i < |q| ==> q[i].deadline <= now + AODV_RTQ_TIMEOUT
  }

  /* ---------- lemmas about the specification ---------- */

  lemma {:induction false} LiveOfAllLive(q: seq<Queued>, now: real)
    requires forall i :: 0 <= i < |q| ==> q[i].deadline >= now
    ensures Live(q, now) == q && Aged(q, now) == []
  {
    if q != [] {
      LiveOfAllLive(q[1..], now);
    }
  }

  /** A purge leaves no packet whose deadline has passed. */
  lemma {:induction false} LiveIsLive(q: seq<Queued>, now: real)
    ensures |Live(q, now)| <= |q|
    ensures forall i :: 0 <= i < |Live(q, now)| ==> Live(q, now)[i].deadline >= now && Live(q, now)[i] in q
  {
    if q != [] {
      LiveIsLive(q[1..], now);
      var rest := Live(q[1..], now);
      if q[0].deadline >= now {
        assert Live(q, now) == [q[0]] + rest;
      } else {
        assert Live(q, now) == rest;
      }
    }
  }

  /** What a purge leaves of one packet, and of buffers one after the other: together this says exactly
      which packets stay, and that they stay in their order. */
  lemma PurgeOfOne(q: Queued, now: real)
    ensures Live([q], now) == (if q.deadline < now then [] else [q])
    ensures Aged([q], now) == (if q.deadline < now then [q.pkt] else [])
  {
    assert [q][1..] == [];
  }

  lemma {:induction false} PurgeOfBoth(a: seq<Queued>, b: seq<Queued>, now: real)
    ensures Live(a + b, now) == Live(a, now) + Live(b, now)
    ensures Aged(a + b, now) == Aged(a, now) + Aged(b, now)
  {
    hide Live, Aged;
    if a == [] {
      PurgeOfNone(now);
      assert a + b == b && [] + Live(b, now) == Live(b, now) && [] + Aged(b, now) == Aged(b, now);
    } else {
      var rest := a[1..];
      PurgeOfBoth(rest, b, now);
      FirstOfBoth(a, b);
      PurgeOfFirst(a, now);
      PurgeOfFirst(a + b, now);
      ConsAppend(a[0], Live(rest, now), Live(b, now));
      ConsAppend(a[0].pkt, Aged(rest, now), Aged(b, now));
    }
  }

  lemma PurgeOfNone(now: real)
    ensures Live([], now) == [] && Aged([], now) == []
  {
  }

  lemma FirstOfBoth(a: seq<Queued>, b: seq<Queued>)
    requires a != []
    ensures (a + b)[0] == a[0] && (a + b)[1..] == a[1..] + b
  {
  }

  lemma ConsAppend<T>(x: T, a: seq<T>, b: seq<T>)
    ensures [x] + (a + b) == ([x] + a) + b
  {
  }

  lemma PurgeOfFirst(q: seq<Queued>, now: real)
    requires q != []
    ensures Live(q, now) == if q[0].deadline < now then Live(q[1..], now) else [q[0]] + Live(q[1..], now)
    ensures Aged(q, now) == if q[0].deadline < now then [q[0].pkt] + Aged(q[1..], now) else Aged(q[1..], now)
  {
  }

  /** Unlinking the first aged packet leaves the purge of the rest to do. */
  lemma {:induction false} LiveSkipsAged(q: seq<Queued>, k: nat, now: real)
    requires k < |q| && q[k].deadline < now
    requires forall j :: 0 <= j < k ==> q[j].deadline >= now
    ensures Live(Without(q, k), now) == Live(q, now)
    ensures Aged(q, now) == [q[k].pkt] + Aged(Without(q, k), now)
  {
    hide Live, Aged, Without;
    PurgeOfFirst(q, now);
    if k == 0 {
      WithoutHead(q);
    } else {
      LiveSkipsAged(q[1..], k - 1, now);
      WithoutTail(q, k);
      PurgeOfFirst(Without(q, k), now);
    }
  }

  lemma WithoutHead<T>(q: seq<T>)
    requires q != []
    ensures Without(q, 0) == q[1..]
  {
  }

  /** Because deadlines are sorted, the full scan of `purge` and the head-only loop agree. */
  lemma {:induction false} FullScanIsHeadPurge(q: seq<Queued>, now: real)
    requires Sorted(q)
    ensures Live(q, now) == HeadPurge(q, now)
  {
    if q == [] {
    } else if q[0].deadline < now {
      FullScanIsHeadPurge(q[1..], now);
    } else {
      LiveOfAllLive(q, now);
    }
  }

  lemma {:induction false} LiveInOrder(q: seq<Queued>, now: real)
    requires InOrder(q, now)
    ensures InOrder(Live(q, now), now)
    ensures exists k :: 0 <= k <= |q| && Live(q, now) == q[k..]
  {
    FullScanIsHeadPurge(q, now);
    HeadPurgeIsSuffix(q, now);
  }

  lemma {:induction false} HeadPurgeIsSuffix(q: seq<Queued>, now: real)
    ensures exists k :: 0 <= k <= |q| && HeadPurge(q, now) == q[k..]
  {
    if q != [] && q[0].deadline < now {
      HeadPurgeIsSuffix(q[1..], now);
      var k :| 0 <= k <= |q[1..]| && HeadPurge(q[1..], now) == q[1..][k..];
      assert q[1..][k..] == q[k + 1..];
    } else {
      assert q == q[0..];
    }
  }

  lemma AppendedInOrder(q: seq<Queued>, pkt: Data, now: real)
    requires InOrder(q, now)
    ensures InOrder(Appended(q, pkt, now), now)
  {
    var q0 := if |q| == AODV_RTQ_MAX_LEN then q[1..] else q;
    assert InOrder(q0, now);
    var q1 := q0 + [Queued(pkt, now + AODV_RTQ_TIMEOUT)];
    assert forall i :: 0 <= i < |q1| ==> q1[i].deadline <= now + AODV_RTQ_TIMEOUT;
  }

  /** Enqueueing keeps the buffer in order: at most 64 packets, sorted deadlines. */
  lemma AppendInOrder(q: seq<Queued>, pkt: Data, now: real)
    requires InOrder(q, now)
    ensures InOrder(Appended(Live(q, now), pkt, now), now)
  {
    LiveInOrder(q, now);
    AppendedInOrder(Live(q, now), pkt, now);
  }

  lemma WithoutInOrder(q: seq<Queued>, k: nat, now: real)
    requires InOrder(q, now) && k < |q|
    ensures InOrder(Without(q, k), now)
  {
  }

  /** Time passing does not disturb the order. */
  lemma LaterInOrder(q: seq<Queued>, now: real, later: real)
    requires InOrder(q, now) && now <= later
    ensures InOrder(q, later)
  {
    forall i | 0 <= i < |q| ensures q[i].deadline <= later + AODV_RTQ_TIMEOUT {
      assert q[i].deadline <= now + AODV_RTQ_TIMEOUT;
    }
  }

  lemma {:induction false} NoneMatches(q: seq<Queued>, dst: Addr)
    requires forall j :: 0 <= j < |q| ==> q[j].pkt.dst != dst
    ensures PacketsFor(q, dst) == [] && PacketsNotFor(q, dst) == q
  {
    if q != [] {
      NoneMatches(q[1..], dst);
    }
  }

  lemma {:induction false} FirstMatch(q: seq<Queued>, k: nat, dst: Addr)
    requires k < |q| && q[k].pkt.dst == dst
    requires forall j :: 0 <= j < k ==> q[j].pkt.dst != dst
    ensures PacketsFor(q, dst) == [q[k].pkt] + PacketsFor(Without(q, k), dst)
    ensures PacketsNotFor(q, dst) == PacketsNotFor(Without(q, k), dst)
  {
    if k == 0 {
      assert Without(q, 0) == q[1..];
    } else {
      hide Without;
      FirstMatch(q[1..], k - 1, dst);
      WithoutTail(q, k);
    }
  }

  /** One dequeue takes the oldest packet for `dst` and nothing else. */
  lemma FirstForSplits(q: seq<Queued>, dst: Addr)
    ensures var k := FirstFor(q, dst);
            if k < |q|
            then PacketsFor(q, dst) == [q[k].pkt] + PacketsFor(Without(q, k), dst)
                 && PacketsNotFor(q, dst) == PacketsNotFor(Without(q, k), dst)
            else PacketsFor(q, dst) == [] && PacketsNotFor(q, dst) == q
  {
    if FirstFor(q, dst) < |q| {
      FirstMatch(q, FirstFor(q, dst), dst);
    } else {
      NoneMatches(q, dst);
    }
  }

  /* ---------- the linked list ---------- */

  class Packet {
    const data: Data
    var next: Packet?
    var ts: real

    constructor (data: Data)
      ensures this.data == data
    {
      this.data := data;
      next := null;
      ts := 0.0;
    }
  }

  class RQueue {
    var head: Packet?
    var tail: Packet?
    var len: int
    ghost var spine: seq<Packet>
    /** The abstract value: the buffered packets with their deadlines, head first. */
    ghost var contents: seq<Queued>
    /** Every packet object that was ever linked. */
    ghost var repr: set<Packet>
    /** History: the packets unlinked by `Purge`, which are neither dropped nor freed. */
    ghost var aged: seq<Data>

    ghost predicate Valid()
      reads this, repr
    {
      && |contents| == |spine|
      && (forall i :: 0 <= i < |spine| ==> spine[i] in repr)
      && (forall i :: 0 <= i < |spine| ==> contents[i] == Queued(spine[i].data, spine[i].ts))
      && len == |spine|
      && (forall i, j :: 0 <= i < j < |spine| ==> spine[i] != spine[j])
      && (forall i :: 0 <= i < |spine| - 1 ==> spine[i].next == spine[i + 1])
      && (spine != [] ==> spine[|spine| - 1].next == null)
      && head == (if spine == [] then null else spine[0])
      && tail == (if spine == [] then null else spine[|spine| - 1])
    }

    constructor ()
      ensures Valid() && contents == [] && aged == [] && repr == {}
    {
      head, tail, len := null, null, 0;
      spine, contents, repr, aged := [], [], {}, [];
    }

    /** `remove_head` */
    method RemoveHead() returns (p: Packet?)
      requires Valid()
      modifies this
      ensures Valid() && repr == old(repr) && aged == old(aged)
      ensures old(spine) == [] ==> p == null && spine == [] && contents == []
      ensures old(spine) != [] ==> p == old(spine[0]) && spine == old(spine[1..]) && contents == old(contents[1..])
    {
      p := head;
      if head == tail {
        head, tail := null, null;
      } else {
        head := head.next;
      }
      if p != null {
        len := len - 1;
        spine, contents := spine[1..], contents[1..];
      }
    }

    /** `findPacketWithDst`: the first packet for `dst` with its predecessor. */
    method FindPacketWithDst(dst: Addr) returns (p: Packet?, prev: Packet?, ghost k: nat)
      requires Valid()
      ensures k == FirstFor(contents, dst)
      ensures p == (if FirstFor(contents, dst) < |spine| then spine[FirstFor(contents, dst)] else null)
      ensures prev == (if FirstFor(contents, dst) == 0 then null else spine[FirstFor(contents, dst) - 1])
    {
      p, prev, k := head, null, 0;
      while p != null
        invariant k <= |spine|
        invariant p == (if k < |spine| then spine[k] else null)
        invariant prev == (if k == 0 then null else spine[k - 1])
        invariant forall j :: 0 <= j < k ==> contents[j].pkt.dst != dst
        decreases |spine| - k
      {
        if p.data.dst == dst {
          assert contents[k].pkt.dst == dst;
          return;
        }
        prev := p;
        p, k := p.next, k + 1;
      }
    }

    /** `findAgedPacket`: the first packet whose deadline has passed. */
    method FindAgedPacket(now: real) returns (found: bool, p: Packet?, prev: Packet?, ghost k: nat)
      requires Valid()
      ensures found <==> exists j :: 0 <= j < |spine| && contents[j].deadline < now
      ensures found ==> k < |spine| && p == spine[k] && contents[k].deadline < now
      ensures found ==> forall j :: 0 <= j < k ==> contents[j].deadline >= now
      ensures found ==> prev == (if k == 0 then null else spine[k - 1])
    {
      p, prev, k := head, null, 0;
      while p != null
        invariant k <= |spine|
        invariant p == (if k < |spine| then spine[k] else null)
        invariant prev == (if k == 0 then null else spine[k - 1])
        invariant forall j :: 0 <= j < k ==> contents[j].deadline >= now
        decreases |spine| - k
      {
        if p.ts < now {
          assert contents[k].deadline < now;
          return true, p, prev, k;
        }
        prev := p;
        p, k := p.next, k + 1;
      }
      return false, p, prev, k;
    }

    method UnlinkTail(p: Packet, prev: Packet, ghost k: nat)
      requires Valid() && 0 < k == |spine| - 1 && p == spine[k] && prev == spine[k - 1]
      modifies this, prev`next
      ensures Valid() && repr == old(repr) && aged == old(aged)
      ensures spine == Without(old(spine), k) && contents == Without(old(contents), k)
    {
      hide Without;
      WithoutAt(spine, k);
      WithoutAt(contents, k);
      prev.next := null;
      tail := prev;
      len := len - 1;
      spine, contents := Without(spine, k), Without(contents, k);
    }

    method UnlinkMiddle(p: Packet, prev: Packet, ghost k: nat)
      requires Valid() && 0 < k < |spine| - 1 && p == spine[k] && prev == spine[k - 1]
      modifies this, prev`next
      ensures Valid() && repr == old(repr) && aged == old(aged)
      ensures spine == Without(old(spine), k) && contents == Without(old(contents), k)
    {
      hide Without;
      WithoutAt(spine, k);
      WithoutAt(contents, k);
      prev.next := p.next;
      len := len - 1;
      spine, contents := Without(spine, k), Without(contents, k);
    }

    /** The unlinking shared by `deque` and `purge`: head, tail and middle removal. */
    method Unlink(p: Packet, prev: Packet?, ghost k: nat)
      requires Valid()
      requires k < |spine| && p == spine[k]
      requires prev == if k == 0 then null else spine[k - 1]
      modifies this, repr
      ensures Valid() && repr == old(repr) && aged == old(aged)
      ensures spine == Without(old(spine), k)
      ensures contents == Without(old(contents), k)
    {
      if p == head {
        var _ := RemoveHead();
      } else if p == tail {
        UnlinkTail(p, prev, k);
      } else {
        UnlinkMiddle(p, prev, k);
      }
    }

    /** One turn of `purge`: the packet at `k` ages out. */
    method UnlinkAged(p: Packet, prev: Packet?, ghost k: nat, now: real)
      requires Valid()
      requires k < |spine| && p == spine[k] && contents[k].deadline < now
      requires forall j :: 0 <= j < k ==> contents[j].deadline >= now
      requires prev == if k == 0 then null else spine[k - 1]
      modifies this, repr
      ensures Valid() && repr == old(repr) && |spine| == |old(spine)| - 1
      ensures Live(contents, now) == Live(old(contents), now)
      ensures aged + Aged(contents, now) == old(aged) + Aged(old(contents), now)
    {
      hide Without, Live, Aged;
      LiveSkipsAged(contents, k, now);
      Unlink(p, prev, k);
      aged := aged + [p.data];
    }

    /** Links `p` behind the tail. */
    method Append(p: Packet)
      requires Valid() && p !in repr && p.next == null
      modifies this, repr
      ensures Valid() && repr == old(repr) + {p} && aged == old(aged)
      ensures contents == old(contents) + [Queued(p.data, old(p.ts))]
    {
      if head == null {
        head, tail := p, p;
      } else {
        tail.next := p;
        tail := p;
      }
      len := len + 1;
      spine, contents, repr := spine + [p], contents + [Queued(p.data, p.ts)], repr + {p};
    }

    /** `purge` */
    method Purge(now: real)
      requires Valid()
      modifies this, repr
      ensures Valid() && repr == old(repr)
      ensures contents == Live(old(contents), now)
      ensures aged == old(aged) + Aged(old(contents), now)
    {
      var found, p, prev;
      ghost var k: nat;
      found, p, prev, k := FindAgedPacket(now);
      while found
        invariant Valid() && repr == old(repr)
        invariant Live(contents, now) == Live(old(contents), now)
        invariant aged + Aged(contents, now) == old(aged) + Aged(old(contents), now)
        invariant found <==> exists j :: 0 <= j < |spine| && contents[j].deadline < now
        invariant found ==> k < |spine| && p == spine[k] && contents[k].deadline < now
        invariant found ==> forall j :: 0 <= j < k ==> contents[j].deadline >= now
        invariant found ==> prev == (if k == 0 then null else spine[k - 1])
        decreases |spine|
      {
        assert p == null || (p == head && prev == null) || prev.next == p;
        UnlinkAged(p, prev, k, now);
        found, p, prev, k := FindAgedPacket(now);
      }
      LiveOfAllLive(contents, now);
    }

    /** `enque`; the evicted packet, if any, is returned to the caller for dropping. */
    method Enque(p: Packet, now: real) returns (victim: Option<Effect>)
      requires Valid() && p !in repr
      modifies this, repr, p
      ensures Valid() && repr == old(repr) + {p}
      ensures victim == Victim(Live(old(contents), now), now)
      ensures contents == Appended(Live(old(contents), now), p.data, now)
      ensures aged == old(aged) + Aged(old(contents), now)
    {
      Purge(now);
      p.next := null;
      p.ts := now + AODV_RTQ_TIMEOUT;
      victim := None;
      if len == AODV_RTQ_MAX_LEN {
        var p0 := RemoveHead();
        assert p0 != null;
        victim := Some(Drop(p0.data, if p0.ts > now then QueueFull else QueueTimeout));
      }
      Append(p);
    }

    /** `deque(dst)` */
    method DequeFor(dst: Addr, now: real) returns (p: Packet?)
      requires Valid()
      modifies this, repr
      ensures Valid() && repr == old(repr)
      ensures aged == old(aged) + Aged(old(contents), now)
      ensures var q := Live(old(contents), now);
              var k := FirstFor(q, dst);
              if k == |q| then p == null && contents == q
              else p != null && p.data == q[k].pkt && contents == Without(q, k)
    {
      Purge(now);
      var prev;
      ghost var k;
      p, prev, k := FindPacketWithDst(dst);
      assert p == null || (p == head && prev == null) || prev.next == p;
      if p != null {
        Unlink(p, prev, k);
      }
    }

    /** `deque()`: the oldest unexpired packet. */
    method Deque(now: real) returns (p: Packet?)
      requires Valid()
      modifies this, repr
      ensures Valid() && repr == old(repr) && aged == old(aged) + Aged(old(contents), now)
      ensures var q := Live(old(contents), now);
              if q == [] then p == null && contents == []
              else p != null && p.data == q[0].pkt && contents == q[1..]
    {
      Purge(now);
      p := RemoveHead();
    }

    /** `find` */
    method Find(dst: Addr) returns (found: bool)
      requires Valid()
      ensures found <==> exists i :: 0 <= i < |contents| && contents[i].pkt.dst == dst
    {
      var p, _, k := FindPacketWithDst(dst);
      found := p != null;
    }

    /** `verifyQueue`: its two assertions hold in every valid state. */
    method VerifyQueue() returns (ok: bool)
      requires Valid()
      ensures ok
    {
      var p: Packet?, prev: Packet?, cnt := head, null, 0;
      while p != null
        invariant 0 <= cnt <= |spine|
        invariant p == (if cnt < |spine| then spine[cnt] else null)
        invariant prev == (if cnt == 0 then null else spine[cnt - 1])
        decreases |spine| - cnt
      {
        cnt := cnt + 1;
        prev, p := p, p.next;
      }
      ok := cnt == len && prev == tail;
    }
  }
}
