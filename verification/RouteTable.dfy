/** The routing table: what the agent does to one entry, as functions on route values, and the
    linked list of mutable entries that carries them. */
module RouteTable {
  import opened Types

  /* ---------- route values ---------- */

  datatype RouteFlag = Down | Up | InRepair

  /** The last three discovery latencies and the slot to overwrite next. */
  datatype HistoryRecord = History(slots: seq<real>, next: nat)
  type History = h: HistoryRecord | |h.slots| == MAX_HISTORY && h.next < MAX_HISTORY
    witness History([0.0, 0.0, 0.0], 0)

  datatype Route = Route(
    seqno: nat, hops: nat, flag: RouteFlag, nexthop: Addr, expire: real,
    lastHops: nat, precursors: seq<Addr>,
    reqTimeout: real, reqCnt: nat, reqLastTtl: nat, history: History)

  /** What the entry constructor sets. */
  const FRESH_ROUTE: Route :=
    Route(0, INFINITY2, Down, 0, 0.0, INFINITY2, [], 0.0, 0, 0, History([0.0, 0.0, 0.0], 0))

  /** A route the code may hand out or forward along: "hops is not infinity". */
  predicate Usable(r: Route) { r.hops != INFINITY2 }

  /** The freshness order: a larger sequence number, or the same one and no more hops. */
  predicate AtLeast(r: Route, seqno: nat, hops: nat) {
    r.seqno > seqno || (r.seqno == seqno && r.hops <= hops)
  }

  /** The acceptance test of `recvRequest` and `recvReply`. */
  predicate Better(seqno: nat, hops: nat, r: Route) {
    seqno > r.seqno || (seqno == r.seqno && hops < r.hops)
  }

  /** `rt_update` */
  function Updated(r: Route, seqno: nat, hops: nat, nexthop: Addr, expire: real): Route {
    r.(seqno := seqno, hops := hops, flag := Up, nexthop := nexthop, expire := expire)
  }

  /** `rt_down` */
  function Downed(r: Route): Route {
    if r.flag == Down then r
    else r.(lastHops := r.hops, hops := INFINITY2, flag := Down, nexthop := 0, expire := 0.0)
  }

  /** `pc_insert` */
  function WithPrecursor(pcs: seq<Addr>, id: Addr): seq<Addr> {
    if id in pcs then pcs else [id] + pcs
  }

  /** `pc_delete(id)`: the first match is unlinked. */
  function WithoutFirst(pcs: seq<Addr>, id: Addr): seq<Addr> {
    if pcs == [] then []
    else if pcs[0] == id then pcs[1..]
    else [pcs[0]] + WithoutFirst(pcs[1..], id)
  }

  predicate NoDuplicates<T(==)>(s: seq<T>) {
    forall i, j :: 0 <= i < j < |s| ==> s[i] != s[j]
  }

  /** Sum and number of the positive values in a list of latencies. */
  function PositiveSum(s: seq<real>): (sum: real)
    ensures sum >= 0.0
    ensures PositiveCount(s) > 0 ==> sum > 0.0
  {
    if s == [] then 0.0
    else PositiveSum(s[..|s| - 1]) + if s[|s| - 1] > 0.0 then s[|s| - 1] else 0.0
  }

  function PositiveCount(s: seq<real>): nat {
    if s == [] then 0 else PositiveCount(s[..|s| - 1]) + if s[|s| - 1] > 0.0 then 1 else 0
  }

  /** `PerHopTime`: never zero, whatever the recorded latencies are. */
  function PerHopTime(h: History): (t: real)
    ensures t > 0.0
  {
    if PositiveCount(h.slots) > 0
    then PositiveSum(h.slots) / PositiveCount(h.slots) as real
    else NODE_TRAVERSAL_TIME
  }

  function Recorded(h: History, latency: real): History {
    History(h.slots[h.next := latency], (h.next + 1) % MAX_HISTORY)
  }

  /** What `handle_link_failure(id)` does to one entry. */
  predicate RoutedVia(r: Route, id: Addr) { Usable(r) && r.nexthop == id }

  function AfterLinkFailure(r: Route, id: Addr): Route {
    var r1 := if RoutedVia(r, id) then Downed(r.(seqno := r.seqno + 1)) else r;
    r1.(precursors := WithoutFirst(r1.precursors, id))
  }

  lemma PrependKeepsDistinct<T>(s: seq<T>, x: T)
    requires NoDuplicates(s) && x !in s
    ensures NoDuplicates([x] + s)
    ensures forall y :: y in [x] + s <==> y == x || y in s
  {
  }

  lemma {:induction false} WithPrecursorKeepsDistinct(pcs: seq<Addr>, id: Addr)
    requires NoDuplicates(pcs)
    ensures NoDuplicates(WithPrecursor(pcs, id))
    ensures forall x :: x in WithPrecursor(pcs, id) <==> x == id || x in pcs
  {
  }

  /** In a duplicate-free list, unlinking the first match removes the id completely. */
  lemma {:induction false} WithoutFirstRemoves(pcs: seq<Addr>, id: Addr)
    requires NoDuplicates(pcs)
    ensures NoDuplicates(WithoutFirst(pcs, id))
    ensures forall x :: x in WithoutFirst(pcs, id) <==> x != id && x in pcs
  {
    if pcs != [] {
      WithoutFirstRemoves(pcs[1..], id);
      assert forall x :: x in pcs <==> x == pcs[0] || x in pcs[1..];
      if pcs[0] != id {
        PrependKeepsDistinct(WithoutFirst(pcs[1..], id), pcs[0]);
      }
    }
  }

  /* ---------- the linked list of entries ---------- */

  class RtEntry {
    const dst: Addr
    var next: RtEntry?
    var seqno: nat
    var hops: nat
    var flag: RouteFlag
    var nexthop: Addr
    var expire: real
    var lastHops: nat
    var pclist: seq<Addr>
    var reqTimeout: real
    var reqCnt: nat
    var reqLastTtl: nat
    var history: History

    ghost function Value(): Route
      reads this
    {
      Route(seqno, hops, flag, nexthop, expire, lastHops, pclist, reqTimeout, reqCnt, reqLastTtl, history)
    }

    constructor (dst: Addr)
      ensures Value() == FRESH_ROUTE && this.dst == dst
    {
      this.dst := dst;
      next := null;
      reqTimeout, reqCnt, reqLastTtl := 0.0, 0, 0;
      seqno, hops, lastHops := 0, INFINITY2, INFINITY2;
      nexthop, pclist, expire, flag := 0, [], 0.0, Down;
      history := History([0.0, 0.0, 0.0], 0);
    }

    /** `AODV::rt_update` */
    method Update(seqno: nat, hops: nat, nexthop: Addr, expire: real)
      modifies this`seqno, this`hops, this`flag, this`nexthop, this`expire
      ensures Value() == Updated(old(Value()), seqno, hops, nexthop, expire)
    {
      this.seqno := seqno;
      this.hops := hops;
      flag := Up;
      this.nexthop := nexthop;
      this.expire := expire;
    }

    /** `AODV::rt_down`, after the caller's assignment to the sequence number. */
    method TakeDown(seqno: nat)
      modifies this`seqno, this`lastHops, this`hops, this`flag, this`nexthop, this`expire
      ensures Value() == Downed(old(Value()).(seqno := seqno))
    {
      this.seqno := seqno;
      if flag == Down {
        return;
      }
      lastHops := hops;
      hops := INFINITY2;
      flag := Down;
      nexthop := 0;
      expire := 0.0;
    }

    method ResetRequests(hops: nat, expire: real)
      modifies this`reqCnt, this`reqTimeout, this`reqLastTtl, this`expire
      ensures Value() == old(Value()).(reqCnt := 0, reqTimeout := 0.0, reqLastTtl := hops, expire := expire)
    {
      reqCnt := 0;
      reqTimeout := 0.0;
      reqLastTtl := hops;
      this.expire := expire;
    }

    method PcLookup(id: Addr) returns (found: bool)
      ensures found <==> id in pclist
    {
      var k := 0;
      while k < |pclist|
        invariant 0 <= k <= |pclist|
        invariant id !in pclist[..k]
      {
        if pclist[k] == id {
          return true;
        }
        k := k + 1;
      }
      found := false;
    }

    method PcInsert(id: Addr)
      modifies this`pclist
      ensures pclist == WithPrecursor(old(pclist), id)
    {
      var found := PcLookup(id);
      if !found {
        pclist := [id] + pclist;
      }
    }

    method PcDelete(id: Addr)
      modifies this`pclist
      ensures pclist == WithoutFirst(old(pclist), id)
    {
      var k := 0;
      while k < |pclist|
        invariant 0 <= k <= |pclist| && pclist == old(pclist)
        invariant WithoutFirst(pclist, id) == pclist[..k] + WithoutFirst(pclist[k..], id)
      {
        if pclist[k] == id {
          pclist := pclist[..k] + pclist[k + 1..];
          return;
        }
        k := k + 1;
      }
    }

    method PcDeleteAll()
      modifies this`pclist
      ensures pclist == []
    {
      while pclist != []
        decreases |pclist|
      {
        pclist := pclist[1..];
      }
    }

    /** `AODV::PerHopTime` for an entry that exists. */
    method HopTime() returns (t: real)
      ensures t == PerHopTime(history)
    {
      var count: nat, total := 0, 0.0;
      var i := 0;
      while i < MAX_HISTORY
        invariant 0 <= i <= MAX_HISTORY
        invariant count == PositiveCount(history.slots[..i])
        invariant total == PositiveSum(history.slots[..i])
      {
        assert history.slots[..i + 1][..i] == history.slots[..i];
        if history.slots[i] > 0.0 {
          count := count + 1;
          total := total + history.slots[i];
        }
        i := i + 1;
      }
      assert history.slots[..i] == history.slots;
      if count > 0 {
        t := total / count as real;
      } else {
        t := NODE_TRAVERSAL_TIME;
      }
    }
  }

  class RTable {
    var head: RtEntry?
    ghost var spine: seq<RtEntry>
    ghost var repr: set<RtEntry>
    /** The abstract value: destinations in list order and their routes. */
    ghost var order: seq<Addr>
    ghost var routes: map<Addr, Route>

    ghost predicate Linked()
      reads this, repr
    {
      && (forall i :: 0 <= i < |spine| ==> spine[i] in repr)
      && head == (if spine == [] then null else spine[0])
      && (forall i :: 0 <= i < |spine| - 1 ==> spine[i].next == spine[i + 1])
      && (spine != [] ==> spine[|spine| - 1].next == null)
    }

    /** Destinations are unique, and the entries, `open` excepted, hold the recorded routes. */
    ghost predicate ValidBut(open: RtEntry?)
      reads this, repr
    {
      && Linked()
      && |order| == |spine|
      && (forall i :: 0 <= i < |spine| ==> order[i] == spine[i].dst)
      && NoDuplicates(order)
      && (forall d :: d in routes <==> d in order)
      && (forall i :: 0 <= i < |spine| && spine[i] != open ==> routes[order[i]] == spine[i].Value())
    }

    ghost predicate Valid()
      reads this, repr
    {
      ValidBut(null)
    }

    constructor ()
      ensures Valid() && order == [] && routes == map[] && repr == {}
    {
      head := null;
      spine, repr, order, routes := [], {}, [], map[];
    }

    /** `rt_lookup` */
    method Lookup(id: Addr) returns (rt: RtEntry?)
      requires Valid()
      ensures rt == null <==> id !in routes
      ensures rt != null ==> rt in repr && rt in spine && rt.dst == id && rt.Value() == routes[id]
    {
      rt := head;
      ghost var k := 0;
      while rt != null
        invariant 0 <= k <= |spine|
        invariant rt == (if k < |spine| then spine[k] else null)
        invariant id !in order[..k]
        decreases |spine| - k
      {
        if rt.dst == id {
          return;
        }
        rt, k := rt.next, k + 1;
      }
    }

    /** `rt_add` */
    method Add(id: Addr) returns (rt: RtEntry)
      requires Valid() && id !in routes
      modifies this
      ensures Valid() && fresh(rt) && repr == old(repr) + {rt}
      ensures spine == [rt] + old(spine) && order == [id] + old(order)
      ensures rt.dst == id && rt.Value() == FRESH_ROUTE && routes == old(routes)[id := FRESH_ROUTE]
    {
      var present := Lookup(id);
      assert present == null;
      rt := new RtEntry(id);
      rt.next := head;
      InsertHead(rt);
    }

    /** `LIST_INSERT_HEAD` for an entry that already points at the old head. */
    method InsertHead(rt: RtEntry)
      requires Valid() && rt !in repr && rt.next == head && rt.dst !in routes
      modifies this
      ensures Valid() && repr == old(repr) + {rt}
      ensures spine == [rt] + old(spine) && order == [rt.dst] + old(order)
      ensures routes == old(routes)[rt.dst := rt.Value()]
    {
      PrependKeepsDistinct(order, rt.dst);
      head := rt;
      spine, repr := [rt] + spine, repr + {rt};
      order, routes := [rt.dst] + order, routes[rt.dst := rt.Value()];
    }

    lemma EntryOf(rt: RtEntry)
      requires Valid() && rt in spine
      ensures rt in repr && rt.dst in routes && routes[rt.dst] == rt.Value()
    {
      var k :| 0 <= k < |spine| && spine[k] == rt;
      assert order[k] == rt.dst;
    }

    /** Where a traversal of the list stands after `k` entries. */
    ghost function At(k: nat): RtEntry?
      reads this
    {
      if k < |spine| then spine[k] else null
    }

    lemma Traverse(k: nat)
      requires Valid()
      ensures At(0) == head && |order| == |spine| && NoDuplicates(order)
      ensures forall d :: d in routes <==> d in order
      ensures k < |spine| ==> spine[k] in spine && order[k] == spine[k].dst && spine[k].next == At(k + 1)
    {
    }

    /** Records that the fields of `rt`, and of no other entry, were assigned. */
    ghost method Commit(rt: RtEntry)
      requires ValidBut(rt) && rt in spine
      modifies this`routes
      ensures Valid() && routes == old(routes)[rt.dst := rt.Value()]
    {
      ghost var k :| 0 <= k < |spine| && spine[k] == rt;
      assert forall i :: 0 <= i < |spine| && i != k ==> order[i] != order[k];
      routes := routes[rt.dst := rt.Value()];
    }
  }
}
