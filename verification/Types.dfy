/** Constants, wire messages and value types shared by the whole model. */
module Types {

  /** An `nsaddr_t`. Nodes of a network of size N are 0 .. N-1. */
  type Addr = int

  /** `IP_BROADCAST` read as a signed address. */
  const BROADCAST: Addr := -1

  const INFINITY2: nat := 255
  const NETWORK_DIAMETER: nat := 30
  const RREQ_RETRIES: nat := 3
  const TTL_START: nat := 5
  const TTL_THRESHOLD: nat := 7
  const TTL_INCREMENT: nat := 2
  const MAX_HISTORY: nat := 3
  const AODV_RTQ_MAX_LEN: nat := 64

  const AODV_RTQ_TIMEOUT := 30.0
  const MAX_RREQ_TIMEOUT := 10.0
  const MY_ROUTE_TIMEOUT := 10.0
  const ACTIVE_ROUTE_TIMEOUT := 10.0
  const REV_ROUTE_LIFE := 6.0
  const BCAST_ID_SAVE := 6.0
  const NODE_TRAVERSAL_TIME := 0.03

  datatype Option<+T> = None | Some(value: T)

  function Max(a: nat, b: nat): nat { if a > b then a else b }

  function MaxReal(a: real, b: real): real { if a > b then a else b }

  /** A `u_int8_t` field and an assignment to it. */
  type Octet = n: nat | n < 256
  function Byte(n: nat): Octet { n % 256 }

  /** The cast `(u_int32_t)x` of a non-negative double. */
  function Whole(x: real): real { x.Floor as real }

  predicate Even(n: nat) { n % 2 == 0 }

  /** The sequence numbers of routes in use, and those of routes that are down. */
  predicate LiveNumber(n: nat) { Even(n) && n >= 2 }
  predicate DeadNumber(n: nat) { n == 0 || !Even(n) }

  /** One destination of a route error, with its sequence number. */
  datatype Lost = Lost(dst: Addr, seqno: nat)

  /** AODV control packets. `from` is the IP source of a request or an error and `rp_src` of a
      reply: in all three the node the packet was last transmitted by. `to` is the IP destination
      of a reply, the originator of the request it answers. */
  datatype Request = Request(from: Addr, ttl: int, hops: Octet, bid: nat, dst: Addr, dstSeqno: nat,
                             src: Addr, srcSeqno: nat, stamp: real)
  datatype Reply = Reply(from: Addr, ttl: int, hops: Octet, to: Addr, dst: Addr, dstSeqno: nat,
                         lifetime: real, stamp: real)
  datatype RouteError = RouteError(from: Addr, lost: seq<Lost>)
  datatype Message = Rreq(rq: Request) | Rrep(rp: Reply) | Rerr(re: RouteError)

  /** A data packet. `up` is the direction flag, `forwards` the number of hops travelled. */
  datatype Data = Data(uid: nat, src: Addr, dst: Addr, ttl: int, forwards: int, up: bool)

  datatype Reason = NoRoute | RouteLoop | TtlExpired | QueueFull | QueueTimeout | MacCallback

  /** What a handler run does to the outside world. A `next` of `BROADCAST` is a link broadcast. */
  datatype Effect =
    | Transmit(next: Addr, msg: Message)
    | Discard(msg: Message, reason: Reason)
    | Forward(next: Addr, pkt: Data)
    | Deliver(pkt: Data)
    | Drop(pkt: Data, reason: Reason)

  /** A buffered data packet with the time stamp `ts_` after which it has aged out. */
  datatype Queued = Queued(pkt: Data, deadline: real)

  /** An entry of the broadcast-id cache. */
  datatype CacheEntry = CacheEntry(src: Addr, bid: nat, expire: real)
}
