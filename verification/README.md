# A verified model of the AODV routing agent

The `aodv_src` directory holds an ns-2 agent for AODV, the on-demand distance-vector routing
protocol (compare sections 6.1 to 6.7 and 6.11 of RFC 3561; the code follows an earlier draft).
Each node keeps a routing table, a cache of broadcast ids and a buffer of data packets. Nodes
exchange route requests (RREQ), route replies (RREP) and route errors (RERR) over a network that may
delay, reorder, repeat and lose them.

The project models that agent in two connected layers and proves what the protocol is for: routes
never loop.

- **One agent.** `SendBuffer.RQueue` and `RouteTable.RTable` are the pointer-linked buffer and table;
  `Agent.Aodv` is the agent, with one method for each handler, assigning fields in place. Every
  method is proved to compute a function on the node's state (`Handlers`), and `Agent.Aodv.React`
  says so of whatever can happen to the agent. An `assert` of the source about routes, flags or
  numbers is evaluated, not assumed: a false one sets the field `failed`. Those about pointers and
  list links (`aodv_src/aodv.cc:1022`, `1212`, `aodv_src/aodv_rtable.cc:180`,
  `aodv_src/aodv_rqueue.cc:36`, `80`, `151-152`, `185`) are proved in the linked classes.
- **The network.** `Network.Net` is a sequence of N nodes, the messages in flight and a clock. An
  action is one handler run at one node (`Handlers.Handle`) or the loss of a message. Delivery leaves
  a message in flight, so it can arrive late, out of order, repeatedly or never; a broadcast can
  reach any node, a unicast its next hop.

How the proofs fit together. `LocalSteps.Legal` states what one handler run can do to the routes of
its node and which messages it may send; every handler satisfies it in every state an agent can be
in (`LocalSteps.HandleLegal`), one step of the repair timer excepted, whose effect
`Baseline.SpoilingRepair` gives exactly. Four network invariants rest on it, each on the one before.

- `Network.BaseInv` holds on every run (`Baseline.RunBase`): bounds on all sequence numbers by the
  destination's own, on time to live plus hop count, and on the numbers of answers by the numbers
  asked for. With it the results on sequence numbers, request floods, error cascades, the freshness of
  answers and bounded discovery hold of every run.
- `Network.ParityInv` adds the parity discipline. It holds on *steady* runs (`Parity.SteadyParity`):
  those in which no repair timer takes down a route at a live number. With it come the freshness order
  of every step, strict invalidation, the single relay of replies and the acceptance of answers.
- `Network.OrderInv` adds that the next hop of a route in use is the destination or strictly fresher
  (larger sequence number, or the same and fewer hops), and the sender of every message in flight
  likewise. It holds on *calm* runs in which nobody accepts a reply with a *wrapped* hop count
  (`Order.OrderlyRun`). Loop freedom and the assertions follow from it.
- `Network.Inv` adds that a hop count of h is backed by h nodes at least that fresh. It bounds hop
  counts, and shows that in *sized* networks no reply wraps (`Runs.SizedLosesNoReply`).

None of the first three bounds the number of nodes. Beside them the modules `DataEffects`,
`FailureEffects`, `RequestEffects`, `ReplyEffects` and `PurgeEffects` say of each thing that can happen
to an agent, in closed form and without the functions in `Handlers`, what its state is afterwards and
what it has sent. The conditions on runs are these.

- *Steady and calm runs.* A local repair that fails takes a route in use down without raising its
  sequence number (`aodv_src/aodv.cc:158-166`). With that step loop freedom is false of the code:
  `RepairLoop.FailedRepairCanLoop` is a run of four nodes in a chain, from the initial state, in
  which every message and packet comes from a neighbour and every timer that fires is due, and which
  ends with two nodes forwarding to each other. `Freshness.StepKeepsFreshnessIff` says that these are
  exactly the steps that disturb the freshness order; a calm run has none. A steady run has none
  either, and no timer that takes down a dead route at a live number. Starting a repair is part of
  both. In a build without `AODV_LOCAL_REPAIR` every run is calm and steady
  (`Parity.WithoutRepairIsSteady`).
- *Wrapped replies.* Hop counts are 8-bit fields and 255 means "no route". `Handlers.LosingReply` is
  the branch in which a node accepts a reply that carries it (`aodv_src/aodv.cc:844-853`).
- *Sized networks* never reach that branch: those of up to 224 nodes without further assumptions, and
  of up to 254 if a cache never forgets a request that is still in flight (`Network.Sized`).

Where comments and code differ, the model follows the code: `MY_ROUTE_TIMEOUT`,
`ACTIVE_ROUTE_TIMEOUT`, `REV_ROUTE_LIFE` and `BCAST_ID_SAVE` have the values of the definitions, not
of the comments beside them (`aodv_src/aodv.h:49-52`); `RREQ_RETRIES` is described as the number of
network-wide searches but one more is made (`aodv_src/aodv.h:54-56`, `Discovery.DiscoveryBounded`);
the branch commented as the first request, with `TTL_START`, is never taken
(`aodv_src/aodv.cc:1081-1083`, `Discovery.RequestStateBounded`); and `purge` unlinks packets without
the drop that its commented-out predecessor made (`aodv_src/aodv_rqueue.cc:155-206`).

## Model

| member | source | states |
|---|---|---|
| Runs.LoopFreedom | aodv_src/aodv.cc:660-684 | in networks of any size, on every calm run in which nobody accepts a wrapped reply, a chain of next hops for any destination visits no node twice |
| Runs.LoopFreedomWhenSized | aodv_src/aodv.cc:660-684 | in sized networks the same on every calm run |
| Runs.SizedLosesNoReply | aodv_src/aodv.cc:816-853 | in sized networks nobody ever accepts a reply with a wrapped hop count on a calm run |
| Runs.RoutesEnd | aodv_src/aodv.cc:816-827 | on the runs of LoopFreedom, following valid routes for N hops from any node ends at the destination or where there is no valid route |
| Runs.FresherDownstream | aodv_src/aodv.cc:668-674 | along a route the entries get strictly fresher until the destination is reached |
| Runs.HopsBounded | aodv_src/aodv_rtable.h:13-18 | with patient caches no route in use has more than N hops and no message carries more than N + 1 |
| Runs.HopsBoundedAnyCache | aodv_src/aodv.cc:770-777 | whatever the caches forget, no route in use is longer than N plus the network diameter |
| Parity.ParityDiscipline | aodv_src/aodv.cc:719-721 | on every steady run, of any size, routes up or usable, replies and request sources carry even numbers from 2 on, routes down and errors 0 or odd ones |
| Runs.ParityByHops | aodv_src/aodv.cc:349-375 | on the runs of LoopFreedom the hop count decides the parity of a route as well, and routes that are up are usable |
| Parity.InvalidationIsStrict | aodv_src/aodv.cc:903-914 | on every steady run an action that takes down a route that was up or usable leaves it at a strictly larger, odd number |
| Parity.SteadyParity | aodv_src/aodv.cc:507-616 | the parity discipline holds of all tables and messages in every state of a steady run |
| Parity.NextParity | aodv_src/aodv.cc:507-616 | every action keeps it, unless a repair timer takes down a route at a live number |
| Parity.WithoutRepairIsSteady | aodv_src/aodv.cc:271-281 | without AODV_LOCAL_REPAIR every run is steady and calm |
| Baseline.RunBase | aodv_src/aodv.cc:507-616 | the bounds on numbers, time to live and answers hold in every state of every run, failed repairs included |
| Baseline.NextBase | aodv_src/aodv.cc:507-616 | every action keeps those bounds |
| Baseline.SpoilingRepair | aodv_src/aodv.cc:149-173 | a repair timer that takes down a route changes that one route, keeps its number and sends nothing |
| Runs.NobodyOutrunsDestination | aodv_src/aodv.cc:717-721 | on every run no table and no message is ahead of the destination's own number by more than 1, routes in use and replies not at all |
| Order.OrderlyRun | aodv_src/aodv.cc:507-616 | next hops and senders are ahead in every state of a calm run, of any size, in which nobody accepts a wrapped reply |
| Order.NextOrder | aodv_src/aodv.cc:507-616 | every action keeps that, failed repairs and accepted wrapped replies excepted |
| Order.OrderlyIsSteady | aodv_src/aodv.cc:149-173 | those runs are steady, so that what holds of steady runs holds of them |
| Order.LegalKeepsOrder | aodv_src/aodv.cc:581-616 | so does a handler run that meets the local contract, for every node and message |
| Order.RouteOrderAtActor | aodv_src/aodv.cc:816-822 | a route that a handler run leaves usable has a next hop that is the destination or strictly fresher |
| Order.NewFlightOrder | aodv_src/aodv.cc:770-777 | a message sent comes from a node at least as fresh as it says, and a relayed reply from one that joins its trail |
| Order.RelayedReplyOrder | aodv_src/aodv.cc:868-879 | a reply passed on gains exactly one hop and comes from a node that just became as fresh as it says |
| Runs.CalmRunInv | aodv_src/aodv.cc:507-616 | in sized networks the counting invariant holds in every state of a calm run |
| Runs.NextInv | aodv_src/aodv.cc:507-616 | every action but a failed repair keeps it |
| Invariant.LegalKeepsInv | aodv_src/aodv.cc:581-616 | a handler run that meets the local contract keeps it for every node and message |
| Invariant.InstalledFromReply | aodv_src/aodv.cc:816-822 | the hop count of a route taken from a reply is backed by one node more, the one that takes it |
| Invariant.InstalledFromRequest | aodv_src/aodv.cc:668-674 | so is the hop count of a route taken from a request |
| Invariant.RelayedRequestCount | aodv_src/aodv.cc:770-777 | a rebroadcast request is backed by one node more among those that remember it |
| Invariant.NewFlightCount | aodv_src/aodv.cc:735-777 | the hop count of every message sent is backed |
| Invariant.AcceptedReplyFits | aodv_src/aodv.cc:816-822 | in a good state an accepted reply never carries the hop count that means no route |
| Checks.AssertionsHold | aodv_src/aodv.cc:296-307 | in networks of any size, on every run without local repair in which nobody accepts a wrapped reply, no assertion of any agent ever fails |
| Checks.AssertionsHoldWhenSized | aodv_src/aodv.cc:296-307 | in sized networks the same on every run without local repair |
| Checks.HandleSafe | aodv_src/aodv.cc:949-986 | one handler run of such an agent violates none of the assertions on its way |
| Checks.LoopFreedomWithoutRepair | aodv_src/aodv.cc:271-281 | without AODV_LOCAL_REPAIR loop freedom needs no exclusion of failed repairs |
| Freshness.EveryStepKeepsFreshness | aodv_src/aodv.cc:349-375 | every action of a steady run, of any size, moves every entry of every node up in the freshness order or leaves it equal |
| Freshness.StepKeepsFreshnessIff | aodv_src/aodv.cc:149-173 | under the parity discipline an action disturbs that order at a node if and only if a local repair fails there |
| Freshness.RepairTimerKeepsFreshnessIff | aodv_src/aodv.cc:149-173 | the repair timer keeps the order if and only if it does not find a usable route under repair |
| Freshness.SeqnosNeverDecrease | aodv_src/aodv.cc:158-166 | in any state and for any input, failed repairs included, entries stay and their sequence numbers never decrease |
| RepairLoop.FailedRepairCanLoop | aodv_src/aodv.cc:149-173 | a run of four nodes in a chain, each action caused by what went before, in which a failed repair leaves two nodes forwarding to each other |
| Floods.RelayedAtMostOnce | aodv_src/aodv.cc:816-864 | on a whole steady run, of any size, a node passes on any one reply (destination, number, hops) at most once, however many copies arrive |
| Floods.RelaysGetShorter | aodv_src/aodv.cc:816-864 | on steady runs successive replies of one number for one destination that a node passes on come in with strictly fewer hops |
| Floods.ReplyRelayedOnce | aodv_src/aodv.cc:862-879 | on the runs of LoopFreedom a node passes on a reply only if this copy has not been through it before, and adds exactly one hop |
| Floods.LaterCopySuppressed | aodv_src/aodv.cc:854-864 | on steady runs, once a node holds what a reply offers, later copies with as many hops or more change nothing and are not passed on |
| Floods.FreshForever | aodv_src/aodv.cc:816-822 | freshness once reached is kept for the rest of a steady run, of any size |
| Floods.FloodBounded | aodv_src/aodv.cc:637-651 | on every run, while caches remember a request, all nodes together answer or rebroadcast it at most N times |
| Floods.HandlingRemovesOne | aodv_src/aodv.cc:637-651 | a node that handles a request is no longer among those that would handle it, and no node joins them |
| Floods.UnhandledIsIgnored | aodv_src/aodv.cc:629-645 | a request that is one's own or cached changes nothing and makes nobody send |
| Floods.HandledIsCached | aodv_src/aodv.cc:179-197 | a request that is handled is found in the cache afterwards |
| Floods.RebroadcastSpendsTtl | aodv_src/aodv.cc:517-522 | on every run a rebroadcast lowers the time to live, keeps its sum with the hop count, and stays within the diameter |
| ErrorCascade.CascadeBounded | aodv_src/aodv.cc:898-943 | on every run the errors passed on in a stretch are at most the routes in use at its start plus the routes installed during it |
| ErrorCascade.CascadeStep | aodv_src/aodv.cc:932-940 | passing on an error costs a route in use, and one action installs at most one |
| ErrorCascade.ErrorScanReports | aodv_src/aodv.cc:900-930 | an error passed on names each destination once, only from the incoming list, only routes via its sender that are now down, at numbers not below those held |
| ErrorCascade.ErrorScanRaises | aodv_src/aodv.cc:903-914 | under the parity discipline those numbers are strictly larger than the ones held before |
| ErrorCascade.ErrorScanComplete | aodv_src/aodv.cc:900-930 | exactly the matching routes go down, and each that has a precursor is reported |
| ErrorCascade.RelayRecordsPrecursor | aodv_src/aodv.cc:877-879 | the neighbour a reply was passed to is a precursor of its destination |
| ErrorCascade.AnswerRecordsPrecursors | aodv_src/aodv.cc:745-748 | an answer from the table makes the two next hops precursors of each other's destination |
| ErrorCascade.LinkFailureExact | aodv_src/aodv.cc:296-331 | no route via the lost neighbour remains, it is in no precursor list, other routes are unchanged, and the error lists exactly the broken ones once, raised by one |
| ErrorCascade.LostViaDistinct | aodv_src/aodv.cc:301-316 | the list of a link failure names no destination twice and is no longer than the table |
| Discovery.AnswersAreFresh | aodv_src/aodv.cc:719-744 | on every run each request and reply in flight has a number at least that of the originator's entry when it asked and of the entry of every node that passed the request on |
| Discovery.RelaysCollect | aodv_src/aodv.cc:770-777 | on every run a copy passed on is tagged with the larger of the tag heard and the number in the passing node's entry; answers keep the tag |
| Discovery.RequestCarriesEntry | aodv_src/aodv.cc:1185-1194 | on every run a new request carries the number of the entry it is made for, and is in flight with it as the number asked for |
| Discovery.FirstAnswerAccepted | aodv_src/aodv.cc:816-853 | on every steady run, of any size, an originator whose entry is down and unchanged accepts the answer, has no packet left waiting, and no purge takes the route down before it expires; it is usable unless the hop count wrapped |
| Discovery.FirstAnswerUsable | aodv_src/aodv.cc:816-853 | on the runs of LoopFreedom so does one whose entry is merely unusable, and the route is usable |
| Discovery.AnswerTaken | aodv_src/aodv.cc:816-853 | in any state an answer better than the entry is taken, via its sender, for its lifetime counted from now or ACTIVE_ROUTE_TIMEOUT if a packet left at once, and the buffer is emptied for it |
| Discovery.DiscoveryBounded | aodv_src/aodv.cc:1036-1093 | on every run, until a node learns a route or gives up, it sends at most 3 ring requests and RREQ_RETRIES + 1 network-wide ones for a destination |
| Discovery.GiveUpEmpties | aodv_src/aodv.cc:1052-1061 | on every run giving up sends nothing, starts the long timeout and leaves no packet for the destination |
| Discovery.RequestTimeout | aodv_src/aodv.cc:1116-1124 | on every run each request waits for the timeout of the one before and leaves one after now, at most MAX_RREQ_TIMEOUT away |
| Discovery.RequestStateBounded | aodv_src/aodv.cc:1081-1093 | on every run the request count is at most RREQ_RETRIES + 1; on the runs of LoopFreedom the TTL_START branch is not reached |
| Requests.HandleRequests | aodv_src/aodv.cc:1036-1124 | every handler run either takes a route from a message, keeps the request state and sends no request, sends exactly one with the next time to live, or gives up |
| Requests.SendRequestStep | aodv_src/aodv.cc:1014-1198 | what sendRequest does to the request state of its destination, and what it sends |
| Requests.PurgeAllStep | aodv_src/aodv.cc:458-500 | the route purge asks at most once for each destination |
| FailureEffects.LinkFailureCloses | aodv_src/aodv.cc:247-331 | a link failure without repair drops the packet, raises the own number by 2, takes exactly the routes via the neighbour down by one, removes it from all precursor lists, and broadcasts one error that lists exactly those routes, if any |
| FailureEffects.NothingViaLostNeighbor | aodv_src/aodv.cc:296-331 | after it no route goes through the lost neighbour and it is nobody's precursor |
| FailureEffects.LinkFailureOnRun | aodv_src/aodv.cc:1357-1373 | on every run the same of the node it happens to, with the error in flight to all and no other node affected |
| FailureEffects.FailedBroadcastDropped | aodv_src/aodv.cc:256-265 | a failed broadcast, or a packet without an entry, is dropped and that is all |
| FailureEffects.RepairStarts | aodv_src/aodv.cc:271-280 | if a repair is due the packet waits, the route is under repair at the same number, hops and next hop, and the agent asks |
| FailureEffects.ErrorCloses | aodv_src/aodv.cc:890-943 | an error takes down exactly the routes via its sender that it names, at the number of the first such entry, and is passed on as one broadcast naming exactly those that had precursors, or not at all |
| FailureEffects.PassedOnIff | aodv_src/aodv.cc:908-927 | a destination is passed on if and only if its route broke and had a precursor |
| FailureEffects.RepairTimerCloses | aodv_src/aodv.cc:149-173 | a repair timer takes down a route under repair at the number it has and does nothing else |
| DataEffects.UpForwards | aodv_src/aodv.cc:408-412 | along a route that is up a packet is sent to the next hop at once, whoever it comes from, or delivered if it is for this node |
| DataEffects.OwnPacketWaits | aodv_src/aodv.cc:421-424 | an own packet without a route is buffered, and the agent asks, waits or gives up |
| DataEffects.OwnPacketOutcome | aodv_src/aodv.cc:1036-1061 | it is then last in the buffer for 30 seconds, unless giving up dropped it, and a request goes out if and only if the last one timed out and there were few enough |
| DataEffects.TransitPacketWaits | aodv_src/aodv.cc:428-430 | another's packet for a route under repair is buffered and nothing is sent |
| DataEffects.TransitPacketReported | aodv_src/aodv.cc:436-456 | another's packet without a route is dropped after an error that names its destination and the number held |
| DataEffects.LoopDropped | aodv_src/aodv.cc:545-548 | an own packet that was forwarded before is dropped as looping |
| DataEffects.ExpiredDropped | aodv_src/aodv.cc:556-559 | another's packet without time to live left is dropped |
| DataEffects.BroadcastSpreads | aodv_src/aodv.cc:949-986 | a broadcast packet is delivered, sent on all links or dropped |
| RequestEffects.FreshRequestCloses | aodv_src/aodv.cc:618-779 | a new request is cached for 6 seconds, updates the reverse route, sends what waits for it, and is answered by the destination, from the table, or rebroadcast, with all fields given |
| RequestEffects.StaleRequestIgnored | aodv_src/aodv.cc:629-645 | any other request changes nothing |
| RequestEffects.ReverseRouteLasts | aodv_src/aodv.cc:666-684 | how long the reverse route lasts, in each case |
| RequestEffects.RelayTakesMaximum | aodv_src/aodv.cc:774-776 | a request passed on carries the maximum of the number asked for and the number the node holds |
| ReplyEffects.BetterReplyCloses | aodv_src/aodv.cc:816-888 | a better reply installs its route, sends what waits for it, and is passed on along a usable route to the originator, with all fields given |
| ReplyEffects.WorseReplyIgnored | aodv_src/aodv.cc:802-864 | any other reply at most leaves a fresh entry |
| ReplyEffects.RouteLasts | aodv_src/aodv.cc:821-822 | the route lasts for the lifetime counted from now, or ACTIVE_ROUTE_TIMEOUT from now if it was used at once |
| ReplyEffects.RouteSurvivesPurge | aodv_src/aodv.cc:464-478 | no route purge takes a route down before it expires |
| PurgeEffects.RoutePurgeCloses | aodv_src/aodv.cc:458-500 | the purge gives each entry one turn, which nothing else disturbs: expire, forward what waits, or ask if packets wait |
| PurgeEffects.PurgeAsksAgain | aodv_src/aodv.cc:488-498 | packets waiting for a route that is down or under repair make the purge ask once more, in time and number |
| PurgeEffects.PurgeLeavesIdle | aodv_src/aodv.cc:488-498 | without such a packet the entry is left alone |
| PurgeEffects.CachePurgeCloses | aodv_src/aodv.cc:199-211 | the cache timer keeps exactly the ids that have not expired and touches nothing else |
| Effects.SendRequestCloses | aodv_src/aodv.cc:1014-1198 | sendRequest waits, gives up and drops what waits, or sends one request, with time to live, count and timeout given |
| Effects.AskedIsAskedEntry | aodv_src/aodv.cc:1079-1124 | the timeout is twice the time to live times the time per hop times the attempts, and at most 10 seconds |
| Effects.DrainCloses | aodv_src/aodv.cc:692-697 | a drain loop as a whole: packets, effects, expiry of the route, and the assertions it evaluates |
| Effects.PerHopTimeIsAverage | aodv_src/aodv.cc:217-234 | the estimate is the average of the positive latencies, or NODE_TRAVERSAL_TIME |
| Ledger.DrainExact | aodv_src/aodv.cc:692-697 | a drain loop takes exactly the unexpired packets for its destination, in order, disposes of each once, and keeps the others in order |
| Ledger.DrainEmptiesFor | aodv_src/aodv.cc:470-475 | after a drain no packet for the destination is buffered |
| Ledger.Conservation | aodv_src/aodv.cc:507-578 | each data packet handed to an agent is found, as often as it was handed in, among those sent, delivered, dropped, buffered or aged out |
| Ledger.HandleAccounts | aodv_src/aodv.cc:384-456 | one handler run accounts for exactly the packet it was given |
| Ledger.LosingReplyLosesExactly | aodv_src/aodv.cc:844-853 | the one branch that loses packets loses exactly the unexpired ones for the reply's destination |
| Ledger.HandleInOrder | aodv_src/aodv_rqueue.cc:22-54 | every handler run keeps the buffer at 64 packets or fewer with sorted deadlines |
| Packets.BuffersInOrder | aodv_src/aodv_rqueue.cc:155-206 | on every run all buffers are in order, so the full-scan purge leaves what the commented-out head-only purge would |
| Packets.PacketsConserved | aodv_src/aodv.cc:844-853 | on every run each action keeps the accounts, unless it accepts a wrapped reply |
| Packets.RunConserves | aodv_src/aodv.cc:507-578 | on every run in which nobody accepts a wrapped reply, failed repairs and any size included, each packet ever handed to a node is found there as often among what it sent, delivered, dropped, buffers or let age |
| Packets.RunConservesWhenSized | aodv_src/aodv.cc:507-578 | in sized networks the same on every calm run |
| Purges.RtPurgeExact | aodv_src/aodv.cc:458-500 | rt_purge takes down exactly the valid routes that have expired, each by one, and keeps the routing fields of all others |
| Purges.IdPurgeExact | aodv_src/aodv.cc:199-211 | a cache entry survives id_purge if and only if it has not expired |
| LocalSteps.HandleLegal | aodv_src/aodv.cc:507-616 | every handler run meets the local contract on routes and messages, unless a repair timer takes down a route at a live number, and only the cache timer forgets ids |
| LocalSteps.RecvRequestLegal | aodv_src/aodv.cc:618-779 | recvRequest installs only a better route, answers or rebroadcasts with justified contents, and keeps the cache |
| LocalSteps.RecvReplyLegal | aodv_src/aodv.cc:781-888 | recvReply installs only a better route and passes the reply on only then |
| LocalSteps.RecvErrorLegal | aodv_src/aodv.cc:890-943 | recvError takes matching routes down to exactly the named numbers and reports what it holds |
| LocalSteps.DownIsStrict | aodv_src/aodv.cc:903-914 | a route that obeys the parity discipline goes down only to a strictly larger, odd number, whatever error with dead numbers names it |
| LocalSteps.HandleLinkFailureLegal | aodv_src/aodv.cc:296-331 | a link failure takes routes down by one and reports what it then holds |
| LocalSteps.RtPurgeLegal | aodv_src/aodv.cc:458-500 | the route purge only expires routes, by one, and sends only requests of its own |
| LocalSteps.RtResolveLegal | aodv_src/aodv.cc:384-456 | resolving a data packet changes no route in use and reports only a dead one |
| LocalSteps.StartRepairLegal | aodv_src/aodv.cc:333-347 | starting a local repair keeps hops and number |
| LocalSteps.LegalKeepsNodeSound | aodv_src/aodv.cc:359-375 | on every run a route marked down is unusable, request counts stay bounded and precursor lists and destinations duplicate-free |
| LocalSteps.LegalKeepsNodeOk | aodv_src/aodv.cc:349-375 | on calm runs flag, hop count and parity stay consistent in every entry as well |
| SendBuffer.FullScanIsHeadPurge | aodv_src/aodv_rqueue.cc:155-206 | on sorted deadlines the full scan and the head-only purge leave the same buffer |
| SendBuffer.LiveIsLive | aodv_src/aodv_rqueue.cc:169-206 | a purge leaves only packets whose deadline has not passed |
| SendBuffer.PurgeOfOne | aodv_src/aodv_rqueue.cc:169-179 | a packet ages out if and only if its deadline has passed |
| SendBuffer.PurgeOfBoth | aodv_src/aodv_rqueue.cc:181-206 | a purge treats each packet by itself and keeps the order |
| SendBuffer.AppendInOrder | aodv_src/aodv_rqueue.cc:22-54 | enqueueing keeps the bound of 64 and the order of deadlines |
| SendBuffer.FirstForSplits | aodv_src/aodv_rqueue.cc:71-100 | one dequeue takes the oldest packet for the destination and nothing else |
| SendBuffer.RQueue.constructor | aodv_src/aodv_rqueue.cc:15-20 | a new buffer is empty |
| SendBuffer.RQueue.RemoveHead | aodv_src/aodv_rqueue.cc:116-129 | head, tail and length stay consistent and the first packet is gone |
| SendBuffer.RQueue.FindPacketWithDst | aodv_src/aodv_rqueue.cc:131-141 | finds the first packet for the destination and its predecessor |
| SendBuffer.RQueue.FindAgedPacket | aodv_src/aodv_rqueue.cc:169-179 | finds the first packet whose deadline has passed, if and only if there is one |
| SendBuffer.RQueue.Unlink | aodv_src/aodv_rqueue.cc:85-94 | head, tail and middle removal drop exactly one position of the sequence |
| SendBuffer.RQueue.Purge | aodv_src/aodv_rqueue.cc:181-206 | leaves the unexpired packets in order and accounts for the aged ones |
| SendBuffer.RQueue.Enque | aodv_src/aodv_rqueue.cc:22-54 | purges, evicts the head of a full buffer with the right reason, and appends with the new deadline |
| SendBuffer.RQueue.DequeFor | aodv_src/aodv_rqueue.cc:71-100 | purges and removes the oldest packet for the destination |
| SendBuffer.RQueue.Deque | aodv_src/aodv_rqueue.cc:56-69 | purges and removes the oldest packet |
| SendBuffer.RQueue.Find | aodv_src/aodv_rqueue.cc:102-110 | says whether some packet is for the destination |
| SendBuffer.RQueue.VerifyQueue | aodv_src/aodv_rqueue.cc:143-153 | its two assertions hold in every valid state |
| RouteTable.WithoutFirstRemoves | aodv_src/aodv_rtable.cc:122-132 | in a duplicate-free precursor list unlinking the first match removes the id completely |
| RouteTable.PerHopTime | aodv_src/aodv.cc:217-234 | the estimate is positive whatever latencies were recorded |
| RouteTable.RtEntry.constructor | aodv_src/aodv_rtable.cc:39-67 | the initial field values of an entry |
| RouteTable.RtEntry.PcInsert | aodv_src/aodv_rtable.cc:103-110 | inserts at the head unless present |
| RouteTable.RtEntry.PcLookup | aodv_src/aodv_rtable.cc:112-120 | finds an id if and only if it is listed |
| RouteTable.RtEntry.PcDelete | aodv_src/aodv_rtable.cc:122-132 | removes the first match and nothing else |
| RouteTable.RtEntry.PcDeleteAll | aodv_src/aodv_rtable.cc:134-141 | empties the list |
| RouteTable.RtEntry.Update | aodv_src/aodv.cc:349-357 | sets number, hops, flag, next hop and expiry, nothing else |
| RouteTable.RtEntry.TakeDown | aodv_src/aodv.cc:359-375 | takes a route down once, remembering its hop count |
| RouteTable.RtEntry.HopTime | aodv_src/aodv.cc:217-234 | the loop averages the positive latencies |
| RouteTable.RTable.Lookup | aodv_src/aodv_rtable.cc:157-165 | finds the entry of a destination if and only if the abstract map has it |
| RouteTable.RTable.Add | aodv_src/aodv_rtable.cc:177-187 | a new head entry extends the map by a fresh route, destinations staying unique |
| Agent.Aodv.constructor | aodv_src/aodv.cc:106-119 | the initial agent state |
| Agent.Aodv.IdInsert | aodv_src/aodv.cc:179-185 | a new cache entry with its expiry |
| Agent.Aodv.IdLookup | aodv_src/aodv.cc:188-197 | finds an id if and only if it is cached |
| Agent.Aodv.IdPurge | aodv_src/aodv.cc:199-211 | removes exactly the expired entries |
| Agent.Aodv.ForwardPacket | aodv_src/aodv.cc:949-1002 | forwards, delivers or drops a data packet as the function on node states says |
| Agent.Aodv.DrainPackets | aodv_src/aodv.cc:845-853 | the loop over the linked buffer computes the drain function |
| Agent.Aodv.PrepareRequest | aodv_src/aodv.cc:1079-1124 | chooses time to live, count and timeout of the next request |
| Agent.Aodv.AskForRoute | aodv_src/aodv.cc:1068-1198 | the exit of sendRequest that sends a request |
| Agent.Aodv.GiveUpAsking | aodv_src/aodv.cc:1052-1061 | the exit of sendRequest that gives up |
| Agent.Aodv.SendRequest | aodv_src/aodv.cc:1014-1198 | all exits of sendRequest, the request and its numbers |
| Agent.Aodv.SendReply | aodv_src/aodv.cc:1200-1240 | the reply sent along the route to the originator, its hop count cut to 8 bits |
| Agent.Aodv.UpdateReverseRoute | aodv_src/aodv.cc:660-698 | the reverse-route half of recvRequest |
| Agent.Aodv.AnswerFromTable | aodv_src/aodv.cc:735-767 | the answer from a usable route and the two precursors it records |
| Agent.Aodv.AnswerRequest | aodv_src/aodv.cc:701-778 | the answering half of recvRequest |
| Agent.Aodv.RecvRequest | aodv_src/aodv.cc:618-779 | recvRequest as a whole |
| Agent.Aodv.UpdateForwardRoute | aodv_src/aodv.cc:820-853 | the forward-route half of recvReply |
| Agent.Aodv.PassReplyOn | aodv_src/aodv.cc:868-879 | the relay of a reply along a usable route to the originator |
| Agent.Aodv.RelayReply | aodv_src/aodv.cc:868-887 | the relay half of recvReply |
| Agent.Aodv.RecvReply | aodv_src/aodv.cc:781-888 | recvReply as a whole |
| Agent.Aodv.RecvError | aodv_src/aodv.cc:890-943 | the loop of recvError and the error it passes on |
| Agent.Aodv.HandleLinkFailure | aodv_src/aodv.cc:296-331 | the loop over the linked table fails exactly the routes via the neighbour and lists them in table order |
| Agent.Aodv.NbDelete | aodv_src/aodv.cc:1357-1373 | raises the own number by 2 and handles the link failure |
| Agent.Aodv.RtResolve | aodv_src/aodv.cc:384-456 | the four branches of rt_resolve |
| Agent.Aodv.RecvData | aodv_src/aodv.cc:507-578 | recv of a data packet: own, looping, expired or to be forwarded |
| Agent.Aodv.RtPurge | aodv_src/aodv.cc:458-500 | the loop over the linked table expires, forwards or asks again, entry by entry |
| Agent.Aodv.LocalRtRepair | aodv_src/aodv.cc:333-347 | buffers the packet, marks the route and asks |
| Agent.Aodv.RtLlFailed | aodv_src/aodv.cc:247-294 | drop, local repair or link failure |
| Agent.Aodv.RepairTimeout | aodv_src/aodv.cc:149-173 | takes the route down at an unchanged number unless it is up |
| Agent.Aodv.RecvAodv | aodv_src/aodv.cc:581-616 | lowers the time to live and dispatches |
| Agent.Aodv.React | aodv_src/aodv.cc:507-616 | whatever happens to the agent, it computes the handler function of the network model |

## Left out

- LoopFreedom: says nothing of runs in which a node accepts a reply whose 8-bit hop count has reached the value for no route; only networks of more than 224 nodes can produce such a reply on a calm run.
- Sequence numbers and broadcast ids are unbounded: 32-bit wrap-around and node reboot are not modelled.
- Times are real numbers: rounding of doubles is not modelled, nor the cast of a negative lifetime, which the C++ standard leaves undefined.
- A reply with hop count 0 would divide by zero in the latency sample; the model records 0, and on the runs of LoopFreedom no reply has that count.
- Route errors are lists of any length: the arrays of the packet have 100 slots and an 8-bit count, and writing past them is not modelled. A link failure lists at most as many destinations as the table has.
- Hello messages and the neighbour list: not started under link-layer detection, so the list stays empty.
- RouteTable.RtEntry.PcInsert: the linked cells of a precursor list are a sequence field; head insertion is modelled, the cell is not.
- RouteTable.RtEntry.PcLookup: searches that sequence field, not the cells.
- RouteTable.RtEntry.PcDelete: unlinks the first match from that sequence field, not from the cells.
- RouteTable.RtEntry.PcDeleteAll: empties that sequence field; freeing the cells is not modelled.
- Agent.Aodv.IdInsert: the linked cells of the broadcast-id cache are a sequence field with head insertion.
- Agent.Aodv.IdLookup: searches that sequence field, not the cells.
- Agent.Aodv.IdPurge: filters that sequence field; unlinking and freeing the cells is not modelled.
- The latency history is a sequence of three values with its slot index, not an array.
- Agent.Aodv.RecvError: packets that the failure path filters from the interface queue count as sent; the queue is not modelled.
- Agent.Aodv.RtLlFailed: link failures of control packets, which are only dropped, and the interface queue are not modelled.
- Agent.Aodv.HandleLinkFailure: the list of an error has no 100-slot bound and no 8-bit count.
- Agent.Aodv.NbDelete: the neighbour list, which stays empty without hello messages, is not modelled.
- Agent.Aodv.LocalRtRepair: the timer event it schedules, with its copy of the packet, is not part of the agent; in the network the repair timer may fire at any time, and in `RepairLoop` it fires when it is due.
- Agent.Aodv.RecvAodv: hello messages and the assertions on port numbers are not modelled.
- Jitter, pacing delays, packet sizes, ports and the IP source of a reply: no handler depends on them.
- `index` and the agent's own address are taken to be the same number.
- Data packets between nodes: the network hands any packet to any node at any time; only `RepairLoop` follows one from node to node.
- Tcl commands, scheduler, tracing and debugging output: foreign framework.
- Simulation scripts, plots and results.
