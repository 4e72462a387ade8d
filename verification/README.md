# Arras node: a verified model

An Arras node is a message router and a session manager. The router carries envelopes between the client of a
session, the computations on this node and the routers of other nodes; the service starts, changes and stops the
computations of each session and tells the router which sessions exist. This project models the parts of a node
whose correctness depends on several functions or several threads at once, and proves what they promise.

Each module models one component:

| module | component |
|---|---|
| `Routing` | splitting an address list on one node, and the delivery of envelopes by all nodes of a session |
| `RoutingOrder` | the order in which the nodes of a session deliver |
| `Negotiation` | two routers that may dial each other |
| `NegotiationProgress` | how their negotiation ends, and when it gets stuck |
| `NegotiationTraffic` | the traffic between them |
| `SessionLifecycle` | one session's Free / Busy / Defunct machine under concurrent update, delete and shutdown |
| `Handshake` | the service and its router, joined by two channels; every session is a `SessionLifecycle.Session` |
| `HandshakeChannels` | the messages of the two channels, and when the router holds a session's data |
| `HandshakeLimits` | how far the rules of `Handshake` can be relaxed, and runs that break one |
| `ConfigUpdate` | the body of a session update, and runs of updates |
| `ExpiryTimer` | the session's expiry thread, interleaved with the caller that arms and stops it |
| `ClientStash` | envelopes for a client that has not connected yet |
| `ListenServer` | who owns an accepted connection |
| `PeerManager` | the tables of tracked endpoints and the destruction queue |
| `RoutingTable` | the weak and strong tables of session routing data |
| `UrlRouter` | the tree of URL paths, and path splitting |
| `BanList` | refusing clients that ask for unmapped URLs, with lazy expiry |

Code that runs on several threads is a transition system: a state, a step relation with one step per lock section
or message, and invariants kept by every step, from which the theorems about all runs follow. Code that updates its
own fields is a class proved against a specification function, and the properties are proved about that function.

## What is assumed

- Channels, sockets and message queues are first in, first out. Ids are compared by a strict total order, so
  numbers stand for them; zero is the null id.
- All nodes of a session agree on its node map and its entry node, and the entry node is not null. All addresses
  of one envelope belong to one session.
- Constructing an operation thread and storing it is one step, and shutdowns of one session are serialised by the
  lock on the session table. The delete body reaches its kick and its Delete (no exception before them).
- Waiting with a time limit may end either way at any moment.
- A request reads the clock once, requests are handled one at a time, and the clock does not go back.
- One caller at a time arms and stops a session's expiry timer.

## Where the code does less than its comments say

- A session can be modified before the router has its routing data: `modifySession` finds the session that
  `createSession` has just put in the table (`HandshakeLimits.EarlyModifySpawnsUnready`). An update accepted for an
  object can start a computation with the router not ready if and only if, when it is accepted, the router is not
  ready or another object of the id can still send a Delete (`HandshakeLimits.ModifySpawnsUnreadyIff`). For the object
  in the table that is: if and only if the router is not ready, and a heard acknowledgement is enough
  (`HandshakeLimits.TableModifySpawnsUnreadyIff`).
- A session can be created again after a delete was accepted for it, and then lose its routing data to that delete
  (`HandshakeLimits.RecreateSpawnsUnready`). Its new object can spawn unready if and only if a Delete for the id was
  sent or is under way; any object of it if and only if that is so, or an earlier object's update is under way
  (`HandshakeLimits.CreateSpawnsUnreadyIff`). That an earlier object was used does no harm by itself
  (`HandshakeLimits.UsedMayBeCreatedAgain`). `Handshake.SpawnFindsRouterReady` holds for all callers that keep to
  these two conditions, each the exact one for its step.
- A deleted session can stay in the router for good: a delete accepted before `createSession` has sent the routing
  data has its Delete overtaken by that data (`HandshakeChannels.EarlyDeleteLeavesRouting`, with the id created once).
  With nothing on its way to it, the router holds a session's data if and only if an Initialize was sent and no Delete
  after it (`HandshakeChannels.DrainedRoutingIff`); so deleted sessions are forgotten when no Initialize follows their
  Delete (`HandshakeChannels.DeletedIsForgotten`).
- A client can be left connected to a session that is gone: when its connected message is handled between the kick
  and the Defunct mark (`HandshakeLimits.WindowLeavesClient`), or before a create that then fails
  (`HandshakeLimits.TimedOutCreateLeavesClient`). Handling the message can lose the client if and only if the session
  passes for active, is not live (created, and not past its kick), and no other kick is on its way to that client
  (`HandshakeLimits.ConnectLosesClientIff`). `Handshake.DeadClientsAreKicked` excludes exactly these steps and nothing else:
  it holds whatever callers modify and create again.
- Negotiation gets stuck: a pair is stuck in a quiet state if and only if the greater node once read the lesser one's
  registration without knowing its address, and has not dialled it since (`NegotiationProgress.StuckIff`). With addresses that
  do not change, that never happens if and only if the greater node knows the lesser one or the lesser one cannot dial
  (`NegotiationProgress.NeverStrandsIff`).
- A configuration that lists a dropped computation again does not bring it back
  (`ConfigUpdate.RelistedIsNotRestarted`; `ConfigUpdate.SuccessMatchesConfigIff` says exactly when an update has the
  intended effect).
- The stash of a client is delivered but kept, so a later client of the same session receives it again
  (`ClientStash.SentTwice`). Two clients both receive an envelope if and only if it was in the stash when the first
  was tracked and the stash was not cleared before the second was (`ClientStash.BothReceiveIff`).
- The ban list answers as its history says for every limit except zero and the largest 32-bit number
  (`BanList.AlwaysAgreesIff`).
- The header of the routing table describes releasing the strong reference. Nothing in the repository releases it;
  `RoutingTable.RoutingTable.Release` and `RoutingTable.RoutingTable.PutAfterRelease` say what would be lost.

## Model

| member | source | states |
|---|---|---|
| `Routing.ParseDestinationAddressLists` | cmd/node/router/RouteMessage.cc:23-56 | the lists hold exactly the addresses of each local computation and each remote node, in order; client flag iff some address has a null node; (this node, null computation) addresses are in no list |
| `Routing.ThreadedNodeRouter.SendToLocalClient` | cmd/node/router/RouteMessage.cc:65-80 | a tracked client is queued the envelope, an absent one has it stashed; nothing else changes |
| `Routing.ThreadedNodeRouter.SendToLocalComputations` | cmd/node/router/RouteMessage.cc:84-101 | each addressed computation with an endpoint is queued the envelope once, the others nothing |
| `Routing.ThreadedNodeRouter.SendToNodes` | cmd/node/router/RouteMessage.cc:145-175 | each remote node below the first unreachable id is queued one readdressed envelope; fails iff some node has neither endpoint nor address |
| `Routing.ThreadedNodeRouter.RouteMessage` | cmd/node/router/RouteMessage.cc:104-176 | the whole new state of the node's queues: client or stash, local computations, node endpoints with the detour to the entry node |
| `Routing.QueuesMatchHops` | cmd/node/router/RouteMessage.cc:118-170 | the queues `RouteMessage` leaves, the client's and the stash included, are the old ones plus exactly the hops and hand-overs of the session-wide model, whichever nodes are reached |
| `Routing.EndpointsMatchHops` | cmd/node/router/RouteMessage.cc:84-170 | no computation gains or loses its endpoint, no node its own, and exactly the nodes sent to gain one |
| `Routing.RoutingSplits` | cmd/node/router/RouteMessage.cc:104-176 | conservation at one node: what is handed over here and what the forwarded lists promise is, as multisets, what the address list promises |
| `Routing.RoutingSplitsHere` | cmd/node/router/RouteMessage.cc:84-176 | the same when computations have no endpoint or nodes cannot be reached: handed over, sent on and lost together are what the list promises |
| `Routing.ListOwns` | cmd/node/router/RouteMessage.cc:118-137 | the list forwarded to a node promises exactly the deliveries that node must make, the client's included at the entry node |
| `Routing.ForwardsAreFinal` | cmd/node/router/RouteMessage.cc:118-170 | no node forwards to itself, no forwarded list is empty, and none leads past its receiver |
| `Routing.NetInvKept` | cmd/node/router/RemoteEndpoint.cc:246-259 | every injection, every re-routing and every envelope dropped for want of routing data keeps promised = delivered + lost + still owed, and receiving removes a hop and adds none |
| `Routing.RoutingIsFlatDelivery` | cmd/node/router/RouteMessage.cc:104-176 | in every run nothing beyond the promised deliveries is made; with nothing in flight each promised delivery was made exactly once or lost once, so all were made iff nothing was lost |
| `Routing.EquippedRunsLoseNothing` | cmd/node/router/RouteMessage.cc:84-176 | with the endpoints, addresses and routing data that routing needs, nothing is lost and delivery is flat |
| `Routing.ForwardedOnce` | cmd/node/router/RemoteEndpoint.cc:246-259 | in every run no received envelope is forwarded again |
| `Routing.FlatCounts` | cmd/node/router/RouteMessage.cc:36-55 | the reference: one delivery per (node, computation) pair even with duplicates, one to the client iff some node is null, none for a null computation |
| `RoutingOrder.QueueKept` | cmd/node/router/RemoteEndpoint.cc:246-259 | every injection, in-order reception and drop keeps what one node routed to a place, delivered or on its way, in the order it was routed |
| `RoutingOrder.ArrivesInOrder` | cmd/node/router/RouteMessage.cc:140-170 | when hops between two nodes are received in order, the envelopes of one node arrive at every destination in the order routed, none twice, whatever is lost |
| `RoutingOrder.AllArriveInOrder` | cmd/node/router/RouteMessage.cc:104-176 | with nothing lost and nothing on its way, what arrived there is exactly what was promised there, in that order |
| `Negotiation.ShapeKept` | cmd/node/router/RemoteEndpoint.cc:151-201 | every step, failures and destruction included, keeps the tables consistent and the direction of every peer |
| `Negotiation.PeersComeFromGreater` | cmd/node/router/NodeRouter.cc:354-398 | in every run an installed peer is a connection from the greater to the lesser node |
| `Negotiation.DialledOnce` | cmd/node/router/RouteMessage.cc:147-165 | failure-free: the greater node has at most one connection to a given lesser node |
| `Negotiation.SetPeerFindsNone` | cmd/node/router/RemoteEndpoint.cc:539-559 | failure-free: an endpoint that is handed a greater node's connection has no peer yet |
| `Negotiation.GreaterDialsOnce` | cmd/node/router/NodeRouter.cc:354-398 | both of these over every failure-free run |
| `Negotiation.CleanKept` | cmd/node/router/NodeRouter.cc:357-398 | every failure-free step keeps the negotiation invariant, and every tracked endpoint stays tracked |
| `Negotiation.TrackedForGood` | cmd/node/router/RouteMessage.cc:147-165 | failure-free: a tracked endpoint is never replaced, over any part of a run |
| `Negotiation.DestroyUntracks` | cmd/node/router/PeerManager.cc:139-147 | destroying a flagged endpoint takes it, and no other, out of the table |
| `Negotiation.FlaggedIsHistory` | cmd/node/router/RemoteEndpoint.cc:172-176 | an endpoint is flagged iff its destruction was asked for or its dial failed |
| `Negotiation.KnowsIsHistory` | cmd/node/router/RoutingTable.cc:89-100 | a node knows an address iff it learnt it last, or knew it at the start and never forgot it |
| `NegotiationTraffic.EnqueueQueues` | cmd/node/router/RemoteEndpoint.cc:482-501 | an envelope queued is the last in its endpoint's queue, and no other queue is touched |
| `NegotiationTraffic.LogsAreHistory` | cmd/node/router/RemoteEndpoint.cc:482-501 | for each ordered pair, what is logged as routed and read is what the enqueue and read steps of the run routed and read, in order |
| `NegotiationTraffic.TrafficSurvives` | cmd/node/router/RemoteEndpoint.cc:80-94 | failure-free: for each ordered pair, what the steps read, then what is on the wire, then what is queued, is what the steps routed, in order |
| `NegotiationTraffic.SendersCanMove` | cmd/node/router/RemoteEndpoint.cc:80-94 | an endpoint with its connection and something queued can send, or wake to send |
| `NegotiationTraffic.ReadersCanMove` | cmd/node/router/RemoteEndpoint.cc:246-259 | what one end wrote and the other end holds can be read there |
| `NegotiationTraffic.AccountedKept` | cmd/node/router/RemoteEndpoint.cc:80-94 | every step, failures and destruction included, keeps routed = read + on wires + queued, as multisets |
| `NegotiationTraffic.TrafficIsAccounted` | cmd/node/router/RemoteEndpoint.cc:482-501 | in every run no envelope routed between two nodes is read twice or invented: as multisets, what the steps routed is what they read, and what is on wires and in queues |
| `NegotiationProgress.QuietResolves` | cmd/node/router/NodeRouter.cc:326-398 | with no dial pending and no registration in flight, two nodes have no endpoints or the two ends of one connection, iff the greater never refused the lesser or has dialled it |
| `NegotiationProgress.RefusedHistory` | cmd/node/router/NodeRouter.cc:360-378 | a connection was refused iff the greater node once read a registration of the lesser one without endpoint or address for it |
| `NegotiationProgress.StuckIff` | cmd/node/router/NodeRouter.cc:326-398 | with addresses learnt and forgotten at any time: a pair is stuck in a quiet state iff the greater node read the lesser one's registration without knowing it, and has not dialled it since |
| `NegotiationProgress.Strands` | cmd/node/router/NodeRouter.cc:360-378 | a run that gets stuck, for every pair whose greater node does not know the lesser one that dials it |
| `NegotiationProgress.NeverStrandsIff` | cmd/node/router/NodeRouter.cc:326-398 | with fixed addresses a pair never gets stuck iff the greater node knows the lesser one's address or the lesser one cannot dial |
| `NegotiationProgress.NotQuietCanMove` | cmd/node/router/RemoteEndpoint.cc:151-201 | while a dial is pending or a registration in flight some negotiation step is possible |
| `NegotiationProgress.WorkKept` | cmd/node/router/NodeRouter.cc:357-398 | every negotiation step decreases the measure, only a new endpoint increases it, by at most six |
| `NegotiationProgress.NegotiationEnds` | cmd/node/router/RouteMessage.cc:145-166 | in every run negotiation steps plus remaining work are at most six per endpoint that routing creates |
| `SessionLifecycle.ExclusiveKept` | lib/session/Session.cc:197-295 | every step keeps: Busy has one holder, and a shutdown past its wait excludes every other operation |
| `SessionLifecycle.OrderedKept` | lib/session/Session.cc:316-350 | every step keeps: the kick precedes the Delete, and after the Delete no update can run |
| `SessionLifecycle.AccountableKept` | lib/session/Session.cc:197-350 | every step keeps: Busy has a caller or body that will end it, and a kick or Delete sent has a body past it or a Defunct session |
| `SessionLifecycle.GoesOn` | lib/session/Session.cc:229-350 | an accepted delete or shutdown can always take a step nearer to its Delete, with no further call accepted |
| `SessionLifecycle.RecordsAreHistory` | lib/session/Session.cc:197-350 | the computations started are those of the run's start steps, in order; kicked, released and shut down each mean that such a step was taken |
| `SessionLifecycle.CallsEnd` | lib/session/Session.cc:197-295 | a caller leaves its operation when its thread is made, when it times out, or with its inline delete, and by no other step |
| `SessionLifecycle.OneBodyAtATime` | lib/session/Session.cc:197-350 | in every interleaving at most one update or delete body runs, inline deletes included, and one caller at most handles the thread |
| `SessionLifecycle.DefunctForever` | lib/session/Session.cc:229-350 | Defunct is absorbing and no computation is started in it |
| `SessionLifecycle.ShutdownIsFinal` | lib/session/Session.cc:265-295 | after a normal return of the shutdown the session is Defunct and nothing is ever started again |
| `Handshake.ServiceKept` | lib/session/ArrasSessions.cc:137-222 | every step, with no rule, keeps the session table, creators and session objects consistent |
| `Handshake.SoleDeletersKept` | lib/session/ArrasSessions.cc:137-222 | every step keeps the table's object the only one of its id that can send a Delete, provided an id is not created while a Delete for it was sent or is under way |
| `Handshake.ReadyKept` | lib/session/ArrasSessions.cc:137-222 | every step within the two rules keeps: an update under way finds the router ready and no other object of its id able to send a Delete |
| `Handshake.ChannelsKept` | cmd/node/router/NodeRouter.cc:197-226 | every step keeps: an acknowledged session has routing data, or its Delete was sent |
| `HandshakeChannels.ChannelsAreFifo` | lib/session/ArrasController.cc:295-364 | in every run what was sent on either channel, read off the steps, is what was handled followed by what is on its way |
| `HandshakeChannels.RoutingIs` | cmd/node/router/NodeRouter.cc:197-226 | in every run the router holds a session's data iff the last Initialize or Delete it handled for it was an Initialize |
| `HandshakeChannels.RemembersMessages` | lib/session/ArrasController.cc:161-168 | Deletes remembered as sent and acknowledgements remembered as heard are exactly those of the run |
| `HandshakeChannels.DeletedButRouted` | cmd/node/router/NodeRouter.cc:197-226 | a session still routed though its Delete was sent has the Delete on its way, or was initialized after one |
| `HandshakeChannels.DrainedRoutingIff` | cmd/node/router/NodeRouter.cc:197-226 | with nothing on its way to the router, it holds a session's data iff an Initialize was sent and no Delete after it |
| `HandshakeChannels.DeletedIsForgotten` | lib/session/ArrasController.cc:354-364 | then a deleted session is not routed, provided no Initialize was sent after a Delete |
| `HandshakeChannels.EarlyDeleteLeavesRouting` | lib/session/ArrasSessions.cc:149-165 | a run creating an id once, after which its deleted session stays routed with nothing on its way |
| `HandshakeChannels.TableIs` | lib/session/ArrasSessions.cc:149-182 | the session table holds the object last created under an id, as long as its creation has not failed |
| `HandshakeChannels.FlaggedIs` | cmd/node/router/NodeRouter.cc:529-556 | a client is flagged iff it left or a kick found it |
| `HandshakeChannels.TrackedIs` | cmd/node/router/PeerManager.cc:39-54 | a client is tracked iff it was the last accepted for its session and has not been untracked |
| `Handshake.SpawnFindsRouterReady` | lib/session/ArrasController.cc:295-311 | in every run within the two rules, a spawn finds the routing data in the router and no Delete sent |
| `HandshakeLimits.ModifySpawnsUnreadyIff` | lib/session/ArrasSessions.cc:187-203 | an accepted update can start unready iff the router was not ready or another object of the id could still send a Delete; otherwise no object ever starts unready |
| `HandshakeLimits.TableModifySpawnsUnreadyIff` | lib/session/ArrasController.cc:295-311 | for the object in the table: iff the router was not ready; a heard acknowledgement makes it ready |
| `HandshakeLimits.CreateSpawnsUnreadyIff` | lib/session/ArrasSessions.cc:149-185 | creating an id lets its new object start unready iff a Delete for the id was sent or is under way, and any object iff that or an earlier object's update is under way |
| `HandshakeLimits.ReachRelease` | lib/session/Session.cc:229-350 | from any such state, a pending delete or shutdown goes on to send its Delete, whatever else stands still |
| `HandshakeLimits.UsedMayBeCreatedAgain` | lib/session/ArrasSessions.cc:149-185 | a run after which an id whose earlier object was used, and started computations, can be created again safely |
| `HandshakeLimits.EarlyModifySpawnsUnready` | lib/session/ArrasSessions.cc:187-203 | a run in which a modify overtakes its session's creation and spawns without routing data |
| `HandshakeLimits.RecreateSpawnsUnready` | lib/session/ArrasSessions.cc:149-185 | a run in which an id is created again before its Delete is sent, and spawns after it |
| `Handshake.CoveredKept` | lib/session/ArrasController.cc:187-218 | every step that does not lose a client keeps: a tracked client is flagged, or a kick or its connected message is in flight, or its session is live |
| `Handshake.DeadClientsAreKicked` | cmd/node/router/NodeRouter.cc:529-556 | in every run whose connected messages are handled in time, whatever is modified and created again, a client of a deleted or unknown session is flagged or its kick is pending, so draining the channels leaves none |
| `HandshakeLimits.ConnectLosesClientIff` | lib/session/ArrasController.cc:187-218 | handling a connected message can lose its client iff the session passes for active, is not live, and no other kick is on its way; the same with the spawn rules kept afterwards and without |
| `HandshakeLimits.WindowLeavesClient` | lib/session/Session.cc:336-347 | a run in which a client handled between kick and Defunct mark is left connected |
| `HandshakeLimits.TimedOutCreateLeavesClient` | lib/session/ArrasSessions.cc:159-165 | a run in which a client handled before its session's create times out is left connected |
| `ConfigUpdate.Session.GetConfigDelta` | lib/session/Session.cc:403-417 | exactly the computations to stop and exactly those to start |
| `ConfigUpdate.Session.StartAll` | lib/session/Session.cc:390-397 | starts exactly those below the first that cannot start; succeeds iff all can |
| `ConfigUpdate.Session.ApplyNewConfig` | lib/session/Session.cc:355-398 | the new table and outcome, and the order of events: nothing is started before every dropped computation was asked and has exited |
| `ConfigUpdate.SuccessMatchesConfigIff` | lib/session/Session.cc:368-397 | a successful update leaves exactly its configuration active iff it lists none that was asked to stop before |
| `ConfigUpdate.RelistedIsNotRestarted` | lib/session/Session.cc:368-397 | a run of successful updates that list, drop and list a computation, and leave it stopped |
| `ConfigUpdate.FailureLeavesSubset` | lib/session/Session.cc:355-398 | whatever the outcome, only configured computations are active |
| `ConfigUpdate.History` | lib/session/Session.cc:355-417 | over any run, what was asked to stop had been listed and later dropped |
| `ConfigUpdate.NothingForgotten` | lib/session/Session.cc:355-417 | over any run no computation is forgotten, and none asked to stop is taken back |
| `ConfigUpdate.DroppedIsAsked` | lib/session/Session.cc:368-371 | an update asks exactly the known computations it does not list, asked before or not |
| `ConfigUpdate.UpdatesConverge` | lib/session/Session.cc:355-417 | over any run that never re-lists a dropped id, a success leaves exactly the last configuration active, after any failures |
| `ExpiryTimer.StepKeeps` | lib/session/Session.cc:485-525 | every instruction of either thread keeps the invariant between lock, flag, thread and events |
| `ExpiryTimer.EveryRunLegal` | lib/session/Session.cc:485-525 | every interleaving is, to an observer, a run of a simple alarm |
| `ExpiryTimer.ArmedIffSet` | lib/session/Session.cc:485-511 | with the caller out of both functions the alarm is armed iff its last call was to set it, for the as-manieth time as it was set |
| `ExpiryTimer.SetTimerRaises` | lib/session/Session.cc:485-525 | after a set, the timer thread alone raises the event in at most five steps and the time's end |
| `ExpiryTimer.WaitsEnd` | lib/session/Session.cc:516-521 | a wait ends with or without the time reached; a spurious wake-up leads back to the wait |
| `ExpiryTimer.RaisedAtMostOnce` | lib/session/Session.cc:513-525 | in every interleaving an arming raises its event at most once |
| `ExpiryTimer.RaisedOnlyWhileArmed` | lib/session/Session.cc:499-525 | every event raised comes after its time and inside its arming: no stop has returned since |
| `ExpiryTimer.UnstoppedTimerRaises` | lib/session/Session.cc:513-525 | a timer thread that ended without being stopped has raised its event |
| `ExpiryTimer.StopIsPrompt` | lib/session/Session.cc:499-511 | no wake-up is lost: a caller that joins waits for at most four steps of the timer and never for the expiry time |
| `ExpiryTimer.CallsNeverStick` | lib/session/Session.cc:485-525 | a caller inside either function can move, or the timer can |
| `ClientStash.FirstClientKept` | cmd/node/router/PeerManager.cc:39-54 | every step keeps all envelopes handed over in the stash, then in the first client's queue |
| `ClientStash.OrderKept` | cmd/node/router/RouteMessage.cc:65-80 | in every run each sender's envelopes are handed over once each and in order |
| `ClientStash.HandOverArrives` | cmd/node/router/RouteMessage.cc:65-80 | a hand-over reaches the client that was there when the sender looked, else the one there now, else the stash, and nothing else |
| `ClientStash.QueueIs` | cmd/node/router/PeerManager.cc:39-54 | for every client, first or later, in every run: its queue is the stash as it was when it was tracked, then what was handed over to it since, in order |
| `ClientStash.StashIs` | cmd/node/router/PeerManager.cc:149-171 | the stash is what found no client since it was last cleared, in order |
| `ClientStash.TrackedIs` | cmd/node/router/PeerManager.cc:39-54 | the client in the table is the one last tracked and not untracked since |
| `ClientStash.NothingVanishes` | cmd/node/router/RouteMessage.cc:65-80 | every envelope handed over is in some client's queue, in the stash, or was cleared with it |
| `ClientStash.FirstClientGetsEverything` | cmd/node/router/PeerManager.cc:39-54 | the first client's queue holds every envelope handed over exactly once, in each sender's order, whether looked up before or after it connected |
| `ClientStash.StashHoldsEverything` | cmd/node/router/PeerManager.cc:149-163 | until it connects, the stash holds the same |
| `ClientStash.LaterClientsSeeTheStash` | cmd/node/router/PeerManager.cc:46-51 | every client's queue starts with the whole stash, which only a clear takes away |
| `ClientStash.BothReceiveIff` | cmd/node/router/PeerManager.cc:39-54 | two clients both receive an envelope iff it was in the stash when the first was tracked, and the stash was not cleared before the second was |
| `ClientStash.SentTwice` | cmd/node/router/PeerManager.cc:46-51 | a run in which a later client receives an envelope a second time |
| `ListenServer.Router.SetPeer` | cmd/node/router/RemoteEndpoint.cc:539-559 | a peer set before is deleted, the new one is owned |
| `ListenServer.Router.ClientFilter` | cmd/node/router/NodeRouter.cc:256-315 | takes the peer iff it returns an endpoint; a second client of a session throws and changes nothing |
| `ListenServer.Router.NodeFilter` | cmd/node/router/NodeRouter.cc:318-406 | takes the peer iff the node is tracked, greater or known; a lesser node's peer is deleted once, a greater node's is owned |
| `ListenServer.Router.IpcFilter` | cmd/node/router/NodeRouter.cc:411-439 | takes the peer or throws; an endpoint replaced in the table deletes its own peer |
| `ListenServer.Router.ServiceFilter` | cmd/node/router/NodeRouter.cc:443-484 | takes the peer of the first service connection, throws for any further one |
| `ListenServer.Router.Admit` | cmd/node/router/ListenServer.cc:126-162 | through the whole filter chain the peer ends as its registration says: owned under its session, node, computation or as the service, deleted with a dial back tracked, or deleted with all tables unchanged; one owner or deletion is added |
| `ListenServer.SettlesByRegistration` | cmd/node/router/NodeRouter.cc:256-484 | a connection to be kept is owned by the endpoint under its registration; any other is deleted, and no other peer is touched |
| `ListenServer.Router.AcceptFrom` | cmd/node/router/ListenServer.cc:104-163 | every peer of one acceptor is settled in turn by its registration; their slots are cleared, stale ones beyond are not touched |
| `ListenServer.Router.Poll` | cmd/node/router/ListenServer.cc:103-164 | the same for all peers of one poll |
| `ListenServer.Router.Sweep` | cmd/node/router/NodeRouter.cc:485-493 | after a poll flagged endpoints leave the tables, exactly the unheld ones of those given are destroyed, and no peer is lost or deleted twice by it |
| `ListenServer.CountedOnce` | cmd/node/router/ListenServer.cc:103-164 | a peer counted once has a single owner and no deletion, or a single deletion and no owner |
| `ListenServer.Serve` | cmd/node/router/NodeRouter.cc:485-493 | after any polls, with endpoints untracked and destroyed after each, every accepted peer has exactly one owning endpoint or was deleted exactly once |
| `PeerManager.EraseIfFound` | cmd/node/router/PeerManager.cc:175-190 | removes the needle's entry and reports its key, or changes nothing and the needle is not there |
| `PeerManager.EraseListener` | cmd/node/router/PeerManager.cc:192-215 | the same for lists, an emptied list being removed |
| `PeerManager.ThreadedNodeRouter.FlagForDestruction` | cmd/node/router/RemoteEndpoint.h:84-92 | an endpoint enters the destruction queue the first time only |
| `PeerManager.ThreadedNodeRouter.TrackClient` | cmd/node/router/PeerManager.cc:39-54 | adds the entry and keeps every endpoint under at most one key of one table |
| `PeerManager.ThreadedNodeRouter.TrackNode` | cmd/node/router/PeerManager.cc:56-63 | the same for nodes |
| `PeerManager.ThreadedNodeRouter.TrackIpc` | cmd/node/router/PeerManager.cc:65-72 | the same for computations |
| `PeerManager.ThreadedNodeRouter.TrackListener` | cmd/node/router/PeerManager.cc:74-81 | the same for listeners |
| `PeerManager.ThreadedNodeRouter.DestroyPeer` | cmd/node/router/PeerManager.cc:139-147 | removes the endpoint from every table and returns the type and id it was tracked under, or none |
| `PeerManager.OneTableHolds` | cmd/node/router/PeerManager.cc:139-147 | stopping at the first table that holds an endpoint removes it everywhere |
| `PeerManager.UniqueExcept` | cmd/node/router/PeerManager.cc:139-147 | untracking keeps endpoints under at most one key of one table |
| `PeerManager.ThreadedNodeRouter.DestroyEndpoints` | cmd/node/router/ThreadedNodeRouter.cc:60-92 | terminates, empties the queue, untracks exactly the queued endpoints and those other threads queue meanwhile, reports each one's true type and id, keeps every other entry |
| `RoutingTable.SessionRoutingData.constructor` | cmd/node/router/SessionRoutingData.cc:14-27 | only the entry node has a client addresser |
| `RoutingTable.SessionRoutingData.UpdateClientAddresser` | cmd/node/router/SessionRoutingData.cc:36-44 | an update changes the addresser of the entry node and of no other |
| `RoutingTable.RoutingTable.Find` | cmd/node/router/RoutingTable.cc:24-38 | finds the referent iff it is listed and alive |
| `RoutingTable.RoutingTable.Put` | cmd/node/router/NodeRouter.cc:85-92 | the first Initialize wins while its data lives; both tables keep the same keys and referents |
| `RoutingTable.RoutingTable.Release` | cmd/node/router/RoutingTable.cc:55-60 | a release keeps the session's lookup iff someone else holds the data |
| `RoutingTable.RoutingTable.PutAfterRelease` | cmd/node/router/RoutingTable.cc:44-60 | after a release with no holder left, a new Initialize is not seen by lookups |
| `RoutingTable.RoutingTable.Remove` | cmd/node/router/RoutingTable.cc:65-84 | takes the session out of both tables |
| `RoutingTable.RoutingTable.UpdateFilter` | cmd/node/router/NodeRouter.cc:210-221 | the entry node's addresser of this session takes the filter, and no other session's data changes |
| `RoutingTable.RoutingTable.FindNodeInfo` | cmd/node/router/RoutingTable.cc:89-100 | the info of the first session, in id order, that has the node; none iff none has it |
| `RoutingTable.Serve` | cmd/node/router/NodeRouter.cc:201-225 | any run of Initialize, Update, Delete and lookup answers as one plain map, whatever references others take and drop |
| `UrlRouter.Node.Add` | cmd/node/UrlRouter.cc:49-68 | the tree on the heap is the old one with the path inserted, and shares no nodes |
| `UrlRouter.Node.HandlePath` | cmd/node/UrlRouter.cc:74-96 | answers as the tree value does, appending the captured elements |
| `UrlRouter.BuildIndexes` | cmd/node/UrlRouter.cc:49-68 | the subtree under an element is the tree of the routes having that element next |
| `UrlRouter.ScanMatches` | cmd/node/UrlRouter.cc:74-96 | a route found by the scan is one added, of the path's length, equal to it or variable at each position |
| `UrlRouter.HandleIsScan` | cmd/node/UrlRouter.cc:74-96 | from every position on, the tree answers as the scan of the remaining routes |
| `UrlRouter.TreeAnswersAsScan` | cmd/node/UrlRouter.cc:49-96 | the tree of any additions answers every path as the position-by-position scan of the route list, captured variables included |
| `UrlRouter.Split` | cmd/node/UrlRouter.cc:106-120 | yields the elements of the path, for every string |
| `UrlRouter.ElementsAreElements` | cmd/node/UrlRouter.cc:104-120 | elements are non-empty and free of slashes |
| `UrlRouter.SlashSeparates` | cmd/node/UrlRouter.cc:106-120 | a slash between two strings concatenates their elements |
| `UrlRouter.SplitInvertsJoin` | cmd/node/UrlRouter.cc:106-120 | splitting the join of elements gives them back |
| `UrlRouter.ExtraSlashIff` | cmd/node/UrlRouter.cc:104-120 | one more slash changes nothing iff it is at an end or beside a slash |
| `UrlRouter.SlashesSameAnswer` | cmd/node/UrlRouter.cc:180-190 | however many such slashes are added and taken away, a URL reaches the same handler with the same variables |
| `UrlRouter.ExtraSlashSameAnswer` | cmd/node/UrlRouter.cc:180-190 | the same for a single slash |
| `UrlRouter.Router.Add` | cmd/node/UrlRouter.cc:139-171 | appends the split path and its handler to the route list the tree stands for |
| `UrlRouter.Router.Lookup` | cmd/node/UrlRouter.cc:189-191 | the answer of the scan of all routes added |
| `BanList.BanList.IsBanned` | cmd/node/BanList.cc:20-50 | the answer and the new table |
| `BanList.BanList.Track` | cmd/node/BanList.cc:53-68 | the new table, counting with 32 bits |
| `BanList.BanList.Cleanup` | cmd/node/BanList.cc:71-84 | exactly the entries that have not expired are left, unchanged |
| `BanList.BanList.Serve` | cmd/node/UrlRouter.cc:173-201 | refuses, or counts an unmapped request of a known address |
| `BanList.ChainIsGapFree` | cmd/node/BanList.cc:53-68 | a count of n means the last n strikes have no gap above the window |
| `BanList.ServedAgrees` | cmd/node/UrlRouter.cc:173-201 | one request keeps the entry in agreement with the history and is refused iff the history says so |
| `BanList.CleanedAgrees` | cmd/node/BanList.cc:71-84 | a cleanup keeps every entry in agreement with its history |
| `BanList.RunAgrees` | cmd/node/BanList.cc:20-92 | so does any run of requests of any addresses and cleanups |
| `BanList.NoAddressNeverBanned` | cmd/node/UrlRouter.cc:194-200 | a request with no address is not counted, and never refused |
| `BanList.LazyAgreesWithHistory` | cmd/node/BanList.cc:20-92 | after any run a request is refused iff the last `countToBan` strikes have no gap above the window or a ban has not lapsed; the count stays at most `countToBan + 1` |
| `BanList.BanLastsOneWindow` | cmd/node/BanList.cc:38-49 | in the history a ban lasts exactly one window from its first refusal |
| `BanList.ListBanLastsOneWindow` | cmd/node/BanList.cc:38-49 | so it does in the list: whatever requests and cleanups follow, the address is refused up to the end of that window and not right after |
| `BanList.ZeroCountDiffers` | cmd/node/BanList.cc:24-28 | with a limit of zero an address without strikes is hot but not refused |
| `BanList.LargestCountNeverBans` | cmd/node/BanList.cc:42-49 | with the largest limit the count wraps to zero and nothing is refused |
| `BanList.AlwaysAgreesIff` | cmd/node/BanList.cc:20-92 | lazy expiry agrees with the history on every run iff the limit is neither zero nor the largest count |

## Left out

- Handshake.SpawnFindsRouterReady: for runs that keep to two conditions, each proved exact for one step; that a run which breaks one must end badly is not claimed, since it may be lucky.
- Handshake.DeadClientsAreKicked: likewise for its one condition, the connected messages that may not be handled.
- Routing.ThreadedNodeRouter.RouteMessage: the double check around creating a node endpoint, and the filter that may create the same one, are in `Negotiation`.
- NegotiationTraffic.TrafficSurvives: envelopes of dials that fail and of destroyed endpoints stay unread, so the order is for failure-free runs; `NegotiationTraffic.TrafficIsAccounted` is for all.
- RoutingOrder.ArrivesInOrder: for runs in which hops between two nodes are received in the order sent; while nodes negotiate after a failure they need not be.
- PeerManager.ThreadedNodeRouter.DestroyEndpoints: other threads flag but do not track endpoints meanwhile; claims nothing of an endpoint flagged before it is tracked, of service endpoints, which are in no table, or of deadlock when a destructor joins threads under the table lock.
- ListenServer.Serve: an endpoint nobody holds is destroyed at the end of a turn of the router's thread, or of a later one; `acceptAll` delivers at most 32 peers.
- UrlRouter.Node.Add: a node keeps its variable child in the same map as its constants, under "*", which no constant is.
- UrlRouter.Router.Add: the adapters that give handlers one or two variables are not modelled; handlers are numbers and calling one is returning it.
- BanList.BanList.Serve: the clock is read once for a request; the source reads it again when it stamps an entry.
- ExpiryTimer.RaisedOnlyWhileArmed: with two controlling callers at once (create arms, a connected message stops) the thread object itself would be raced for, which is not modelled.
- RoutingTable.Serve: the node map is fixed when a session is initialized; `updateNodeMap` has no caller.
- Message contents, serialisers, addressers, statistics and heartbeats: fields passed through.
- Sockets, the dispatcher, the process manager and signals to computations: foreign code, present as channels and outcomes.
- HTTP handlers, health checks, resource calculation, configuration files and preemption monitors: no property across functions.
- The destructor of a session and the text of delete reasons: not needed by any property here.
- The lists and the summary of the ban list: reports of its table.
