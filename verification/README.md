# Abyss Neighbor Discovery, verified

A Dafny model of the Abyss host core and proofs about it.  The centre is AND
(Abyss Neighbor Discovery), the membership protocol in `and/`: each world keeps
a ten-state machine per peer, driven by messages, application calls and timers,
and reports to the application through one FIFO of events.  Around it stand the
parts of the host that AND relies on or that rely on AND.

| files | what they model |
|---|---|
| `Prelude`, `Types`, `Entry`, `World`, `Node` | AND as values: the entry automaton, the handlers as plans of entry steps, one AND instance, its runs |
| `EventOrder`, `EntryInvariant`, `WorldInvariant`, `NodeInvariant`, `JoinTarget`, `EventTheorems`, `Timers` | what every call keeps, what the event log of every run looks like, and which worlds gossip |
| `Handlers`, `Meetings`, `Gossip`, `Healing`, `Sweeps`, `Objects` | what every message and call must do to an AND instance, said of the instance before and after; how a join runs to its end on two hosts, how gossip repairs a lost introduction, where object events come from |
| `EntryRuns`, `EntryHistory`, `EntryLog`, `Outcomes`, `Broadcasts` | one entry over any run, accept fan-out, SJN gossip |
| `System`, `SystemSafety`, `Quiescence` | any number of hosts on an unreliable network; reset storms |
| `WorldImpl`, `AndImpl` | the Go objects `ANDWorld` and `AND` as classes, every method proved to be the step of the value model |
| `Host`, `HostSafety`, `Activity`, `ActivityRefinement` | the host's event loop, world table and join queue, the lock-free activity counter, and the two together |
| `PeerLink`, `PeerMap`, `PeerFeed` | the two half connections of a peer, the waiter map, and why AND sees a peer only once |
| `DecisionTree`, `Searcher` | the exhaustive scenario searcher |
| `ActionPool`, `Text`, `Aurl`, `Wire` | the dependency scheduler, URLs, and the AHMP encoders and decoders |

## What is assumed of the surroundings

`NodeModel.Admissible` states, per call, what the rest of the program
guarantees to one AND instance; `NodeModel.Legal` is a run of such calls.

- A message comes from a connected peer.
- `PeerConnected` is called at most once per peer, never with the local hash.
  `PeerFeed.ConnectionsAreNew` proves the first half from the network side.
- No JN reaches a world whose join is still pending: the id is fresh at
  `host/host.go:117` and the world is not published before its join succeeds.
- Accept and decline name a session that was requested.
- Session ids are fresh and not nil; the join target is not the local host.
- `TimerExpire` is called only for a timer that AND has asked for
  (`host/host.go:392-404`).  Only `Timers.OnlyOpenedWorldsGossip` needs this;
  `Timers.Timed` states it.
- A CRR names only peers that are connected here.  Inside the system of many
  hosts this is a theorem, `SystemSafety.DeliveryAdmissible`.

Map iteration orders, clock readings and random numbers are inputs of a call.
A time is a number of nanoseconds; an encoder cuts it to whole milliseconds.
In the system model a message may be delivered any number of times, in any
order, or never, so every run over in-order connections is included.

## What the code does that its comments do not promise

- `JoinWorld` cancels a join by closing the world and expects a join failure
  (`host/host.go:136`), but a world whose target is still disconnected leaves
  without a join result.  The event loop then finds no entry in its world table
  and panics.  `HostSafety.CancelledJoinCrashes` gives the runs,
  `HostSafety.HostFailsExactlyOnEarlyClose` shows that these are all of them.
- The listener of a connection clears the recorded error when it ends: the
  error it met is held by a variable of the loop, not by the one it stores
  (`net_service/abyss_inbound.go:112-126`).  `PeerLink.ListenerWipesError` is a
  run in which a send fails, its error is recorded
  (`net_service/abyss_peer.go:83-99`), and the end of the listener wipes it.
  `PeerLink.ErrorRecordedExactly` says over all runs when an error is there, and
  `PeerLink.ExpiryPanicsExactly` that `peer.Error().Error()` on an expired peer
  (`host/host.go:230-233`) meets a nil error exactly otherwise.
- `TryParse` drops addresses it cannot read.  An accepted URL that lost all its
  addresses and has a colon in its path is printed in a form that is rejected:
  `AurlModel.LostAddress` is one, `AurlModel.ReprintAccepted` says exactly when.
- A joined world never gossips: `Timers.OnlyOpenedWorldsGossip` proves that the
  worlds for which a timer is ever requested are exactly the opened ones, and
  that no other world sends an SJN.

After a panic the Go program is gone.  The value model carries on with a fault
flag, and the class methods are compared with it up to the first panic
(`WorldImpl.Matches`, `AndImpl.NodeMatches`).

## Model

| member | source | states |
|---|---|---|
| `EntryInvariant.StepKeeps` | and/world.go:231-548 | every allowed step on an entry is free of panics and leaves status, session, stamp and Peer in line with the events reported for that peer and with the stage of the world's join |
| `EntryInvariant.ClearKeeps` | and/world.go:171-203 | clearing an entry in any state closes a ready session, fails a pending join, and never breaks the order of events |
| `EntryInvariant.RenewKeeps` | and/world.go:206-215 | taking over a newer session first closes the old one if it was ready |
| `EntryInvariant.StepNamesPeer` | and/world.go:171-203 | an entry step reports only about its own world and peer |
| `WorldInvariant.DoKeeps` | and/world.go:231-263 | one entry step keeps the invariant of all entries of the world, not only of the one it touches |
| `WorldInvariant.RecvKeeps` | and/world.go:264-666 | every message from a connected peer keeps the world invariant and does not panic |
| `WorldInvariant.AcceptKeeps` | and/world.go:668-760 | accepting any session of a joined world keeps the invariant; its panic on a join target is unreachable |
| `WorldInvariant.TimerKeeps` | and/world.go:776-816 | a timer tick keeps the invariant |
| `WorldInvariant.CloseKeeps` | and/world.go:822-864 | closing leaves no session ready and ends the log with the leave; the world leaves without a join result exactly when its target was never connected |
| `NodeInvariant.StepKeepsNode` | and/and.go:41-173 | every admissible call keeps the invariant of all worlds, living and gone, and does not panic |
| `NodeInvariant.RunKeepsNode` | and/and.go:41-326 | the same after every legal run |
| `NodeInvariant.CloseWorldKeeps` | and/and.go:140-157 | a closed world has left, early exactly when its target was never reached |
| `JoinTarget.ConnectedSetAgrees` | and/and.go:41-102 | in every run the connected entries of each world are exactly the registered peers, Peer is set exactly for them, and idle entries carry no session and no stamp |
| `JoinTarget.TargetUntilResult` | and/world.go:136-169 | an entry is a join target exactly as long as the log holds no join result; it is the one of the join hash, and meanwhile all others are idle or silent members |
| `JoinTarget.TargetNeverReturns` | and/world.go:307-364 | once a world's join target is gone it never comes back, so there is at most one join outcome |
| `EventTheorems.SessionsAreBracketed` | and/world.go:191-202 | in every run, ready events minus close events of a peer are 1 if its entry is a member and 0 otherwise |
| `EventTheorems.ReadyFollowsRequest` | and/world.go:668-760 | a session becomes ready only as the latest requested one, with no close in between |
| `EventTheorems.ObjectsInsideSession` | and/world.go:611-660 | object events lie between the ready and the close of the same session |
| `EventTheorems.WorldGrammar` | and/world.go:106-169 | per world at most one join result, no session events after a failure or before a result, nothing after the leave |
| `EventTheorems.SessionsNeedJoin` | and/world.go:307-343 | every session event follows a join success of its world |
| `EventTheorems.StageOnlyMoves` | and/world.go:822-864 | the stage read off a longer log is never an earlier one |
| `Timers.OnlyOpenedWorldsGossip` | and/world.go:106-169 | in every legal run in which timers expire only on request, the worlds with a timer request in the log are exactly the opened ones, and no other world is the sender of an SJN |
| `Handlers.JNIsAnswered` | and/world.go:264-306 | a JN is taken up by an idle entry and by one with an older session, whose end is then told to the peer and, if it was ready, to the application; any other JN is turned down as a duplicate and changes nothing |
| `Handlers.MEMIsWeighed` | and/world.go:486-548 | a MEM is taken up by an idle or older entry, completes an introduced or accepted session of the same id, ends a pending join, and changes nothing otherwise |
| `Handlers.JNIIntroduces` | and/world.go:366-485 | a JNI from the member session introduces exactly the peer it names: registered and connected to if unknown, requested if idle or vowed, taken over if newer, otherwise left alone |
| `Handlers.StrangerIsReset` | and/world.go:216-229 | JNI, SJN and CRR from anybody but the member session end the sender's session and do nothing else |
| `Handlers.JDNFailsJoin` | and/world.go:344-364 | a JDN fails the join of a world that waits for this very peer, with the code of the message, and is ignored otherwise |
| `Handlers.RSTClears` | and/world.go:661-666 | a RST clears the sender's entry in any state, with the farewell and the events of that state |
| `Handlers.DeclineClears` | and/world.go:761-775 | declining clears the entry that holds the session and does nothing otherwise |
| `Handlers.AcceptCompletes` | and/world.go:716-760 | accepting an introduced peer sends it one MEM and, if its own is here, reports the session ready; any other accept that meets no joiner changes nothing |
| `Handlers.SOAAppends` | and/world.go:611-635 | SOA from the member session is reported as an append of exactly its objects; another session is reset; nothing else changes |
| `Handlers.SODDeletes` | and/world.go:636-660 | SOD from the member session is reported as a deletion of exactly its objects; another session is reset; nothing else changes |
| `Handlers.UnknownWorldIgnored` | and/and.go:104-173 | calls and messages for a world that is not there do nothing |
| `Meetings.JoinerIsAnswered` | and/world.go:264-306 | a JN that is taken up, then accepted: the joiner gets one JOK for its session listing each other member once, each member one JNI with the joiner's session and stamp, nobody else anything; the only new events are the end of the session replaced and the request |
| `Meetings.JOKWelcomes` | and/world.go:307-343 | a JOK from the awaited target reports the join and the request and then introduces every listed member, one after the other |
| `Meetings.JOKRefused` | and/world.go:312-318 | any other JOK is reset and changes nothing |
| `Meetings.JoinerMeetsMembers` | and/world.go:338-485 | whatever the JOK lists, in any order and with repeats: each listed host is in the peer map, not idle, with a listed session no older than any listed for it; the unknown are registered and connected to, the idle are requested, the unlisted are as before |
| `Meetings.MemberIntroducesPeer` | and/world.go:366-485 | the same for the one peer that a member's JNI names |
| `Meetings.JoinCompletes` | and/world.go:264-760 | two hosts, end to end: JN, accept, JOK, accept and MEM leave each a member of the other's world with the session it was told, and both applications have seen it become ready |
| `Gossip.CRRIntroduces` | and/world.go:580-610 | for every list: the asking member hears of each peer whose session is held, each such peer hears of the asking member, in order, nobody else of anybody, and nothing else changes |
| `Gossip.CRROfOne` | and/world.go:595-610 | one session: p is sent exactly the JNI about q, and q exactly the JNI about p |
| `Gossip.SJNAsksBack` | and/world.go:549-579 | a member's SJN: one CRR for each session that is not a current member's, one more listing counted for each that is, nothing else |
| `Gossip.TimerSpreads` | and/world.go:776-816 | a tick lists exactly the members of at least a second, not suppressed and listed at most three times, each once; counts them; sends that list once to every member unless it is empty, nobody else anything; and asks for one timer in range |
| `Healing.GossipHeals` | and/world.go:549-610 | two hosts, end to end: a member that never heard of another one hears of it through timer, SJN, CRR and JNI, and has then met it; the other is told as well |
| `Sweeps.ConnectGreets` | and/and.go:41-57 | a new connection reaches every world once: idle where unknown, JN where awaited, request where introduced |
| `Sweeps.ConnectAsks` | and/world.go:231-263 | on a new connection the peer is sent a JN by exactly the worlds that wait for it, with their paths and stamps, and nothing else is sent |
| `Sweeps.JoinAsksTarget` | and/world.go:136-169 | joining sends one JN with its path and stamp at once, or asks for a connection and sends it when that connection comes |
| `Sweeps.WorldIsBorn` | and/world.go:106-169 | a new world knows exactly the connected peers as idle, and its target; an opened one reports its join and asks for 500 ms |
| `Sweeps.BroadcastRSTClears` | and/and.go:273-297 | RST to the nil session ends the sender's session in every world, each with its own farewell and events |
| `Sweeps.PeerCloseForgets` | and/and.go:59-74 | a peer that is gone is removed from every world, with the same farewells and events |
| `Sweeps.CloseSaysGoodbye` | and/world.go:822-864 | closing sends every busy peer one RST for its session and nobody else anything, ends each ready session and a pending join, and leaves last |
| `Objects.ObjectsFollowMessages` | and/world.go:611-660 | in every legal run the object events of the log are exactly the SOA and SOD messages that came from a member within its session, each once, in order, with their objects |
| `Objects.ObjectsHaveSource` | and/world.go:611-660 | every append goes back to an SOA and every deletion to an SOD of the same peer, world, session and objects |
| `EntryRuns.EntriesAreIndependent` | and/world.go:231-760 | in a world busy with other peers, an entry and its events are those of the steps on that entry alone |
| `EntryRuns.OrderDoesNotMatter` | and/world.go:382-548 | for one session, from a peer that is absent or connected and idle, any interleaving with repeats of JNI, MEM, one connect and accept-after-request, mixed with the steps that other peers and the timer cause, ends in a state that depends only on which of the four happened and how often the member was listed since; one request iff connected and introduced, one ready iff all four |
| `EntryRuns.OrderDoesNotMatterInWorld` | and/world.go:382-548 | the same for the peer's entry and events inside a world that serves other peers, whether or not the peer was connected before |
| `EntryRuns.NewestWins` | and/world.go:206-215 | whatever the order of arrival, the stored stamp is the maximum of those weighed since the entry was last idle or absent |
| `EntryRuns.ReplacedOnlyByLater` | and/world.go:264-306 | a stored session gives way only to one with a strictly later stamp |
| `EntryRuns.ListedAtMostFour` | and/world.go:776-816 | over any fair run of one entry the SJN count follows the listings, at most four per membership, none when the session came with a JOK |
| `EntryHistory.RunsFollowHistory` | and/and.go:41-326 | in every legal run a live entry is where its own history of steps has taken it, free of panics and fairly listed |
| `EntryHistory.NewestWinsAlways` | and/world.go:411-535 | newest-wins for every entry of every legal run; idle entries hold nil and the zero stamp |
| `EntryHistory.ListedAtMostFourAlways` | and/world.go:776-816 | in every legal run a peer is listed at most four times per membership and never when its session came with a JOK |
| `EntryLog.RunContinues` | and/and.go:41-326 | between any two points of a legal run, a living world's entry and its share of the event log are those of the steps taken on the entry in between |
| `EntryLog.OrderDoesNotMatterAlways` | and/world.go:382-548 | in every legal run, from any point at which the entry is absent or connected and idle, entry and events depend only on which parts of the introduction have happened since, and the SJN count only on the listings |
| `Broadcasts.AcceptFanOut` | and/world.go:686-713 | accepting a joiner sends it one JOK with exactly the current members and each member one JNI with the joiner's session and stamp, nothing else to anybody, for every iteration order |
| `Broadcasts.RosterIsExact` | and/world.go:686-713 | the member list holds each current member once with its session and truncated stamp |
| `Broadcasts.TimerTick` | and/world.go:776-816 | a tick lowers the gossip budget by the number of listed peers, strictly if it sends anything, and asks for a timer in [300, 300 + 300 * (members + 1)) |
| `Broadcasts.BudgetFalls` | and/world.go:564-579 | counting the listed peers lowers the sum of max(0, 4 - count) by their number |
| `WorldModel.Delay` | and/world.go:811-816 | the timer value lies in [300, 300 + 300 * (members + 1)) |
| `SystemSafety.MutualAcceptance` | and/world.go:668-760 | in every reachable state of any number of hosts, if A's world a holds B as member with session b, then A accepted b for a and sent B the JOK or MEM that says so, and B accepted a for b and sent A the JOK or MEM that says so |
| `SystemSafety.VowsWereAccepted` | and/world.go:686-748 | every JOK or MEM ever sent goes back to an accept of the application with the same sessions |
| `SystemSafety.StampsAgree` | net_service/abyss_peer.go:108-158 | every stored session and every session named in a message ever sent carries its world's creation time in whole milliseconds |
| `SystemSafety.StoredSessionIsNeverReset` | and/world.go:206-215 | a session named by any message ever sent, met as JN, MEM or introduction by an entry that stores a session: the step on the same session keeps it, closes nothing and sends no RST; a step that does otherwise takes over a world of the same host created strictly later |
| `SystemSafety.NoHostPanics` | and/world.go:595-610 | no host ever panics, whatever is delivered, however often and in whatever order |
| `SystemSafety.DeliveryAdmissible` | and/world.go:580-610 | a delivered CRR names only peers that are connected at the receiver |
| `SystemSafety.SysAlways` | and/and.go:175-326 | the joint invariant of all hosts holds in every reachable state |
| `Quiescence.ResetIsPaid` | and/and.go:273-297 | a reset, even one that fans out to all worlds, sends at most one message for each entry it makes idle |
| `Quiescence.DeliveryCosts` | and/world.go:661-666 | delivering a RST or JDN strictly lowers busy entries plus resets under way |
| `Quiescence.ResetsDieOut` | and/world.go:344-364 | from any global state a run of RST and JDN deliveries has at most (entries not idle) + (resets in flight) steps |
| `WorldImpl.ANDWorld.Open` | and/world.go:106-134 | a new open world: all connected peers idle, join success and first timer reported |
| `WorldImpl.ANDWorld.Join` | and/world.go:136-169 | a new joining world: JN to a connected target, otherwise a connect request |
| `WorldImpl.ANDWorld.ClearStates` | and/world.go:171-203 | is the model's clearing of one entry, with its events and messages |
| `WorldImpl.ANDWorld.TryUpdateSessionID` | and/world.go:206-215 | renews the entry exactly when the stamp is later |
| `WorldImpl.ANDWorld.IsProperMemberOrReset` | and/world.go:216-229 | accepts the member session and resets any other |
| `WorldImpl.ANDWorld.PeerConnected` | and/world.go:231-263 | is the model's connect step |
| `WorldImpl.ANDWorld.JN` | and/world.go:264-306 | is the model's JN step in all ten states |
| `WorldImpl.ANDWorld.JOK` | and/world.go:307-343 | is the model's JOK plan: the sender's entry, then every listed member |
| `WorldImpl.ANDWorld.JDN` | and/world.go:344-364 | is the model's JDN step |
| `WorldImpl.ANDWorld.JNI` | and/world.go:366-381 | is the model's JNI plan: vouch for the sender, then introduce |
| `WorldImpl.ANDWorld.IntroduceMember` | and/world.go:382-485 | is the model's introduction of one member, nothing for the local host |
| `WorldImpl.ANDWorld.MEM` | and/world.go:486-548 | is the model's MEM step |
| `WorldImpl.ANDWorld.SJN` | and/world.go:549-579 | is the model's SJN plan over all listed sessions |
| `WorldImpl.ANDWorld.CRR` | and/world.go:580-610 | is the model's CRR plan over all listed sessions |
| `WorldImpl.ANDWorld.SOA` | and/world.go:611-635 | is the model's SOA step |
| `WorldImpl.ANDWorld.SOD` | and/world.go:636-660 | is the model's SOD step |
| `WorldImpl.ANDWorld.RST` | and/world.go:661-666 | is the model's RST step |
| `WorldImpl.ANDWorld.AcceptSession` | and/world.go:668-760 | is the model's accept plan for the iteration order it took |
| `WorldImpl.ANDWorld.DeclineSession` | and/world.go:761-775 | is the model's decline step |
| `WorldImpl.ANDWorld.TimerExpire` | and/world.go:776-816 | is the model's timer plan for the iteration orders it took |
| `WorldImpl.ANDWorld.RemovePeer` | and/world.go:818-820 | is the model's remove step |
| `WorldImpl.ANDWorld.Close` | and/world.go:822-864 | never panics; pushes exactly the events and sends exactly the messages of the model's close plan for the iteration order it took |
| `Outcomes.AdmittedByPlan` | and/world.go:686-713 | the accept plan carried out step by step equals its closed form |
| `Outcomes.TickByPlan` | and/world.go:776-816 | the timer plan carried out step by step equals its closed form |
| `AndImpl.AND.constructor` | and/and.go:27-35 | a new instance is the start of every run |
| `AndImpl.AND.PeerConnected` | and/and.go:41-57 | registers the peer and connects it in every world, in some iteration order |
| `AndImpl.AND.PeerClose` | and/and.go:59-74 | removes the peer from every world and from the registry |
| `AndImpl.AND.OpenWorld` | and/and.go:76-88 | is the model's call |
| `AndImpl.AND.JoinWorld` | and/and.go:90-102 | is the model's call |
| `AndImpl.AND.AcceptSession` | and/and.go:104-120 | is the model's call; nothing for an unknown world |
| `AndImpl.AND.DeclineSession` | and/and.go:122-138 | is the model's call; nothing for an unknown world |
| `AndImpl.AND.CloseWorld` | and/and.go:140-157 | is the model's call; the world is gone afterwards |
| `AndImpl.AND.TimerExpire` | and/and.go:159-173 | is the model's call; nothing for an unknown world |
| `AndImpl.AND.Receive` | and/and.go:175-326 | dispatch of each message by local session id is the model's call |
| `AndImpl.AND.BroadcastRST` | and/and.go:273-297 | RST to the nil session reaches every world once |
| `HostModel.AbyssHost.Enqueue` | host/host.go:89-98 | the join waiter is queued before AND is called |
| `HostModel.AbyssHost.Handle` | host/host.go:280-445 | handling one event changes world table, join queue and activity as the model says, with every panic branch |
| `HostModel.AbyssHost.EventLoop` | host/host.go:280-445 | the loop works through the queue and stops early only on a panic |
| `HostSafety.HandleTracks` | host/host.go:280-445 | an in-order event keeps world table and counters in step with the log, unless a world leaves before any join result |
| `HostSafety.PairAlways` | host/host.go:280-445 | AND and the host, interleaved in any way, always satisfy the joint invariant |
| `HostSafety.ActivityIsReadiness` | host/host.go:308-334 | after any prefix of the event queue a peer's entry in the host's activity map is the number of worlds the handled events leave it ready in; `ActivityRefinement.RecordIsReadiness` carries this over to the lock-free record |
| `HostSafety.WaitersAreTold` | host/host.go:335-390 | after any prefix of the event queue, the results handed to the join waiters are exactly the join results handled, success with its URL or failure with its code, at most one per world, and the worlds still queued have none |
| `HostSafety.HostFailsExactlyOnEarlyClose` | host/host.go:280-445 | no lookup misses and no join result lacks a waiter unless some world was closed while its target was disconnected; once all events are handled, if and only if |
| `HostSafety.EarlyByRun` | and/world.go:822-864 | a world has left without a join result if and only if some call closed it while its target was disconnected |
| `HostSafety.CancelledJoinCrashes` | host/host.go:131-141 | for every host, target, path and time: joining a host that is not connected, cancelling and handling the events panics |
| `Activity.CountIsBalance` | net_service/peer_context.go:25-72 | in every interleaving of threads the count is activations minus deactivations finished, and never negative |
| `Activity.ActivityIsLastTouch` | net_service/peer_context.go:25-72 | in every interleaving the time in the record is that of the last call that went through, or of the creation |
| `Activity.FailedSwapMeansProgress` | net_service/peer_context.go:25-72 | a compare-and-swap fails only if another call finished since the load |
| `Activity.CounterIsSequential` | net_service/peer_context.go:25-72 | with one activating thread and any renewing threads the counter behaves like a plain variable of that thread |
| `Activity.PanicsExactlyAtZero` | net_service/peer_context.go:55-72 | the event loop's Deactivate panics exactly when the calls before it balance out |
| `ActivityRefinement.BalanceIsReadiness` | host/host.go:308-334 | the activations less the deactivations that handling any prefix of the log calls for are the number of worlds it leaves the peer ready in |
| `ActivityRefinement.RecordIsReadiness` | net_service/peer_context.go:25-72 | in every run of AND and host and every interleaving of the loop's calls with renewals, the compare-and-swap record counts the worlds the peer is ready in, but for the call still running, equals the host's map when the loop is idle, and no load of any thread panics |
| `PeerLink.AbyssPeer.FinishInbound` | net_service/abyss_inbound.go:21-53 | the deferred transition of an inbound handshake, in every state, with its refusals and its publication |
| `PeerLink.AbyssPeer.FinishOutbound` | net_service/abyss_outbound.go:18-46 | the deferred transition of an outbound handshake, in every state |
| `PeerLink.AbyssPeer.EndListener` | net_service/abyss_inbound.go:112-119 | the end of the listener closes the peer and clears its error |
| `PeerLink.AbyssPeer.FailSend` | net_service/abyss_peer.go:83-99 | a failed send closes the peer and records the error |
| `PeerLink.NetService.AppendPeer` | net_service/net_service.go:170-179 | a known peer is never replaced |
| `PeerLink.NetService.PrepareInbound` | net_service/abyss_inbound.go:15-53 | is one step of the network model: link, channel and refusals |
| `PeerLink.NetService.PrepareOutbound` | net_service/abyss_outbound.go:12-46 | is one step of the network model: link, channel and refusals |
| `PeerLink.PublishedExactlyAtJoin` | net_service/abyss_inbound.go:35-51 | in every run a peer is published at most once, and exactly the peers with both halves installed have been |
| `PeerLink.LinksOnlyGrow` | net_service/abyss_peer.go:19-28 | the rank of a peer's state never falls, its installed halves are never replaced, its addresses only grow |
| `PeerLink.NoConnectionIsLost` | net_service/abyss_outbound.go:28-45 | the connection of every finished handshake becomes a half of its peer or is turned away |
| `PeerLink.HalvesAreFirst` | net_service/abyss_inbound.go:21-53 | in every run a peer's halves, codecs and addresses are those of the first inbound and first outbound handshake that finished before anything of the peer failed, and it is closed exactly once something has |
| `PeerLink.RefusedExactly` | net_service/abyss_outbound.go:18-46 | in every run exactly the later handshakes are turned away: as early reconnections once the peer is closed, as duplicates before |
| `PeerLink.ErrorRecordedExactly` | net_service/abyss_inbound.go:112-126 | in every run a known peer holds an error if and only if some failed handshake or send, met while it was known, has not been followed by the end of its listener |
| `PeerLink.ExpiryPanicsExactly` | host/host.go:230-233 | the error text of an expired peer is taken from a nil error if and only if no failure of the peer still stands |
| `PeerLink.ListenerWipesError` | net_service/abyss_inbound.go:112-126 | for every peer: a possible run in which a recorded send error is wiped by the end of the listener, and one without any failure, after both of which an expiry panics |
| `PeerFeed.ConnectionsAreNew` | host/host.go:194-223 | if the host connects only peers taken from the channel, no call meets the "duplicate connection" panic, whatever the network did |
| `PeerMap.NoLostWakeup` | net_service/peer_context.go:104-222 | in every interleaving no id is both known and waited for, no send blocks, each waiter is signalled at most once, a live waiter is registered exactly while its peer is unknown and then holds the peer Find returns |
| `PeerMap.StepKeeps` | net_service/peer_context.go:104-222 | each of Append, Wait, Cleaner, cancel, receive and give-up keeps the waiter invariant |
| `PeerMap.ContextedPeerMap.AppendPeer` | net_service/peer_context.go:152-179 | is the model's append: first one wins and starts with a zero count, all waiters signalled and forgotten; keeps the waiter invariant |
| `PeerMap.ContextedPeerMap.SignalAll` | net_service/peer_context.go:171-176 | the sends fill the empty one-slot channels, so none blocks under the mutex |
| `PeerMap.ContextedPeerMap.FindPeer` | net_service/peer_context.go:181-190 | finds the peer that every satisfied waiter for this id was handed, and renews its time of last activity without changing its count or any other record |
| `PeerMap.ContextedPeerMap.Register` | net_service/peer_context.go:192-214 | Wait up to the unlock: the known peer, or one registration; keeps the waiter invariant |
| `PeerMap.ContextedPeerMap.Finish` | net_service/peer_context.go:216-221 | Wait's select: the channel, or the ended context; keeps the waiter invariant |
| `PeerMap.ContextedPeerMap.Sweep` | net_service/peer_context.go:126-143 | keeps exactly the live waiters of each group, in order, and drops empty groups; keeps the waiter invariant |
| `DecisionTree.NextIsNext` | tools/sear/scenario_searcher.go:57-86 | no leaf lies between a leaf and its successor |
| `DecisionTree.MovingOn` | tools/sear/scenario_searcher.go:46-55 | moving on from a leaf completes exactly the prefixes below which it was the last leaf |
| `DecisionTree.NextRemaining` | tools/sear/scenario_searcher.go:106-136 | each scenario lowers the number of remaining leaves by one, to zero |
| `Searcher.ScenarioMap.OpenScenarioPaths` | tools/sear/scenario_searcher.go:19-32 | creates the children once and keeps the node tree a part of the decision tree |
| `Searcher.ScenarioMap.MarkParents` | tools/sear/scenario_searcher.go:46-55 | marks exactly the ancestors of which the finished leaf is the last |
| `Searcher.ScenarioMap.TryGetNextSearchBranch` | tools/sear/scenario_searcher.go:57-86 | takes the branch towards the least unsearched leaf, ends a scenario exactly at that leaf, and fails exactly when all leaves are searched |
| `Searcher.ScenarioSearcher.Round` | tools/sear/scenario_searcher.go:111-135 | one turn of the outer loop runs exactly the next scenario |
| `Searcher.ScenarioSearcher.Run` | tools/sear/scenario_searcher.go:106-136 | for every finite decision tree with an initial path, Run ends without a panic and the scenarios between Initialize calls are all leaves, each once, in lexicographic order |
| `Searcher.ScenarioSearcher.RunFor` | tools/sear/scenario_searcher.go:106-136 | Run has ended within k turns if and only if there is an initial path and fewer than k scenarios; without an initial path it never ends |
| `ActionPool.DiscreteActionPool.PopAction` | tools/dacp/descrete_action_pool.go:32-47 | removes the chosen action and frees exactly those that waited for it, in order |
| `ActionPool.DiscreteActionPool.AddAction` | tools/dacp/descrete_action_pool.go:48-64 | the action waits exactly if its precursor is in the pool |
| `ActionPool.DiscreteActionPool.Drain` | tools/dacp/descrete_action_pool_test.go:20-23 | popping while something is ready returns every pooled action once and empties the pool |
| `ActionPool.PopConserves` | tools/dacp/descrete_action_pool.go:32-47 | a pop takes one action out and keeps all others |
| `ActionPool.PopFeeds` | tools/dacp/descrete_action_pool.go:36-44 | after a pop every pending action still waits for one that is ready or earlier in the pending list |
| `ActionPool.AddFeeds` | tools/dacp/descrete_action_pool.go:48-64 | the same after an add |
| `ActionPool.NothingIsLost` | tools/dacp/descrete_action_pool.go:32-64 | in every run the added actions are those popped and those pooled, and pending actions imply ready ones |
| `ActionPool.PrecursorFirst` | tools/dacp/descrete_action_pool.go:48-64 | an action added while its precursor was pooled is never popped before it |
| `ActionPool.PopsDrain` | tools/dacp/descrete_action_pool.go:32-47 | whichever ready actions are taken, the pool is empty after exactly ready + pending pops and not before |
| `AurlModel.IsValidPeerID` | aurl/abyss_url.go:30-40 | at least 32 characters, a capital first, then base 58 only |
| `AurlModel.ToString` | aurl/abyss_url.go:17-26 | prints the URL that parsing is proved to undo |
| `AurlModel.ParseOne` | aurl/abyss_url.go:98-130 | reads one endpoint, bracketed or plain, or drops it |
| `AurlModel.ParseAddresses` | aurl/abyss_url.go:97-130 | collects the readable endpoints in order |
| `AurlModel.TryParseAbyss` | aurl/abyss_url.go:53-133 | the loop and the branches of the parser compute the parse function |
| `AurlModel.ColonBeforeSlash` | aurl/abyss_url.go:83-95 | an accepted peer id holds no separator, so on every input the address part is a proper slice |
| `AurlModel.EndpointRoundTrip` | aurl/abyss_url.go:102-129 | every printed endpoint, IPv4 or IPv6, any port, is read back |
| `AurlModel.ParsePrinted` | aurl/abyss_url.go:42-133 | what parsing makes of every printed abyss URL with a valid peer id |
| `AurlModel.ParseUndoesPrint` | aurl/abyss_url.go:17-133 | parsing undoes printing if and only if the path ends in no white space and, without addresses, has no colon |
| `AurlModel.AcceptedAbyss` | aurl/abyss_url.go:42-133 | an accepted abyss URL has a valid peer id and a path that ends in no white space |
| `AurlModel.ReprintAccepted` | aurl/abyss_url.go:42-133 | an accepted abyss URL survives print and parse if and only if it kept an address or its path has no colon |
| `AurlModel.LostAddress` | aurl/abyss_url.go:97-133 | an accepted URL whose only address was dropped and whose path has a colon: printed, it is rejected |
| `AurlModel.AbystRoundTrip` | aurl/abyss_url.go:135-154 | for every abyst URL: parsing undoes printing if and only if it has no addresses, no slash in its host and no white space at the end of its path |
| `AurlModel.ReprintAbyst` | aurl/abyss_url.go:135-154 | every accepted abyst URL survives print and parse |
| `Wire.DecodeUndoesEncode` | net_service/abyss_peer.go:108-210 | decoding undoes encoding for all ten messages, up to cutting every stamp to milliseconds |
| `Wire.NeighborRoundTrip` | ahmp/raw_message.go:75-91 | a neighbour record with its URL, session, stamp and certificates survives |
| `Wire.Every` | ahmp/raw_message.go:178-188 | a list is read if and only if each of its records is, and then with all values |
| `Wire.JokAllOrNothing` | ahmp/raw_message.go:66-96 | a JOK is read if and only if both ids and every neighbour are |
| `Wire.DeliveryMatchesModel` | ahmp/raw_message.go:50-298 | what AND reads of a delivered message is what was sent with truncated stamps, as the protocol model assumes |

## Left out

- QUIC, TLS, X.509, CBOR and the handshake encryption: a handshake is the outcome its deferred block sees, and CBOR delivers raw records unchanged.
- The text forms of UUIDs and IP addresses: parameters with a stated inverse; the zone of an IPv6 address is not part of an address.
- Channel capacities and blocking on a full channel, except the one-slot waiter channel: channels are unbounded queues.
- `stat.W` and `stat.B` counters, `watchdog`, `aerr` and the message texts of RST and JDN inside AND: diagnostics.
- AURL and certificates inside AND's register and connect events: the model keeps the peer they name.
- `AND.PeerClose` in the system of many hosts: the host never calls it; the single-instance results cover it.
- The Cleaner's cancelling of inactive peers and `TimeoutContextGroup`: decided by clocks alone.
- `native_dll`, `net_service/address_selector.go`, `host/default_path_resolver.go`, `host/world.go`: wrappers that would add only easy members.
- PeerMap.ContextedPeerMap.FindPeer: the renewal is one step here; its compare-and-swap loop is the subject of `Activity`.
- PeerMap.ContextedPeerMap.AppendPeer: a waiter's channel is an entry of a table, so aliasing of channel objects is not modelled.
- Searcher.ScenarioSearcher.Run: requires an initial path, because without one the program does not end; RunFor covers that case.
- Activity.CountIsBalance: compare-and-swap retry loops are a step relation over threads, not a method with a loop, because other threads act between the load and the swap.
- WorldImpl.ANDWorld.AcceptSession: entries are values in the map, so two names for one entry object are not modelled.
- WorldImpl.ANDWorld.Close: says nothing about the entries afterwards, because the caller drops the world object.
