# A verified model of omnipaxos-kv

omnipaxos-kv is a replicated key-value store on top of the OmniPaxos consensus
library, together with a simulated drifting clock that feeds that library. This
project models four parts of it and proves what they promise.

**The clock** (`Int64.dfy`, `Clock.dfy`, `ClockRuns.dfy`, `ClockRefinement.dfy`,
`ClockErrors.dfy`).
`Clock.dfy` gives the meaning of one read as a function on states, in which all
missed resyncs are one division, and a `Clock` class with the nested catch-up loops
and in-place updates, proved equal to that function. `ClockRuns.dfy` proves safety
over whole runs, for samples in order and in any order, and for several clocks read
in any interleaving. `ClockRefinement.dfy` proves that with room below the largest `i64`
the state of the clock is true time and one number and that no arithmetic overflows; and
that a slow backward clock within its budget is a stateless function of true time, with the
budget shown to be exact. `ClockErrors.dfy` asks for no such room: the error is one-sided
and follows a recurrence up to the top of the range, a gap makes the clock one that was
never read, and it is said exactly when a second read at one true time changes the state.

**Snapshots** (`KeyValue.dfy`, `Snapshots.dfy`). `Database` and `KVSnapshot` are
classes proved against functions on maps. The theorems say exactly when merging a
snapshot agrees with replaying the commands: for one segment, for any cut of a log
into segments, and for deltas merged before they are applied.

**The replicated store** (`Server.dfy`, `Client.dfy`, `Cluster.dfy`,
`ClusterInvariant.dfy`, `ClusterTheorems.dfy`, `ClusterDelivery.dfy`). The server and
client objects are classes. The cluster is a state machine over the steps send, submit, decide, apply a
batch, receive, lose and disconnect, whose step function is built from the functions
those classes are proved against. It has any number of servers and clients. One
invariant is kept by every step; from it follow linearizability with real-time order,
replica agreement, response discipline and client accounting. `ClusterDelivery.dfy` proves
that nothing is lost: with channels that do not fail a request is always in exactly one
place, and every run can be carried on until its client has all its answers.

**Start-up and quorums** (`Network.dfy`, `StartUp.dfy`, `StartUpTheorems.dfy`,
`StartUpLength.dfy`, `Quorum.dfy`). Handshakes are interleaved steps. Every interleaving is
finite and can be carried to its end; every one that has ended is the complete mesh with
one start signal per client, and all of them have taken equally many steps. The quorum
check of the benchmark configuration is shown to be exactly the condition for intersection.

## Assumptions

- The consensus library is an append-only decided log: only submitted commands enter
  it, each submission enters at most once, and each server sees a growing prefix.
- True time is sampled before the clock's lock is taken, so the order of samples is a
  hypothesis (`InOrder`) of the theorems that need it, never a fact.
- Plain subtraction on `i64` wraps, as in a release build; the saturating operations
  and the truncating division are written out.
- `Headroom` asks that true time, the uncertainty bound and twice the largest possible
  drift (2^63 / 10^6 microseconds) fit in an `i64`; only the theorems that saturation breaks
  ask for it. `ClockRefinement.OverflowFreedomUpTo2To60` derives it from samples and a bound
  of at most 2^60.
- `gen_range` may return any value of its range, and wall-clock reads are inputs.

## Where the code and its documentation differ

- `CLOCK_README.md:14` promises monotonicity within a sync period. The code keeps it
  across resyncs as well, and `ClockRuns.RunMonotone` and `RunSafety` prove that. With
  samples out of order it fails; `ClockRuns.FallsBackIff` says exactly when.
- The error messages at `benchmarks/omnipaxos_configs.py:34` and `:36` speak of quorums
  greater than 2; the check accepts 2, and so does the model.
- The comment at `src/server/network.rs:55` has start-up resolve once all connections
  are established. A server with no peer and no client waits for a first connection for
  ever (`StartUpTheorems.ReadyIffNotIsolated`).

## Model

| member | source | states |
|---|---|---|
| `ClockModel.Clock.constructor` | src/clock.rs:43-70 | a new clock is at its base time, without offset, with the first resync one period ahead |
| `ClockModel.Clock.ClampSimTime` | src/clock.rs:182-203 | the floor is tested before the ceiling and a clamp is folded into the offset |
| `ClockModel.Clock.ResyncAt` | src/clock.rs:205-236 | a resync removes the error and moves the deadline to the first scheduled time after it |
| `ClockModel.Clock.CatchUpResyncs` | src/clock.rs:81-85 | the nested catch-up loops terminate and end exactly where one division would jump |
| `ClockModel.Clock.GetTime` | src/clock.rs:76-99 | one read is the state function `Read`, for every drift, period and sample |
| `ClockModel.Clock.GetUncertainty` | src/clock.rs:143-151 | the uncertainty covers the error of the last read and exceeds it only up to eps |
| `ClockModel.Clock.GetTimeWithUncertainty` | src/clock.rs:101-132 | the pair is one read and an uncertainty that covers that very read |
| `Int64.SaturatingIsNearest` | src/clock.rs:165-172 | saturating sums, differences and products are the nearest `i64` to the exact value |
| `Int64.WrapSubIsModular` | src/clock.rs:200 | plain subtraction is right modulo 2^64, and exact when it fits |
| `Int64.TruncDivRounds` | src/clock.rs:166-168 | division leaves a remainder smaller than the divisor with the sign of the dividend |
| `Int64.AbsIsMagnitude` | src/clock.rs:259-266 | the magnitude, except that the smallest `i64` gives the largest |
| `ClockModel.ResyncEndsIff` | src/clock.rs:228-234 | the loop that moves the deadline ends for every true time except the largest `i64`, where it never does |
| `ClockModel.SettledStep` | src/clock.rs:76-99 | what every read keeps in any order of samples, under saturation and wrap-around |
| `ClockRuns.AnyOrderBounds` | src/clock.rs:175-203 | for any lock order a read at t lies between t - eps and eps above the latest true time used |
| `ClockRuns.FallsBackIff` | src/clock.rs:189-196 | exactly when a read returns less than the read before it |
| `ClockRuns.OutOfOrderReadFallsBack` | src/clock.rs:76-99 | reads at 100, 90, 95 that return 110, 110, 105 |
| `ClockRuns.RunSafety` | src/clock.rs:76-99 | samples in order: every read is within eps of true time and not below any earlier read, across resyncs |
| `ClockRuns.Enclosure` | src/clock.rs:124-131 | sim - unc .. sim + unc contains true time, for any interleaving over any clocks |
| `ClockRuns.IntervalOrdering` | src/clock.rs:101-132 | disjoint intervals of two clocks are ordered as their true times are |
| `ClockRuns.UncertaintyBound` | src/clock.rs:124-131 | samples in order: the uncertainty is at most eps |
| `ClockRefinement.OnSchedule` | src/clock.rs:82-85 | after any reads the last sync is the last scheduled time not after true time and the next is ahead |
| `ClockRefinement.DriftFormula` | src/clock.rs:165-168 | the drift is the elapsed time times the rate, each product capped by the `i64` range, divided by a million toward zero |
| `ClockRefinement.ExactStep` | src/clock.rs:87-98 | one read from a state given by true time and an error gives such a state with the clamped error |
| `ClockRefinement.RunIsOneNumber` | src/clock.rs:76-99 | the state after any run is a function of the last true time and one error number |
| `ClockRefinement.OverflowFreedom` | src/clock.rs:159-203 | no plain subtraction overflows, no addition saturates, and the offset stays within eps plus the largest drift |
| `ClockRefinement.OverflowFreedomUpTo2To60` | src/clock.rs:159-203 | the same for samples in order and a bound of at most 2^60 |
| `ClockRefinement.StatelessRun` | src/clock.rs:159-236 | slow backward drift within budget: no clamp fires, the offset stays 0 and the read depends on true time only |
| `ClockRefinement.StatelessFormula` | src/clock.rs:165-172 | the same as a closed formula in true time, base, period and rate |
| `ClockRefinement.NeverClampedIff` | src/clock.rs:182-203 | for slow backward drift no run is ever clamped if and only if the drift of one period fits in eps |
| `ClockErrors.ErrorRecurrence` | src/clock.rs:182-236 | forward drift: the errors of consecutive reads follow a recurrence inside a period and across a resync, also where sums saturate |
| `ClockErrors.OneSidedError` | src/clock.rs:159-203 | samples in order: backward drift never reads ahead, forward drift never behind, no drift is true time |
| `ClockErrors.GapErasesHistory` | src/clock.rs:205-236 | for every drift, after a gap of eps across a resync the state and all later reads are those of a clock never read before |
| `ClockErrors.ForwardFirstRead` | src/clock.rs:159-203 | the first read of a forward clock in plain arithmetic: drift since the last scheduled resync, held down by eps and the range |
| `ClockErrors.ReadAfterGapFormula` | src/clock.rs:159-236 | the read after a gap in plain arithmetic, for every drift and every past |
| `ClockErrors.AdmissibleIff` | src/clock.rs:143-151 | samples in order: the possible uncertainties are exactly those from the error of the read to eps |
| `ClockErrors.RereadReturnsSame` | src/clock.rs:182-203 | a second read at one true time returns the same value, with every saturation |
| `ClockErrors.RereadUnchangedIff` | src/clock.rs:197-201 | it leaves the whole state unchanged iff it is not clamped or the offset is at the top of its range |
| `ClockErrors.RereadChangesNothingIff` | src/clock.rs:165-203 | the same as a guard before the first read: not clamped, or the sums in range, or the offset driven to the top |
| `ClockErrors.RereadChangesNothing` | src/clock.rs:197-201 | with headroom the guard always holds |
| `ClockErrors.RereadWithoutHeadroomMovesOffset` | src/clock.rs:170-172 | a state at the top of the i64 range where a second read moves the offset |
| `KeyValue.Database.HandleCommand` | src/server/database.rs:13-25 | a Put sets its key, a Delete removes it, a Get reads what is stored and changes nothing |
| `KeyValue.ReplayIsLatestWrite` | src/server/database.rs:13-25 | after a log, a key holds what the latest Put or Delete on it left |
| `Snapshots.KVSnapshot.Create` | src/common.rs:77-100 | the two loops compute the compressed segment with re-put keys removed from the deletions |
| `Snapshots.KVSnapshot.Merge` | src/common.rs:102-110 | the merged map, for any iteration order of the delta, and no recorded deletions |
| `Snapshots.CompressAt` | src/common.rs:80-93 | a segment's map is its replay from empty; a deletion is recorded iff some Delete is first or follows a Delete |
| `Snapshots.CreatedIsDisjoint` | src/common.rs:94-95 | a snapshot never holds a key it lists as deleted |
| `Snapshots.LoopOrderIff` | src/common.rs:103-108 | inserting and deleting commute for every base iff the two parts are disjoint |
| `Snapshots.LostIff` | src/common.rs:85-90 | the deletions that leave no trace are exactly those of the shape (Put+ Delete)+ |
| `Snapshots.MergeEqualsReplayIff` | src/common.rs:102-110 | merging a segment's snapshot equals replaying it iff no key of the base has that shape in the segment |
| `Snapshots.DeletedKeySurvives` | src/common.rs:85-90 | a Put and a Delete of one key of the base: the merge keeps the old value, the replay removes it |
| `Snapshots.CreateOfWholeLog` | src/common.rs:77-100 | the snapshot of a whole log is the database, without condition |
| `Snapshots.SegmentsEqualReplayIff` | src/common.rs:77-110 | for any cut into segments, folding the snapshots equals the database iff no key is resurrected |
| `Snapshots.SegmentsEqualReplay` | src/common.rs:77-110 | the one-segment condition at every cut suffices |
| `Snapshots.CompactingDeltasIff` | src/common.rs:102-110 | merging two deltas first is the same iff the base holds none of the deleted keys |
| `ServerModel.ResponsesConcat` | src/server/server.rs:203-215 | responses do not depend on where a batch is cut |
| `ServerModel.ResponsesOfOne` | src/server/server.rs:206-213 | an own Get is answered with what is stored under its key, an own write with its id, others not at all |
| `ServerModel.DecidedIsLast` | src/server/server.rs:246-249 | after a batch of messages the log is the one of the last library message, or the old one without any |
| `ServerModel.SignalsOfMessage` | src/server/server.rs:250-254 | each start signal, in its place, goes to clients 1 .. num_clients in order; no other message causes any |
| `ServerModel.OmniPaxosServer.UpdateDatabaseAndRespond` | src/server/server.rs:203-215 | every command is applied; own commands are answered with the value at their position, in order |
| `ServerModel.OmniPaxosServer.HandleDecidedEntries` | src/server/server.rs:182-201 | the new suffix is applied once, and a server that has applied a prefix of the log still has |
| `ServerModel.OmniPaxosServer.AppendToLog` | src/server/server.rs:261-278 | a request enters the log stamped with its sender and this server |
| `ServerModel.OmniPaxosServer.HandleClientMessages` | src/server/server.rs:227-236 | each buffered request is appended once, in order |
| `ServerModel.OmniPaxosServer.HandleClusterMessages` | src/server/server.rs:238-259 | the server ends with the log of the last library message applied, without one nothing changes; start signals are relayed and reported |
| `ServerModel.OmniPaxosServer.SendClusterStartSignals` | src/server/server.rs:280-286 | each peer is sent the start time once |
| `ServerModel.OmniPaxosServer.SendClientStartSignals` | src/server/server.rs:288-294 | clients 1 .. num_clients are sent the start time once each |
| `ClientModel.ClientData.NewRequest` | src/client/data_collection.rs:30-37 | an unanswered request is added at the end |
| `ClientModel.ClientData.NewResponse` | src/client/data_collection.rs:39-43 | the request with that id is answered and the count rises by one |
| `ClientModel.CountBounds` | src/client/data_collection.rs:45-51 | the number answered is at most the number of requests, with equality iff all are answered |
| `ClientModel.Client.SendRequest` | src/client/client.rs:119-130 | the message carries the next id, which is the index of the new unanswered request, and its decimal numeral as key |
| `ClientModel.DecimalIsNumeral` | src/client/client.rs:120 | the key is the decimal numeral of the request number, without leading zeros |
| `ClientModel.DecimalInjective` | src/client/client.rs:120 | different requests have different keys |
| `ClientModel.Client.HandleServerMessage` | src/client/client.rs:108-117 | a Read or Write sets the response time of its request, counts one, and leaves the other requests; a start signal changes nothing |
| `ClientModel.PanicsIff` | src/client/data_collection.rs:39-43 | the client goes down exactly on a response to a request it never sent |
| `ClientModel.Client.LastIntervalEnded` | src/client/client.rs:88-93 | the final count is the number of requests sent |
| `ClientModel.Client.RunFinished` | src/client/client.rs:132-142 | done iff a final count is set and the responses have reached it |
| `ClusterModel.SentIsApplied` | src/server/server.rs:203-215 | every response sent belongs to a log entry its server has applied, with the answer at that position |
| `ClusterInvariant.InvNext` | src/server/server.rs:182-278 | every step of servers, clients and channels keeps the invariant |
| `ClusterTheorems.Linearizable` | src/server/server.rs:182-278 | the decided log linearizes every history: unique invoked commands, sequential answers, at most one response each, real-time order |
| `ClusterTheorems.SentOnce` | src/server/server.rs:203-215 | no command is answered twice, by one server or by two |
| `ClusterTheorems.ReplicaAgreement` | src/server/server.rs:182-201 | equal decided indices mean equal databases, also at different times |
| `ClusterTheorems.BatchingIsIrrelevant` | src/server/server.rs:182-215 | executions that decide the same entries agree on database and responses however they are batched |
| `ClusterTheorems.ResponsesInLogOrder` | src/server/server.rs:203-215 | a server has sent exactly the responses to its own applied commands, in log order |
| `ClusterTheorems.AnsweredByCoordinator` | src/server/server.rs:207-213 | an entry is answered iff its coordinator has applied it, and by no other server |
| `ClusterTheorems.ClientAccounting` | src/client/data_collection.rs:39-51 | responses are in range, the count is the number answered, and a client is finished iff its final count is set and all is answered |
| `ClusterTheorems.AnswersComeFromOwnServer` | src/client/client.rs:108-117 | a request is answered only by its own server's response to that very request |
| `ClusterDelivery.BatchReachesClient` | src/server/server.rs:203-215 | a batch puts on the channel of a connected client exactly the answers to its entries, in log order, and nothing for a disconnected one |
| `ClusterDelivery.ResponsesArrive` | src/server/network.rs:260-270 | every response sent for a client that is not cut off is in its channel or has answered its request |
| `ClusterDelivery.ReceiveAnswers` | src/client/client.rs:108-117 | receiving answers the request named at the head of the channel and takes nothing else |
| `ClusterDelivery.SendRecords` | src/client/client.rs:119-130 | sending records an unanswered request under the next number and puts the message on the channel |
| `ClusterDelivery.GoneStaysGone` | src/server/network.rs:260-270 | a disconnected client gets nothing new |
| `ClusterDelivery.NotTwoPlaces` | src/server/server.rs:182-278 | in every state with the invariant a request is in at most one of: channel, library, decided, channel back, answered |
| `ClusterDelivery.OnePlace` | src/server/server.rs:182-278 | conservation: with channels that lose nothing every request sent is in exactly one of these places |
| `ClusterDelivery.QuietMeansAnswered` | src/client/client.rs:132-142 | when nothing is left to do every request is answered, and a client past its last interval is finished |
| `ClusterDelivery.ClientCanFinish` | src/client/client.rs:88-93 | every run with such channels can be carried on until the client is finished with all answers |
| `ClusterTheorems.EntryIdsIdentifyIff` | src/server/server.rs:270-276 | client and command id identify a command in every execution iff no two servers give out one client number |
| `ClusterTheorems.EntryIdsCollide` | src/server/server.rs:270-276 | any two clients with one number on two servers append commands with the same pair |
| `NetworkModel.IdxFindsFirst` | src/server/network.rs:289-291 | the index is the first position of the peer, and there is none iff it is no peer |
| `NetworkModel.Network.Install` | src/server/network.rs:100-110 | a connection goes to the slot of its peer or to its client number |
| `NetworkModel.Network.AllClusterConnected` | src/server/network.rs:112 | true iff every peer has a connection |
| `NetworkModel.Network.InitializeConnections` | src/server/network.rs:99-117 | the loop stops at the first prefix that brings enough clients and every peer; all clients of the prefix are in and each slot holds its last stream |
| `NetworkModel.InstalledAllAt` | src/server/network.rs:100-110 | every client number that arrived is in, and a slot holds the last stream that arrived for its peer or what it held |
| `NetworkModel.CompleteIffEnough` | src/server/network.rs:111-113 | the test that ends start-up, read off the connections that arrived |
| `NetworkModel.Network.SendToCluster` | src/server/network.rs:245-258 | delivered iff the peer is connected and accepts; a refusal clears that peer's slot only |
| `NetworkModel.Network.SendToClient` | src/server/network.rs:260-270 | the same for a client and its entry |
| `NetworkModel.DeliveredIff` | src/server/network.rs:245-270 | a recipient gets every message up to its first refusal and none after, independent of all other sends |
| `StartUp.MeshNext` | src/server/network.rs:151-243 | every handshake step keeps both ends of every stream accounted for |
| `StartUpTheorems.ReadyServerIsConnected` | src/server/network.rs:99-117 | a server past start-up holds for each peer the stream joining them, and clients 1 .. num_clients |
| `StartUpTheorems.ReadyIffNotIsolated` | src/server/network.rs:99-117 | no interleaving gets stuck: at the end a server is past start-up iff it has a peer or a client |
| `StartUpTheorems.OneStreamPerPair` | src/server/network.rs:200-243 | every pair of servers ends with exactly one stream, dialed by the larger id and held by both |
| `StartUpTheorems.NoStepTwice` | src/server/network.rs:206-240 | no dial, accept, registration or install of a slot happens twice, the leader announces once, a follower handles it once |
| `StartUpLength.LengthIsProgress` | src/server/network.rs:99-117 | every step adds exactly one stream end, registration, installed connection or start, so a world tells how long its run was |
| `StartUpLength.RunIsBounded` | src/server/network.rs:99-117 | no interleaving is longer than two ends and two installs per pair, two steps per client and one start per server |
| `StartUpLength.RunCompletes` | src/server/network.rs:99-117 | every run can be carried to a world where nothing is left to do |
| `StartUpLength.CompleteRunLength` | src/server/network.rs:99-117 | every run that has ended has exactly that length, unless the cluster is one server without clients |
| `StartUpTheorems.AtMostOneSignal` | src/server/server.rs:156-162 | at no time has a client two signals, and all carry one timestamp |
| `StartUpTheorems.ExactlyOneSignal` | src/server/server.rs:280-294 | at the end every client in the cluster has exactly one signal, the same for all |
| `QuorumModel.QuorumsMeetIff` | benchmarks/omnipaxos_configs.py:37-40 | quorums of two sizes always meet iff the sizes add up to more than the nodes |
| `QuorumModel.AcceptedIff` | benchmarks/omnipaxos_configs.py:28-71 | a configuration is accepted iff it passes the quorum, client, count, leader and node checks |
| `QuorumModel.FirstFault` | benchmarks/omnipaxos_configs.py:28-71 | the error names the first check that fails |
| `QuorumModel.UpdateTakesEffect` | benchmarks/omnipaxos_configs.py:73-77 | an accepted update replaces the named fields and nothing else; a refused one leaves the old configuration |
| `QuorumModel.UpdateAcceptedIff` | benchmarks/omnipaxos_configs.py:73-77 | an update is accepted iff the configuration with the named fields is valid |
| `QuorumModel.QuorumsAlwaysMeet` | benchmarks/omnipaxos_configs.py:73-77 | after any chain of updates every read quorum meets every write quorum |
| `QuorumModel.AcceptedIffQuorumsMeet` | benchmarks/omnipaxos_configs.py:28-40 | validation accepts exactly the sizes of two or more that always meet |

## Left out

- OmniPaxos itself (leader election, fast path, delay estimation): its source is not part of this repository; the decided log with its stated assumptions stands for it, and the leader being established is an environment step.
- ClockModel.Clock.GetTime: asks for a true time below the largest `i64`; at that value the deadline never passes and the loop of the source does not end, as `ClockModel.ResyncEndsIff` proves.
- ClockRefinement.RunIsOneNumber: asks for headroom, because saturation near the largest `i64` breaks the offset, as `ClockErrors.RereadWithoutHeadroomMovesOffset` shows; `ClockErrors` proves what holds without it.
- Sampling of true time (`compute_true_time`, `duration_to_us`, `system_time_us`): the sample is the input of each read.
- The random generator state of the clock: a draw is any value of its range.
- TCP, framing, serialization, channels, timers and `select!`: replaced by message steps in any interleaving.
- ClusterModel.SentIsApplied: a request carries any command, where the client of the source sends only Put and Get on its own request number; the class `Client` has the exact form.
- Connection failures during start-up and reconnection: the source has no protocol for them; after start-up, messages may be lost and clients disconnected.
- StartUp.MeshNext: connections are named by stream and their delivery to the start-up loop is in any order; a connection is never refused.
- CSV and JSON output, statistics, logging, request rates and read ratios: no safety content.
- Server-level and client-level updates of the benchmark configuration, and the provisioning scripts: they do not touch quorum sizes.
