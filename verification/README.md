# Haribon: a verified model of its core

Haribon is an HTTP load balancer. This project models the parts of it whose
correctness is a matter of state over time, and proves what they promise:

- **Cluster gossip** (`Cluster`, `Gossip`, `GossipSafety`, `Liveness`, `Convergence`): replicas
  that keep findings about backends and exchange them in datagrams which may be lost,
  repeated and reordered.
- **Log encoding** (`Bytes`, `MsgPack`, `MsgPackTheorems`, `MsgPackShortest`,
  `MsgPackWriter`): the MessagePack encoder, against a decoder written from the
  "Formats" section of the MessagePack specification.
- **Log batching** (`Batch`, `Delivery`): the bounded queue and drain loop in front of
  every remote exporter, and the way from a write to what the collector reads.
- **Routing** (`Breaker`, `BreakerHistory`, `HealthChecker`, `Balancer`,
  `BalancerTheorems`, `Engine`, `Proxy`, `Gateway`, `Swappable`, `GatewaySafety`,
  `RunShares`, `LeastConnectionsRuns`, `SlotsExactly`, `OneBackend`, and the runs in `GatewayLeaks` and
  `NegativeCounts` with the pool of `Pairs`): circuit breakers, the five balancing strategies, the retry
  loop and hot rebuilds, first one by one and then as one machine in which requests
  interleave freely with rebuilds and readiness probes.
- **Active probing** (`Probe`): the hysteresis of the health scheduler.

`Maps`, `Seqs` and `Arithmetic` hold lemmas shared by the others.

## How it is built

Objects that the program updates in place are classes (`Cluster.Node`,
`Breaker.Registry`, the balancers, `MsgPackWriter.Buffer`, `Engine.Runtime`,
`Swappable.LiveEngine`, `Batch.Batch`), and loops are loops with invariants. Each method is proved against a
function on values. The properties of whole runs are then proved about machines made
of those functions: a state, a list of steps in any order, and an invariant that every
step keeps. Time is a parameter of each call; a call reads the clock once.

Three statements of the documentation are not what the code does. The model follows
the code, says exactly when the documented statement holds, and gives an input on which
it fails.

- `docs/breaker-retry.md:70-71` counts every 502, 503 and 504 as a failure.
  `internal/proxy/handler.go:236-249` reports one as a *success* unless it is about to
  be retried (`Proxy.DocumentedExactly`). So no such answer to a request that is not
  retried, a POST for instance, can ever trip a breaker
  (`GatewaySafety.ErrorStatusNeverTrips`); and requests that are retried, one at a time,
  never trip the breaker of a single backend while the retries stay below the threshold,
  as they do by default (`OneBackend.RetriesHideErrors`).
- `docs/balancing.md:51-52` promises each server exactly its weight in every stretch of
  sum(weights) requests. A server that stays available gets at least that, and exactly
  that if and only if on every turn that is not its own somebody available stands before
  its next slot (`BalancerTheorems.WeightedShare`); so it holds while everybody is
  available (`BalancerTheorems.ExactWhenAllWilling`) and fails with one of two servers
  down (`BalancerTheorems.SplitIsNotExact`). Past Go's `int` the slot index itself goes
  wrong (`Balancer.ScanPastInt`, `BalancerTheorems.SplitPastInt`).
- `internal/cluster/cluster.go:440-442` says a finding does not expire while its author
  is alive and still reporting. One report keeps it alive if and only if it is not behind
  the receiver's term (`GossipSafety.RestampExactly`). Over a run in which nobody has
  something newer to say, the finding never goes stale if and only if reports of it keep
  being accepted, never more than the window apart (`GossipSafety.NeverStaleExactly`); and
  there is a run from the start in which a report arrives in time, is behind, and the
  finding expires (`GossipSafety.ReportedYetForgotten`).

Other properties that hold only under a condition are stated with it in both directions,
beside a run or an input on which they fail:

- agreement after convergence: `Convergence.ConvergenceIsAgreement`,
  `Convergence.TieIsReachable`;
- trial slots under the strategies and probes that ask backends they do not route to:
  `SlotsExactly.LeastKeepsSlotsExactly`, `SlotsExactly.RandomKeepsSlotsExactly`,
  `GatewaySafety.ReadyzKeepsSlotsExactly`, `GatewayLeaks.LeakExample`,
  `GatewayLeaks.ReadyzLeakExample`;
- connection counts across a reload: `LeastConnectionsRuns.RebuildCountsExactly`,
  `NegativeCounts.NegativeCountReachable`;
- the `-1` sentinel of least_connections: `BalancerTheorems.LeastLoadedExactly`,
  `NegativeCounts.WrongPickReachable`;
- everything accepted being sent when the drain loop returns: `Batch.CompleteExactly`,
  `Batch.LostWrite`;
- the MessagePack round trip: `MsgPackTheorems.RoundTripExactly`,
  `MsgPackTheorems.StrDecodes`;
- the gossip invariant under datagrams without a sender name:
  `GossipSafety.NamelessExactly`, `GossipSafety.NamelessSenderStampsOwnFinding`.

## Model

| member | source | states |
|---|---|---|
| `Cluster.Node.constructor` | internal/cluster/cluster.go:95-120 | a new node knows nothing; its expiry window is 15 seconds for intervals up to five seconds, unset ones included, and three intervals for longer ones |
| `Cluster.Node.IncrementTerm` | internal/cluster/cluster.go:238-243 | the term rises by one and is returned |
| `Cluster.Node.SetHealth` | internal/cluster/cluster.go:133-152 | a local observation replaces entry and own finding under a new term and takes the entry back from any peer |
| `Cluster.Node.GetHealth` | internal/cluster/cluster.go:159-171 | the held verdict, or the caller's fallback when there is none or it is stale |
| `Cluster.Node.IsStale` | internal/cluster/cluster.go:201-204 | a peer's entry is stale once its last assertion is older than the window |
| `Cluster.Node.GetMergedHealth` | internal/cluster/cluster.go:175-186 | the merged view holds exactly the entries that are not stale, unchanged |
| `Cluster.Node.ExpireRemote` | internal/cluster/cluster.go:213-228 | the loop over the stamps, in any order, puts every stale entry back to the node's own finding or to unknown, and touches nothing else |
| `Cluster.Node.SendGossip` | internal/cluster/cluster.go:363-378 | a datagram carries the new term and first-hand findings only |
| `Cluster.Node.LivePeerCount` | internal/cluster/cluster.go:299-309 | the number of peers whose last datagram is no older than the window |
| `Cluster.Node.MarkPeerSeen` | internal/cluster/cluster.go:312-319 | a named peer is marked as heard now; an unnamed one is ignored |
| `Cluster.Node.MergeGossip` | internal/cluster/cluster.go:397-447 | own datagrams are ignored, a late one only marks its sender, any other is merged as a whole whatever the order of its entries |
| `Cluster.AbsorbOneMore` | internal/cluster/cluster.go:429-446 | merging a set of entries at once is merging them one at a time in any order |
| `Cluster.ForgetOneMore` | internal/cluster/cluster.go:216-227 | expiring a set of entries at once is expiring them one at a time in any order |
| `Gossip.StepSound` | internal/cluster/cluster.go:133-447 | every step of every node, with any network, keeps the cluster invariant: an entry is a peer's (named, stamped, newer than any own finding, its author heard since) or exactly the own finding; no entry is newer than its holder's term; everything held or in flight is in its author's log; a node never makes two findings under one term |
| `Gossip.ReachableSound` | internal/cluster/cluster.go:66-88 | the invariant holds in every state a started cluster can reach |
| `Gossip.MergeAt` | internal/cluster/cluster.go:427-446 | where one backend's entry, origin and stamp end up after a merge: adopted, re-stamped or untouched |
| `GossipSafety.NoRelay` | internal/cluster/cluster.go:189-197 | in every run, an entry under origin p, and anything a datagram from p carries, is a finding p made itself, no newer than p's own and equal to it at equal term |
| `GossipSafety.TermIdentifiesFinding` | internal/cluster/cluster.go:133-147 | two entries anywhere with one author and one term are the same finding about the same backend |
| `GossipSafety.LocalObservationOutranks` | internal/cluster/cluster.go:133-147 | in every reachable state a local observation gets a higher term than anything the node holds, and GetHealth reports it at once |
| `GossipSafety.ObservationStands` | internal/cluster/cluster.go:133-171 | and goes on reporting it through every later step, expiry and replay until the backend is observed again or a newer finding about it is accepted |
| `GossipSafety.ReplayRejected` | internal/cluster/cluster.go:418-425 | a datagram delivered once only moves its sender's liveness mark when delivered again after the node's next own increment, whatever happened between |
| `GossipSafety.PartitionCollapse` | internal/cluster/cluster.go:213-228 | after more than the window without an accepted datagram, one expiry leaves exactly the own findings and no stamp |
| `GossipSafety.InfluenceIsCounted` | internal/cluster/cluster.go:299-319 | whatever GetHealth answers against the fallback is the node's own finding or was made by a peer LivePeerCount counts at that instant |
| `Liveness.CountedExactly` | internal/cluster/cluster.go:299-319 | in every run from the start a peer is counted if and only if it is named, is not the node itself, and a datagram of its, in time or late, arrived at most the window ago |
| `Liveness.SilenceEmptiesTheCount` | internal/cluster/cluster.go:299-309 | after more than the window without a datagram nobody is counted |
| `Liveness.FailuresAreCounted` | internal/cluster/cluster.go:133-145 | over any run in which no peer's finding takes its place, the failure count of a finding is the number of failing observations since the last healthy one |
| `GossipSafety.RestampExactly` | internal/cluster/cluster.go:418-446 | a report stamps the finding anew if and only if its datagram is not behind the receiver's term |
| `GossipSafety.NeverStaleExactly` | internal/cluster/cluster.go:436-446 | over any run in which nobody has something newer to say, a finding never goes stale if and only if reports of it keep being accepted, never more than the window apart |
| `GossipSafety.ReportedNeverStale` | internal/cluster/cluster.go:201-204 | in one direction whoever else speaks: while reports are accepted at least once per window, no entry of that author's is ever stale |
| `GossipSafety.ReportedStaysHeld` | internal/cluster/cluster.go:427-446 | so at the end of such a run it is still held and honoured, unless somebody had something newer to say |
| `GossipSafety.ReportedYetForgotten` | internal/cluster/cluster.go:418-420 | a run from the start in which an author reports its finding within the window, the datagram arrives behind the receiver's term, and the finding expires |
| `GossipSafety.NamelessExactly` | internal/cluster/cluster.go:430-446 | a datagram without a sender name keeps the invariant if and only if it is late or names only backends held from a peer at its term or a higher one |
| `GossipSafety.NamelessSenderStampsOwnFinding` | internal/cluster/cluster.go:443-445 | for instance, one that repeats a local finding stamps it as a peer's |
| `Convergence.LeaderLevels` | internal/cluster/cluster.go:363-425 | after one lossless round from any sound state, with stray deliveries and expiries between the turns, all terms are equal, so the gate stops no later turn |
| `Convergence.StrayLeads` | internal/cluster/cluster.go:418-425 | no datagram already out lifts a node above the highest term |
| `Convergence.StraysSettle` | internal/cluster/cluster.go:213-228 | redelivered datagrams and expiries between the turns lose nothing that has been spread |
| `Convergence.RoundSettles` | internal/cluster/cluster.go:345-447 | a round at equal terms spreads every speaker's findings, at their terms, to every node, none of them stale |
| `Convergence.TwoRounds` | internal/cluster/cluster.go:345-447 | two rounds, turns in any order, old datagrams and expiries anywhere between: every node holds a fresh entry that is a finding of highest own term, and entries exist exactly for the backends somebody found out about |
| `Convergence.ConvergenceIsAgreement` | internal/cluster/cluster.go:363-447 | from any reachable state two rounds bring every node to the highest own term; all hold one finding, and route by it, if and only if the nodes sharing that term had found the same thing |
| `Convergence.TieIsReachable` | internal/cluster/cluster.go:436-436 | nodes that share the highest term and disagree do occur |
| `MsgPack.GetPutHead` | internal/logging/msgpack.go:123-232 | every marker, length and two's-complement integer is read back, lengths modulo 2^32 |
| `MsgPackTheorems.RoundTrip` | internal/logging/msgpack.go:64-232 | decoding an encoding followed by anything gives the value back and leaves exactly the rest |
| `MsgPackTheorems.RoundTripExactly` | internal/logging/msgpack.go:123-165 | the round trip works if and only if every length in the value is below 2^32 |
| `MsgPackTheorems.StrDecodes` | internal/logging/msgpack.go:149-165 | a string of 2^32 bytes or more is read back as its first length-modulo-2^32 bytes |
| `MsgPackTheorems.EncodingIsInjective` | internal/logging/msgpack.go:108-121 | distinct values have distinct bytes |
| `MsgPackTheorems.EncodingIsPrefixFree` | internal/logging/msgpack.go:64-106 | no encoding is a proper prefix of another |
| `MsgPackTheorems.StreamRoundTrip` | internal/logging/exporter.go:445-457 | concatenated messages are read back as the same list of messages |
| `MsgPackShortest.HeadIsNoShorter` | internal/logging/msgpack.go:123-209 | no integer, string, array or map header that reads back the same is shorter than the one emitted |
| `MsgPackShortest.EncodingIsShortest` | internal/logging/msgpack.go:64-209 | whatever bytes decode to a value, the encoder needs no more of them |
| `MsgPackWriter.PackUint` | internal/logging/msgpack.go:192-209 | appends the unsigned format, nothing else |
| `MsgPackWriter.PackInt` | internal/logging/msgpack.go:169-188 | appends the signed format, two's complement when negative |
| `MsgPackWriter.PackArrayHeader` | internal/logging/msgpack.go:123-134 | appends the array head of the specification |
| `MsgPackWriter.PackMapHeader` | internal/logging/msgpack.go:136-147 | appends the map head of the specification |
| `MsgPackWriter.PackString` | internal/logging/msgpack.go:149-165 | appends the string head and the bytes |
| `MsgPackWriter.SortStrings` | internal/logging/msgpack.go:111-116 | the keys in ascending order of their bytes, a prefix first; the list depends on the set of keys only, not on the order they came in |
| `MsgPackWriter.PackValue` | internal/logging/msgpack.go:64-106 | what is appended is read back, whatever follows, as the Go value says: the same boolean, number, string or float, a map with the same keys and values, a slice item by item, nil for nil and for every unsupported type |
| `MsgPackWriter.EncodedIsRead` | internal/logging/msgpack.go:64-106 | the same for the encoding of every value that fits, in every context |
| `MsgPackWriter.SameIsMeaning` | internal/logging/msgpack.go:64-106 | a Go value stands for one object only |
| `MsgPackWriter.PackSlice` | internal/logging/msgpack.go:98-102 | appends the array head and the encoding of each item in order |
| `MsgPackWriter.PackMap` | internal/logging/msgpack.go:108-121 | equal maps give equal bytes whatever the iteration order |
| `MsgPackWriter.PackForwardMessage` | internal/logging/msgpack.go:54-59 | appends the array of tag, time and record of the Forward protocol's message mode |
| `MsgPackWriter.Forward` | internal/logging/exporter.go:437-458 | the payload of a batch is read as one message per entry, in order, each the array of tag, time and the record's own values |
| `Batch.Batch.constructor` | internal/logging/exporter.go:191-203 | an empty batcher with a queue of 4096 and batches of 256 |
| `Batch.Batch.Enqueue` | internal/logging/exporter.go:205-213 | a write joins the queue, or is dropped and counted when the queue is full |
| `Batch.Batch.SignalClose` | internal/logging/exporter.go:215-220 | closing raises the done flag and nothing else |
| `Batch.Batch.Flush` | internal/logging/exporter.go:232-238 | sends the buffer if it holds anything |
| `Batch.Batch.Take` | internal/logging/exporter.go:242-246 | one receive, flushing when the buffer is full |
| `Batch.Batch.Serve` | internal/logging/exporter.go:225-265 | the loop under any schedule of writes, receives, ticks, close, last look and return is the machine's run |
| `Batch.ReceivedInOrder` | internal/logging/exporter.go:242-246 | what has been received is the first of what was accepted, the rest waits in the queue |
| `Batch.TickDelivers` | internal/logging/exporter.go:247-248 | after a tick while serving exactly the entries received so far have been sent, in order, and nothing is buffered |
| `Batch.TickedStaysSent` | internal/logging/exporter.go:247-248 | so an entry that has been received is among those sent from the next tick on, for the rest of every run |
| `Batch.QuietTickSendsAll` | internal/logging/exporter.go:240-248 | with quiet writers one receive per waiting entry and one tick send everything accepted |
| `Batch.CloseSendsAll` | internal/logging/exporter.go:249-262 | with quiet writers closing sends everything accepted and the loop returns |
| `Batch.Batch.Drain` | internal/logging/exporter.go:249-262 | with quiet writers the drain ends, and everything buffered or queued has been sent in order |
| `Batch.StepConserves` | internal/logging/exporter.go:205-265 | a step adds to what is held exactly what it accepts, and to the drop count exactly what it refuses |
| `Batch.Conservation` | internal/logging/exporter.go:205-265 | in every interleaving sent, buffered and queued entries together are the accepted writes in order, accepted and dropped are all writes, every batch has 1 to maxBatch entries |
| `Batch.WritesAreSplit` | internal/logging/exporter.go:205-213 | every write is accepted or refused, never both |
| `Batch.FewShortBatches` | internal/logging/exporter.go:232-248 | a batch that is not full is sent only by a tick or by the return |
| `Batch.NothingTaken` | internal/logging/exporter.go:258-260 | from the last look to the return and ever after nothing is taken from the queue or sent beyond the last batch; accepted writes stay there uncounted |
| `Batch.ReturnDelivers` | internal/logging/exporter.go:249-262 | at the return exactly the writes accepted before the last look at the queue have been sent, in order, and the ones accepted since are in the queue |
| `Batch.EveryReturn` | internal/logging/exporter.go:225-265 | every run that has returned has a last look and a return, and has sent exactly what was accepted before the look |
| `Batch.CompleteExactly` | internal/logging/exporter.go:258-260 | for every queue depth and batch size of at least one: at the return everything accepted so far has been sent if and only if nobody wrote since the last look |
| `Batch.LostWrite` | internal/logging/exporter.go:258-260 | for all such sizes, a write between the two is neither sent nor counted |
| `Batch.AfterTheReturn` | internal/logging/exporter.go:205-213 | afterwards nothing is sent, and every write was sent, is counted as dropped, or is in the queue |
| `Delivery.BatchingIsInvisible` | internal/logging/exporter.go:437-458 | however entries are cut into batches, the collector reads the same list of messages |
| `Delivery.EveryAcceptedWriteIsRead` | internal/logging/exporter.go:225-265 | for every run that has returned, the collector has read one message per write accepted before the last look, in order, with its tag, time and record value for value |
| `Breaker.Registry.constructor` | internal/health/breaker.go:63-76 | every backend starts with a closed circuit |
| `Breaker.Registry.IsAvailable` | internal/health/breaker.go:81-105 | the answer, and the half-open state a granted query leaves behind |
| `Breaker.Registry.RecordSuccess` | internal/health/breaker.go:108-123 | the count is cleared; only a half-open circuit closes |
| `Breaker.Registry.RecordFailure` | internal/health/breaker.go:126-143 | the count rises, or the circuit trips now |
| `Breaker.Registry.CarryOver` | internal/health/breaker.go:172-194 | state, count and trip time come over for the backends known to both, limits do not |
| `BreakerHistory.HistoryDecides` | internal/health/breaker.go:81-143 | across reloads the state is read off the events alone: open until somebody asks after the last trip's cooldown, half-open from then until a report; the count is the run of failures since the last success or trip, which a reload does not interrupt; the limits are the last reload's |
| `BreakerHistory.TripsExactly` | internal/health/breaker.go:126-143 | the breaker trips, by its counter and state, on exactly the failures that complete a run of threshold or come while a trial is out |
| `BreakerHistory.StreakMeans` | internal/health/breaker.go:108-143 | that run is the number of failures after the last success or trip |
| `BreakerHistory.BelowThreshold` | internal/health/breaker.go:126-143 | the count stays below the highest threshold there has been, without a reload below the threshold |
| `HealthChecker.Checker.IsAvailable` | cli/engine.go:53-66 | a recorded false or a fresh unhealthy finding of the cluster answers no and leaves the circuits alone; otherwise, unrecorded backends included, the circuit decides and is asked |
| `HealthChecker.Checker.Among` | cli/engine.go:53-66 | for a backend of the pool that is what scans and surveys of the pool are told |
| `HealthChecker.RefusalIsFree` | cli/engine.go:53-66 | a query that is turned down changes no circuit |
| `Balancer.SlotIndexInRange` | internal/balancer/balancer.go:100-110 | the index is the cyclic one while the counter stays in Go's int, and in range beyond it only when it happens to be zero |
| `Balancer.ScanIsRotation` | internal/balancer/balancer.go:100-110 | while the counter stays in Go's int a scan by slot index is one turn around the slots from the counter's position |
| `Balancer.ScanPastInt` | internal/balancer/balancer.go:100-110 | beyond it a pick gets the first slot, if that is its turn and it answers, and panics otherwise |
| `Balancer.Walk` | internal/balancer/balancer.go:100-110 | the loop is the scan by slot index: the first that answers, or an index panic; refusals along the way change no circuit |
| `Balancer.RoundRobin.Next` | internal/balancer/balancer.go:100-110 | for every counter the scan by slot index; the first backend that answers from the counter's position on while within Go's int; only the picked circuit can change |
| `Balancer.BuildSlots` | internal/balancer/balancer.go:137-155 | each URL fills a block of as many slots as its weight, one if that is unset, in entry order; the empty list and a negative weight are errors |
| `Balancer.BlocksAreSlots` | internal/balancer/balancer.go:137-155 | there is one such list, as long as the sum of the weights |
| `Balancer.WalkOnce` | internal/balancer/balancer.go:157-172 | skipping a URL already refused in this pick gives the same result as asking every slot |
| `Balancer.WeightedRoundRobin.Next` | internal/balancer/balancer.go:157-172 | for every counter the scan by slot index; the first slot that answers from the counter's position on while within Go's int; only the picked circuit can change |
| `Balancer.WeightedRoundRobin.Backends` | internal/balancer/balancer.go:176-186 | the slots without repetitions, in order |
| `Balancer.LeastConnections.constructor` | internal/balancer/balancer.go:199-209 | every backend starts with count zero |
| `Balancer.LeastConnections.Next` | internal/balancer/balancer.go:211-232 | everybody is asked, the running best is taken, its count rises |
| `Balancer.LeastConnections.Done` | internal/balancer/balancer.go:234-240 | the count of a known backend falls by one |
| `Balancer.LeastConnections.CarryOverConns` | internal/balancer/balancer.go:262-276 | counts come over for the backends known to both |
| `Balancer.Random.Next` | internal/balancer/balancer.go:290-304 | everybody is asked; the draw picks among exactly those that answered |
| `Balancer.IPHash.NextForIP` | internal/balancer/balancer.go:339-352 | the first backend that answers from the client's own position on |
| `Balancer.IPHash.Next` | internal/balancer/balancer.go:356-366 | without an address it walks like round robin, for every counter |
| `BalancerTheorems.WeightedShare` | internal/balancer/balancer.go:137-172 | in any window of sum(weights) picks within Go's int a backend that stays available gets at least its weight, one if unset, whatever happens to the others, and exactly that if and only if on every turn that is not its own somebody available stands before its next slot |
| `BalancerTheorems.FirstUnlessShielded` | internal/balancer/balancer.go:161-170 | an available backend is the one picked if and only if nobody available stands before it |
| `BalancerTheorems.ExactWhenAllWilling` | docs/balancing.md:51-52 | when everybody stays available each gets exactly its weight, one if unset |
| `BalancerTheorems.SplitIsNotExact` | docs/balancing.md:51-52 | with one of two equal backends down and no circuit open the other gets both picks of the window |
| `BalancerTheorems.SplitPastInt` | internal/balancer/balancer.go:157-172 | past Go's int one of two picks panics though both backends are available |
| `BalancerTheorems.RoundRobinShare` | internal/balancer/balancer.go:100-110 | in any window of n picks a backend that stays available gets at least one, and exactly one under the same condition |
| `BalancerTheorems.DistinctSlots` | internal/balancer/balancer.go:176-186 | de-duplicating the expanded slots gives back the entry list |
| `BalancerTheorems.LeastLoadedExactly` | internal/balancer/balancer.go:214-227 | the scan returns the first minimum if and only if no count is negative or the last one is the strict minimum |
| `BalancerTheorems.SentinelSkips` | internal/balancer/balancer.go:216-222 | a negative count that is not the last is passed over for a larger one |
| `Engine.MergeEntries` | cli/engine.go:386-405 | the pool is every named URL at its first occurrence, configured before discovered |
| `Engine.PoolIsKeepers` | cli/engine.go:386-405 | the pool is exactly the first occurrences of the named URLs with their weights, distinct and named |
| `Engine.New` | internal/balancer/balancer.go:385-400 | one balancer per strategy name; unknown names, empty pools and negative weights are errors |
| `Engine.NewNamed` | internal/balancer/balancer.go:385-400 | each of the five names gives its own balancer with its counter or counts at zero, the weighted one the blocks of its weights; every other name is unknown |
| `Engine.NewBalBackends` | internal/balancer/balancer.go:385-400 | for all five strategies Backends() gives back the URLs of the entry list |
| `Engine.Runtime.Rebuild` | cli/engine.go:238-302 | a rebuild publishes the generation made of the merged pool, keeps the health records of its backends only and restarts the probes on it, or changes none of these when it fails; a coherent generation stays coherent |
| `Engine.Runtime.PruneHealth` | cli/engine.go:410-422 | a record remains, unchanged, if and only if its backend is to be kept |
| `Engine.Runtime.OnDiscovery` | cli/engine.go:222-235 | an unchanged list is ignored, any other is stored and rebuilt from |
| `Engine.RebuildIsCoherent` | cli/engine.go:238-302 | after a successful rebuild pool, circuits and balancer agree on a non-empty list of distinct named URLs, configured first and with their weights, every circuit goes on from where it stood under the new limits; a failed one changes nothing |
| `Engine.RebuildFailsExactly` | cli/engine.go:242-260 | a rebuild fails if and only if no URL is named, the strategy is unknown, or it is weighted and a kept entry has a negative weight |
| `Proxy.DrivenSane` | internal/proxy/handler.go:172-299 | a request driven to its end has paired every pick with one release and one report of the same backend, within its attempts |
| `Proxy.DrivenExplained` | internal/proxy/handler.go:178-283 | attempt k goes to pick k and is reported by outcome k; the loop stops exactly when nothing is picked, attempts are used up or the last succeeded |
| `Proxy.ServeHTTP` | internal/proxy/handler.go:172-299 | the loop does what the machine does: paired calls, at most 1 + MaxRetries attempts, one unless the method is GET, HEAD, OPTIONS, PUT or DELETE, retries are the attempts begun after the first, the client gets the last attempt's status exactly when it was reported as a success |
| `Proxy.TryBackend` | internal/proxy/handler.go:198-252 | one pass through the loop body: released and reported once on every path |
| `Proxy.DocumentedExactly` | internal/proxy/handler.go:236-249 | the report follows the documented rule except on a 502, 503 or 504 that will not be retried |
| `Swappable.LiveEngine.NextForIP` | cli/engine.go:90-99 | for each strategy the call of the balancer's own method is the step of the machine: same pick, same circuits, same balancer state afterwards |
| `Swappable.LiveEngine.Done` | cli/engine.go:101-105 | the release of the machine: only least_connections counts |
| `Swappable.LiveEngine.Record` | cli/engine.go:123-133 | the report of the machine |
| `Swappable.LiveEngine.HasHealthyBackend` | cli/engine.go:139-150 | the readiness probe of the machine: asks from the front of the pool until somebody answers |
| `Swappable.Swappable.NextForIP` | cli/engine.go:90-99 | the current generation is asked; before the first there is no backend |
| `RunShares.PicksTakeTurns` | internal/balancer/balancer.go:100-110 | the picks of a run without a rebuild are those of one counter that every pick moves by one |
| `RunShares.WeightedShareOverRuns` | internal/balancer/balancer.go:137-172 | in any run without a rebuild that makes sum(weights) picks, a backend that answers at each of them gets at least its weight, and exactly that under the same condition |
| `RunShares.RoundRobinShareOverRuns` | internal/balancer/balancer.go:100-110 | the same for round_robin with one turn each |
| `RunShares.OwnBackendPicked` | internal/balancer/balancer.go:339-352 | under ip_hash the backend at the client's own position is picked if it answers |
| `RunShares.SamePositionSameBackend` | internal/balancer/balancer.go:339-352 | equal positions and equal answers give the same backend |
| `RunShares.AffinityOverRuns` | internal/balancer/balancer.go:339-352 | whatever happens between two requests of a client short of a rebuild, the second goes to its own backend if that answers |
| `Gateway.PickNextAt` | internal/proxy/handler.go:307-312 | whoever is picked did answer; the circuits asked about are the picked one under the scanning strategies, everybody under the others |
| `Gateway.AskAllAt` | internal/balancer/balancer.go:290-304 | a survey lists exactly those who answer and leaves every asked circuit asked once |
| `GatewaySafety.RunOrderly` | internal/proxy/handler.go:178-283 | in every interleaving the published generation is coherent and every request pairs its calls within its attempts |
| `GatewaySafety.NoLeakedSlot` | internal/health/breaker.go:81-143 | under round_robin, weighted_round_robin and ip_hash, in any interleaving of requests and rebuilds, every half-open circuit has an attempt out that will be reported |
| `GatewaySafety.NoLeakFromTheStart` | internal/health/breaker.go:81-143 | the same for every state reachable from the start |
| `SlotsExactly.ScansKeepSlots` | internal/balancer/balancer.go:100-110 | a pick of round_robin, weighted_round_robin or ip_hash keeps every trial slot |
| `SlotsExactly.IdlePickedExactly` | internal/balancer/balancer.go:211-232 | an idle backend that answers is picked by least_connections if and only if every backend before it that answers is busy |
| `SlotsExactly.LeastKeepsSlotsExactly` | internal/balancer/balancer.go:211-232 | with right counts, a pick of least_connections keeps the slots if and only if, for every backend that is up, cooled down and without an attempt out, every backend before it in the pool that answers has a request out |
| `SlotsExactly.RandomKeepsSlotsExactly` | internal/balancer/balancer.go:290-304 | random keeps the slots whatever is drawn if and only if every such backend is the only one that answers |
| `GatewaySafety.ReadyzKeepsSlotsExactly` | cli/engine.go:139-150 | a readiness probe keeps the slots if and only if the first backend that answers was not open or has an attempt out |
| `GatewaySafety.OneTrial` | internal/health/breaker.go:90-104 | once the trial is given every query is turned down until the next report, across rebuilds that keep the backend |
| `GatewaySafety.LeakIsForever` | internal/health/breaker.go:90-104 | a half-open circuit with no attempt out is never asked successfully again until a rebuild drops its backend |
| `GatewaySafety.SurveyLeaks` | internal/balancer/balancer.go:290-304 | one pick that takes two trials leaks one of them |
| `GatewayLeaks.CooledReachable` | internal/proxy/handler.go:178-283 | from the start and for every MaxRetries, two failing requests and a pause lead to two backends whose cooldown is over |
| `GatewayLeaks.LeakExample` | internal/balancer/balancer.go:211-232 | in that run one more request under least_connections takes both trials and leaks one |
| `GatewayLeaks.ReadyzLeakExample` | cli/engine.go:139-150 | in that run one readiness probe leaks a trial |
| `GatewaySafety.TripStartsCooling` | internal/health/breaker.go:126-143 | a report that trips starts the cooldown at that moment |
| `GatewaySafety.CooldownIsRespected` | internal/health/breaker.go:81-143 | after a trip every query is turned down and nothing is sent there before the cooldown is over, whatever late reports, probes and rebuilds come between |
| `GatewaySafety.ErrorStatusNeverTrips` | internal/proxy/handler.go:236-249 | no answer of any status to requests that are not retried, by their method or because retries are off, ever opens a circuit |
| `OneBackend.SoloPick` | internal/balancer/balancer.go:385-400 | under every strategy the one backend that is up with a closed circuit is picked |
| `OneBackend.RetriesHideErrors` | internal/proxy/handler.go:236-249 | with one backend, requests one at a time, every call answered and fewer retries than the threshold, the run of failures never exceeds the retries and the circuit never opens, whatever the statuses |
| `LeastConnectionsRuns.CountsConserved` | internal/balancer/balancer.go:211-240 | over any run whose rebuilds forget no request each count is the number of requests out on the backend |
| `LeastConnectionsRuns.IdleCountsAreZero` | internal/balancer/balancer.go:234-240 | so no count is negative, and all are zero when no request is active |
| `LeastConnectionsRuns.RebuildCountsExactly` | cli/engine.go:262-267 | a reload into least_connections keeps the counts right if and only if every backend of the new pool with requests out had a count to carry over |
| `LeastConnectionsRuns.ReloadUnderLoad` | internal/balancer/balancer.go:262-276 | switching to least_connections with a request in flight drives its count to -1 |
| `NegativeCounts.NegativeCountReachable` | internal/balancer/balancer.go:234-240 | a run from the start that ends with such a count |
| `NegativeCounts.WrongPickReachable` | internal/balancer/balancer.go:216-222 | from there the next pick passes over the backend with the smallest count though it answers |
| `LeastConnectionsRuns.LeastConnectionsPicksLeast` | internal/balancer/balancer.go:211-232 | in every such run the pick is the first backend with the fewest requests out among exactly those that answered |
| `Probe.Probe` | internal/health/scheduler.go:87-125 | writes happen exactly where the verdict changes and alternate starting with unhealthy; a write of unhealthy ends a run of exactly max(1, UnhealthyThreshold) failures, one of healthy a run of exactly max(1, HealthyThreshold) successes |
| `Probe.TrailMeans` | internal/health/scheduler.go:96-124 | a counter of at least m is m equal results in a row at the end |
| `Probe.DownStep` | internal/health/scheduler.go:102-124 | how one more check moves the verdict defined by the last decisive run |
| `Probe.FlappingIsBounded` | internal/health/scheduler.go:96-124 | 2k writes take k full runs of failures and k full runs of successes |
| `Probe.ProbesNeeded` | internal/health/scheduler.go:96-124 | 2k writes need at least k times the sum of the thresholds in probes |

## Left out

- UDP sockets, the JSON wire format, peer addresses, node versions, the configuration hash and goroutine start and stop: the network is a set of datagrams that may be delivered any number of times to anyone.
- Lock granularity: each exported call of a node, each whole pick (`Next`) and each rebuild is one step; `leastConn.Next` holds only a read lock (internal/balancer/balancer.go:212-230), so two picks can overlap. `SetHealth` takes its term before the health lock (internal/cluster/cluster.go:134-137) and a rebuild copies state before it publishes (cli/engine.go:262-294); interleavings inside those are not modelled.
- Terms wrapping at 2^64, and a node that restarts under its old name with term 0.
- HTTP forwarding, header and body handling, timeouts and the back-off sleep; what a backend does with a request is an input.
- A negative `MaxRetries`, and a handler or checker built without a breaker.
- Loki and Elasticsearch pushes, `LogEntry.Record`, parsing of timestamps, and failing connections to the collector.
- The reuse of the batch buffer's memory after a send: a sent batch is a value.
- When `Close` waits for the drain loop: the model says what has been sent when the loop returns, not that it is scheduled. Under writers that never pause the drain may not end.
- MessagePack formats the encoder never writes and a record never needs (binary, extension, float32, keys that are not strings): the decoder rejects them.
- Configuration loading and validation, discovery providers, metrics and gauges, flags and the legacy entry points of `cli/main.go`.
- The distribution of `random` and the FNV-1a hash: the draw and the hash are inputs.
- What the local health map says at a pick is an input of the pick, and the probe's guarantee is per loop, since a rebuild restarts the loop as healthy while an old record stays.
- What happens to a request whose pick panics past Go's int: in the model of whole runs it ends like one that finds no backend; the client's connection is not modelled.
- BreakerHistory.BelowThreshold: for thresholds of at least one, as the configuration requires.
- BalancerTheorems.WeightedShare: for windows within Go's int; `Balancer.ScanPastInt` says what a pick does beyond it.
- BalancerTheorems.RoundRobinShare: the same bound.
- RunShares.WeightedShareOverRuns: the same bound.
- RunShares.RoundRobinShareOverRuns: the same bound.
- Engine.Runtime.Rebuild: the old and the new generation are values, so a request that still holds the old balancer object is not modelled; the program reaches the generation through one pointer on every call.
