# Bioyino in Dafny

Bioyino is a replicated StatsD aggregator. Every node buffers what its sources send, counts it in
several workers, replicates what it counted to its peers, and at the end of each period the leader alone
sends the totals to Carbon. This project models that path and proves that samples are neither lost nor
counted twice on it, and says exactly where the program itself makes room for loss.

| file | what it models |
|---|---|
| `Metrics.dfy` | metrics, caches, and merging one into another |
| `Sums.dfy` | sums over sequences and maps, and loops that take a map apart |
| `TaskRunner.dfy` | a worker: its two caches, its parse buffers, its tasks |
| `TwoTier.dfy` | the worker's two caches against one flat cache |
| `Snapshot.dfy` | a snapshot from the workers' answers to the peer's long cache |
| `Cluster.dfy` | the replication protocol as a transition system, and its invariants |
| `ClusterLaws.dfy` | what the protocol promises over whole runs |
| `ClusterRuns.dfy` | runs of the protocol that exist, and what only a full mesh gives |
| `Periods.dfy` | what the leaders together send while leadership moves |
| `Leader.dfy` | the leader's fold over its workers' rotated caches |
| `Ingress.dfy` | buffering per source, flushing, choosing a worker |
| `Listeners.dfy` | the two UDP listeners |
| `SourceStream.dfy` | one source's bytes from the socket to the metric parser |
| `Leadership.dfy` | consensus state and leader flag under two threads |
| `Retry.dfy` | the retrying future |
| `Carbon.dfy` | chunks, value writing, the line protocol |
| `Aggregation.dfy` | the lines of a metric, and the three aggregation modes |

A metric is its kind and the samples it took in, in order. Merging appends the samples and is refused
exactly when the kinds differ, in which case the older metric stays as it is and an error is counted.
Samples are exact numbers. The metric parser is a parameter: from a buffer it yields some metrics and
consumes some of the front. Hash functions, poll schedules, answers of Raft and Consul, delivery
failures, the order in which a map yields its entries and the order in which messages arrive are left
open, so the results hold for all of them. Sums count one value under one name and are stated for every
name and value.

## Where the program departs from what is said about it

- A snapshot can reach a peer several times or never, because a retry repeats a delivery whose failure
  was only seen by the sender, a loss after the last byte is written is not seen at all, and delivery stops
  after three retries. `CopiesAreCounted` gives, for every number of copies from none to four, a run in which the
  peer ends up having counted a sample that often; `QuietRightIff` says exactly when the count is right.
- A node list is taken as it is: a node that lists itself or a peer twice makes data count twice, one it omits
  makes data missing (`ListedTwice` is such a run). `SettledCount` says how often each sample is counted, and
  `RightIffFullMesh` that the count is always right exactly for a full mesh.
- Two tiers equal one flat cache, peers and mixed kinds included, exactly under the condition of
  `TwoTierIsFlatIff`; `MixedKindsLose` and `PeersChangeKind` are runs outside it.
- The leader's total depends on which worker's cache arrives first as soon as two of them use a name under
  different kinds (`FirstArrivalWins`). `ArrivalOrderIff` and `ShardIndependenceIff` give the exact conditions.
- Pausing or disabling consensus is said to stop any influence on leadership, and consensus state and leadership
  are said to switch atomically (doc/consensus.md). A `switch_leader` call of the Raft thread that is past its
  check still stores afterwards (`RaftOvertakesCommand`), and Raft turns consensus on when its start delay is
  over, whatever was commanded before. `LateFlipIff` and `CommandLastsIff` say exactly when this can happen.
- The retry delay is computed from the base delay each time, so it never grows (`Wait`).
- An empty datagram ends an asynchronous listener and drops what it had buffered (`StatsdServer.Serve`).
- With fewer metrics than chunks the chunk size is zero, which the slice library rejects with a panic
  (`SplitMetrics` returns `None`, and exactly then).
- The startup guard keeps an update counter off its metric's own name (`StartupGuard`), not off the names
  of its statistics (`CounterTakesStatistic`, `GuardLetsCollide`).

## Model

| member | source | states |
|---|---|---|
| Metrics.AddAllContent | src/task.rs:41-52 | after any list of updates a cache holds, under each name, the kind that came first (or was there) and exactly that kind's samples in order |
| Metrics.AddAllCount | src/task.rs:41-52 | an update neither creates nor destroys samples: they are in the cache or among the refused |
| Metrics.TypedAddAll | src/task.rs:41-52 | with one kind per name nothing is refused and each name's samples are appended in order |
| TaskRunners.UpdateAll | src/task.rs:94-100 | adding a list entry by entry gives the specified cache and counts exactly the refused merges |
| TaskRunners.Drain | src/task.rs:105-108 | whatever order the map is drained in, the result is the name-by-name merge, and errors are the names with conflicting kinds |
| TaskRunners.TaskRunner.Run | src/task.rs:68-134 | each task changes the caches and buffers, answers its requester and counts errors as the specification says, and changes nothing else |
| TaskRunners.TaskConserves | src/task.rs:68-134 | for every worker and task, name and value: held before and brought is held after, handed out by a rotation or refused |
| TaskRunners.TaskSides | src/task.rs:93-124 | local data goes to the short cache alone and peer data to the long alone; a snapshot answers with all that is unshared and empties it, a rotation leaves it untouched |
| TaskRunners.RunConserves | src/task.rs:68-134 | over every run of a worker, whenever it is rotated, all that was brought is held, was handed out once or was refused |
| TaskRunners.ErrorsIff | src/task.rs:41-52 | a task counts no error exactly when no entry of it meets its name under another kind |
| TaskRunners.BufferAge | src/task.rs:74-84 | over every run a parse buffer exists exactly while fewer than five rotations passed since its last data, and its counter is that number |
| TaskRunners.ParserSeesStream | src/task.rs:70-92 | over every run the parser is shown its source's stream from where it stopped, without gap or repetition |
| TwoTier.ShortIsUnshared | src/task.rs:93-116 | over every run, whatever the kinds, the short cache is what came in locally since the last snapshot |
| TwoTier.TwoTierRefinesFlat | src/task.rs:93-130 | over every run that uses each name under one kind since the last rotation, long merged with short is the flat cache of the period, up to sample order |
| TwoTier.TwoTierIsFlat | src/task.rs:93-130 | without peer snapshots it is the flat cache sample for sample |
| TwoTier.PeersReorder | src/task.rs:97-100 | a peer snapshot does change the sample order, so the reordering cannot be ruled out |
| TwoTier.TieredAgainstFlat | src/task.rs:101-108 | gathering in rounds keeps the flat cache's kind and falls short of it by exactly the samples of that kind in rounds opened by another kind |
| TwoTier.TwoTierIsFlatIff | src/task.rs:93-130 | for every run, whatever the peers and kinds, the two tiers are the flat cache up to sample order if and only if for every name the first kind to reach a round is the first that came and no round opened by another kind received samples of it |
| TwoTier.TwoTierIsFlatExactlyIff | src/task.rs:93-130 | without peer snapshots they are the flat cache sample for sample under that condition of the rounds, and only then |
| TwoTier.MixedKindsLose | src/task.rs:41-52 | the run counter, snapshot, gauge, counter holds one counter sample where the flat cache holds two |
| TwoTier.PeersChangeKind | src/task.rs:97-100 | the run gauge, peer's counter holds a counter where the flat cache holds a gauge |
| Snapshots.Flatten | src/peer.rs:287-303 | the message has exactly the counted length and each slot is written once, with one entry of one cache |
| Snapshots.RetainFull | src/peer.rs:218-221 | only the empty caches are left out |
| Snapshots.RetainOnlyFull | src/peer.rs:218-221 | what is kept are exactly the caches that are not empty |
| Snapshots.Decode | src/peer.rs:159-165 | the slots that decode are pushed in order and the others skipped |
| Snapshots.AllDecode | src/peer.rs:159-165 | as many metrics as slots come out exactly when every slot decodes, and then they are the list that was written |
| Snapshots.SnapshotRoundTrip | src/peer.rs:159-165 | adding a flattened snapshot, in any map order and with any kinds, equals pouring in each worker's cache, repeated names included |
| Snapshots.SnapshotSamples | src/task.rs:97-100 | with one kind per name the peer's samples for a name grow by what each worker held, in worker order |
| Snapshots.RetainSame | src/peer.rs:218-221 | leaving out empty caches changes nothing at the peer |
| Snapshots.Transfer | src/peer.rs:218-303 | from the workers' answers to the peer's long cache: the long cache ends as the merge of all the answers |
| Clusters.IngestKeeps | src/task.rs:70-96 | local data goes to the short side only, or is refused there |
| Clusters.RotateKeeps | src/task.rs:117-124 | a rotation moves the long cache out and touches nothing unshared |
| Clusters.AnswerKeeps | src/task.rs:101-116 | a snapshot moves exactly the short cache to the long side, to the round and to the record of shared data |
| Clusters.AcceptKeeps | src/task.rs:97-100 | peer data goes to the long side only, or is refused there |
| Clusters.PublishKeeps | src/peer.rs:213-241 | a finished round becomes one flight for each entry of the node's list, repeated entries included, carrying all its answers |
| Clusters.DeliverKeeps | src/peer.rs:130-172 | a delivery is one more copy at the peer, whether or not the sender learns of it |
| Clusters.FailKeeps | src/peer.rs:232-237 | an attempt that does not reach the peer changes no data, whether or not the sender notices |
| Clusters.GivenUpAfterFour | src/peer.rs:232-237 | a published snapshot is retried after each of three failures the sender saw and given up with the fourth, not before |
| Clusters.RunInvariant | src/peer.rs:200-241 | in every state of every run: whatever the node lists: one snapshot per sample at its origin, as many flights of it to a node as that node is listed, and a long side made of own snapshots and delivered copies only |
| ClusterLaws.ListedConservation | src/peer.rs:200-241 | in every state of every run, at every node and whatever the node lists: accounted for and undelivered add up to what the node shared itself, what each node published times its listings of this one, and repeated deliveries |
| ClusterLaws.Conservation | src/peer.rs:200-241 | in every state of every run in a full mesh, at every node: accounted for, kept back, in others' rounds and undelivered add up to all that was taken in anywhere plus repeated deliveries |
| ClusterLaws.NoEcho | src/task.rs:97-100 | nothing in any snapshot under way exceeds what its sender took in itself: peer data is never sent on |
| ClusterLaws.EachSampleOnce | src/peer.rs:223-241 | each sample a node took in and did not refuse is unshared, in its open round, or in exactly one flight to each node listed once |
| ClusterLaws.AtMostFourCopies | src/peer.rs:232-237 | no snapshot is delivered to a peer more than four times |
| ClusterLaws.SnapshotsAreWhole | src/peer.rs:213-221 | in every run a snapshot goes out only with the answer of every worker in it |
| ClusterLaws.RunFlightsFull | src/peer.rs:218-221 | in every run no snapshot under way carries an empty cache |
| ClusterLaws.RunTyped | src/task.rs:41-52 | with one kind per name no cache in the cluster has refused anything |
| ClusterLaws.ReliableConservation | src/peer.rs:200-241 | in a full mesh with one kind per name and no repeated delivery to a node, what it holds, rotated out and is owed is exactly what was taken in anywhere |
| ClusterLaws.QuietRightIff | src/peer.rs:200-241 | in a full mesh with one kind per name in which nothing waits, a node has counted all that was taken in if and only if what did not arrive there and what arrived again come to the same |
| ClusterLaws.SettledCountsAll | src/peer.rs:200-241 | once nothing is under way in a full mesh, every node has counted every sample taken in anywhere, as often as it was taken in |
| ClusterLaws.SettledNodesAgree | README.md:12-13 | so all nodes carry the same totals, whichever leads |
| Periods.PeriodSent | src/main.rs:357-415 | between two settled moments with everything rotated out, the leaders send what was taken in anywhere as often as there are leaders |
| Periods.LeadersSendAll | README.md:12-13 | however leadership moves from period to period, with one leader in each the leaders together send exactly what was taken in |
| ClusterLaws.QuietCount | src/peer.rs:223-241 | in any cluster in which nothing waits, each node has counted what each node took in as often as that node lists it, its own once more, less what did not arrive, plus what arrived again |
| ClusterLaws.SettledCount | src/peer.rs:223-241 | so in any settled cluster the lists alone say how often a sample is counted |
| ClusterRuns.CopiesRun | src/peer.rs:200-241 | from any start with workers at every node, what one node takes in can go through ingest, round, flights and inboxes with any number of failures the sender saw and then any number of copies, four attempts in all |
| ClusterRuns.CopiesCounted | src/peer.rs:223-241 | and then each node has counted it that many times for each time the sender lists it, and the sender once more |
| ClusterRuns.CopiesAreCounted | src/peer.rs:232-237 | two nodes that list each other: for each number of copies from none to four a quiet run in which the second node counted the sample that often |
| ClusterRuns.FourthAttemptCounts | src/peer.rs:232-237 | from any start there is a run in which three attempts fail, the fourth arrives, and every node ends up right |
| ClusterRuns.ListedTwice | src/peer.rs:226-241 | a list that names a peer twice: a settled run with the sample counted twice |
| ClusterRuns.RightIffFullMesh | examples/cluster.toml:60-62 | for any nodes, workers and lists: every node counts everything right in every settled run with one kind per name if and only if each node lists every other once and itself never |
| Leader.Accumulate | src/aggregate.rs:78-92 | the fold gives the merge of the arrived caches, in any order within each map, and counts the conflicts |
| Leader.RotatedIsBothTiers | src/task.rs:101-124 | a snapshot followed by a rotation hands out both tiers |
| Leader.ArrivalOrder | src/aggregate.rs:62-92 | when no two workers' caches hold a name under different kinds, the order in which they arrive does not change names, kinds or samples |
| Leader.ArrivalOrderIff | src/aggregate.rs:78-92 | and all orders give the same only then |
| Leader.NoErrorsIff | src/aggregate.rs:82-88 | the fold counts no error exactly when no name is held under different kinds |
| Leader.FirstArrivalWins | src/aggregate.rs:82-88 | a counter and a gauge of one name: whichever arrives first is what the leader sends |
| Leader.ShardsPartition | src/server.rs:113-123 | splitting entries among workers in any way neither loses nor repeats any, by whatever measure |
| Leader.ShardIndependence | src/aggregate.rs:62-92 | with one kind per name, for any assignment to any number of workers, any batching, any snapshots in between and any arrival order, the leader accumulates the flat cache of all entries |
| Leader.ShardIndependenceIff | src/aggregate.rs:62-92 | with any kinds, it does so in every arrival order if and only if every worker's rounds give each name the kind it had first among all entries and lose none of it |
| Ingress.StreamConservation | src/server.rs:88-166 | over every run, for every source, what was handed out followed by what is held is what it sent |
| Ingress.SentSplit | src/server.rs:87-99 | every datagram adds its bytes to its own source's stream, in its place, and to no other |
| Ingress.HandedOutWhenDue | src/server.rs:101-133 | a flush or a full load hands out everything of every source, and nothing is handed out otherwise |
| Ingress.BoundedBuffering | src/server.rs:88-166 | after every wake-up the counter is the number of bytes held, and the map is empty or below the flush length |
| Ingress.RunRouted | src/server.rs:107-133 | the choices of a whole run continue one another across flushes |
| Ingress.KeysAreHashes | src/server.rs:110-126 | in either mode, over every run, a buffer goes out under the hash of its source, to a worker there is |
| Ingress.ConsistentRouting | src/server.rs:110-116 | with consistent parsing one source always goes to one worker, in range, under one key |
| Ingress.Fairness | src/server.rs:116-123 | with round robin, from any start, all choices are in range and the workers' shares differ by at most one |
| Listeners.HandOut | src/server.rs:107-133 | the drain hands out every buffer once and picks the workers as specified, in any map order |
| Listeners.StatsdServer.OnDatagram | src/server.rs:82-167 | an empty datagram stops the listener and drops its buffers; any other is one step that keeps the bound |
| Listeners.StatsdServer.Serve | src/server.rs:79-170 | the listener survives a stream of datagrams if and only if none is empty, and up to the first empty one it is a run of steps |
| Listeners.RowInside | src/udp.rs:110-143 | every row of the receive matrix lies inside the allocation |
| Listeners.RowsDisjoint | src/udp.rs:133-143 | rows do not overlap |
| Listeners.MultiListener.ReadOut | src/udp.rs:180-202 | each copied slice is in bounds and is its own message's, and exactly the used address slots are cleared |
| Listeners.MultiListener.OnReceive | src/udp.rs:161-249 | a receive call with messages is one step on that batch that keeps the bound; one without changes nothing |
| SourceStream.KeyBytes | src/task.rs:70-92 | over every run all that arrived under a key was consumed by the parser, dropped with its buffer or is buffered |
| SourceStream.KeyReachesParser | src/task.rs:70-92 | drops and shared keys included, what a worker was handed under a key is what came for dropped buffers, then what the parser consumed, then what is buffered, then what is in its channel |
| SourceStream.WorkerParsesShare | src/server.rs:107-126 | in either mode a worker has under a source's key its share of that source if and only if it was handed nothing under the key for another, and the shares of all workers and what is held add up to what was sent |
| SourceStream.SourceReachesParser | src/server.rs:107-123 | with consistent parsing, at any moment, what a source sent is that and then what the listener holds, if and only if nothing was handed out under its key for another source |
| Leadership.RunsAreSound | src/main.rs:252-291 | in every state of every run from startup only a running Raft thread is inside a call and only Consul has a request out |
| Leadership.StartupHolds | src/main.rs:247-298 | without commands consensus is off, or as configured for Consul, until Raft starts, and the flag is as configured until a call or an answer stores |
| Leadership.ArmedRunsOut | src/util.rs:113-126 | in every interleaving with consensus off no call becomes armed, and the one that was changes the flag at most once |
| Leadership.OnlyCommandsLead | src/management.rs:161-180 | with none armed only management leader actions change the flag |
| Leadership.FlagIsCommanded | src/management.rs:172-180 | the flag then is what the last leader action said |
| Leadership.DisabledStopsAsking | src/consul.rs:172-206 | while disabled only the lock request that was out can still be answered, once |
| Leadership.CommandGates | src/management.rs:163-170 | after a command Consul is asked unless it disabled, and its answer reaches the flag only if it enabled or resumed |
| Leadership.LateFlipIff | src/util.rs:113-126 | with consensus off it can still flip the flag if and only if a call armed to the other value is left or Raft has yet to start |
| Leadership.CommandLastsIff | src/management.rs:161-180 | over every run until the next command both cells stay as a command said if and only if: turning consensus off, no call was armed to the other value and Raft was not yet to start; turning it on, nothing is configured to choose |
| Leadership.RaftOvertakesCommand | src/main.rs:253-275 | a run from startup that ends leading with consensus disabled after a command to disable and follow |
| Leadership.FlagTracksRaft | src/raft.rs:30-40 | for every chain of notifications and every pattern of pauses, the flag tells the Raft state exactly by the parity of crossings missed |
| Leadership.RunFollows | src/raft.rs:30-40 | over every run of the two threads in which no command touches the flag, the flag once its call has stored is what following the chain of notifications call by call gives |
| Leadership.RunTracksRaft | src/raft.rs:30-40 | so the parity law holds of every such run with no call under way |
| Leadership.AlwaysEnabledTracks | src/raft.rs:30-40 | never paused, the flag is right from the first crossing on, and before it exactly if it was right at the start |
| Leadership.NotificationIsSwitch | src/raft.rs:31-39 | a notification run to its end is a check and, when let through, a store of the interleaved model |
| Leadership.FlagIsLastDecision | src/consul.rs:400-419 | without a Raft thread, over every run the flag is the last leader action or answer found while enabled, whichever came later |
| Leadership.Cells.SwitchLeader | src/util.rs:113-126 | the flag becomes the argument exactly when consensus is enabled |
| Leadership.Cells.StateChanged | src/raft.rs:31-39 | only gaining or losing Raft leadership reaches the flag |
| Leadership.Cells.PostConsensus | src/management.rs:161-180 | run undisturbed, the handler is the two command steps of the interleaved model, and what it sets lasts under a running Raft exactly when it turns consensus off |
| Leadership.Cells.FollowRaft | src/raft.rs:30-40 | a chain of notifications computes the flag the tracking law speaks of |
| Retry.WaitCapped | src/util.rs:278-279 | the wait is the scaled delay cut to whole units and to the cap |
| Retry.VerdictUnique | src/util.rs:249-286 | there is one verdict on a series of attempts, and it is an error exactly when all within the budget fail |
| Retry.SettlerSettles | src/util.rs:255-267 | the settling attempt is the first that succeeds or the last of the budget |
| Retry.BackoffRetry.DoPoll | src/util.rs:249-286 | a poll settles, with the verdict, exactly when everything up to the settling attempt is ready; otherwise it stops at the first turn that is not, having used the turns before it |
| Retry.PollSeries | src/util.rs:249-286 | under every series of poll schedules the future ends in an error if and only if the schedules are ready for long enough and all retries + 1 attempts fail, at most that many attempts start, and every wait is the same and within the cap |
| Retry.FairPollsSettle | src/util.rs:249-286 | polls that each find something ready settle it after at most one poll for each turn needed, two per retry, and one more |
| Carbon.PiecesWhole | src/main.rs:388-389 | pieces join to the list, none is empty or oversized, and there are as few as the size allows |
| Carbon.SplitMetrics | src/main.rs:383-390 | there is a split exactly when there is a metric and there are at least as many as configured chunks; configured as zero it is one piece, else between chunks and 2 * chunks - 1 non-empty pieces, all but the last of metrics / chunks elements, that join to the list |
| Carbon.ChunkBoundReached | src/main.rs:383-390 | the upper bound is reached for every chunk count |
| Carbon.WriteValues | src/carbon.rs:38-54 | the lines are those of the longest beginning of the chunk whose texts fit into 200 bytes each together, every value with its own text, and all the rest are errors |
| Carbon.ShortTextsFit | src/carbon.rs:38-54 | so texts of at most 200 bytes are never dropped |
| Carbon.SharedIter.Next | src/carbon.rs:102-109 | yields the elements in order and then nothing |
| Carbon.Attempt | src/carbon.rs:77-85 | each delivery attempt emits the encoding of the whole list from its first line |
| Carbon.EncodedLines | src/carbon.rs:134-144 | two lines byte by byte: name, value and time with a space between and a line end after |
| Carbon.RoundTripIff | src/carbon.rs:134-144 | a reader gets back the list sent if and only if no name or value holds a space and no time holds a line end |
| Carbon.RoundTripByLinesIff | src/carbon.rs:134-144 | a reader that works by lines does so if and only if, besides, no name or value holds a line end |
| Carbon.UniquelyDecodable | src/carbon.rs:134-144 | the bytes of such lines determine the lines |
| Carbon.SpaceIsAmbiguous | src/carbon.rs:134-144 | a space in a name makes two different lines encode alike |
| Aggregation.CounterNameIff | src/task.rs:149-163 | an update counter takes its metric's own name exactly when prefix and suffix are empty |
| Aggregation.CounterNameParts | src/task.rs:149-163 | prefix and suffix, where given, are each set off by a dot |
| Aggregation.StartupIff | src/main.rs:176-179 | updates are counted, with the options as configured, exactly when asked for and a prefix or suffix is given |
| Aggregation.StartupGuard | src/main.rs:176-179 | under the startup guard it never does |
| Aggregation.CounterTakesStatistic | src/task.rs:149-163 | for any prefix and suffix, the counter takes a statistic's name exactly when there is no prefix and that statistic's suffix is the dotted counter suffix, or the name cycles through the dotted prefix and the suffix goes on where it breaks off |
| Aggregation.GuardLetsCollide | src/main.rs:176-179 | any metric counted under its own name as prefix takes the name of its statistic of that name and passes the startup guard |
| Aggregation.AggregateTask | src/task.rs:145-193 | one line per statistic, in order, with that statistic's suffix and value; one more, the update counter with the number of updates, exactly when counting is on and the updates exceed the threshold |
| Aggregation.Single | src/aggregate.rs:98-110 | emits every line of every metric as often as the metrics give it, and no other |
| Aggregation.Distribute | src/aggregate.rs:117-123 | the metrics are dealt in turn: every line is queued as often as it is owed, and no two workers' queues differ by more than one |
| Aggregation.Common | src/aggregate.rs:111-126 | the same, with metrics dealt to worker queues and the workers interleaved in any way |
| Aggregation.Separate | src/aggregate.rs:127-141 | the same, with any metric started and any computed line sent at any moment |
| Aggregation.ModesAgree | doc/aggregation.md:1-28 | so all modes emit the same bag of lines for the same cache |

## Left out

- The `bioyino-metric` crate: parsing, what a metric computes from its samples, the Cap'n Proto form of a metric.
- Floating point rounding: samples and delays are exact numbers.
- Sockets, `recvmmsg` itself, timers, the executor and channel capacities: only what they deliver is modelled, at any time.
- `Snapshots.Flatten`: message slots are numbered without bound; the source numbers them with 32 bits, so the result is for fewer than 2^32 entries.
- `Clusters`: nodes that crash or join and listed addresses at which no node answers are not modelled. A snapshot may go to any worker of the peer, where the source starts each connection at the first. A snapshot round that fails because a worker thread died is not modelled.
- `Listeners.MultiListener.OnReceive`: a full channel makes the source drop a handed-out buffer; a buffer counts as handed out here whether or not the channel takes it.
- `Aggregation.Single`, `Common`, `Separate`: sends to the backend channel succeed.
- `SourceStream.SourceReachesParser`: one listener; several listener threads that share a source's packets keep their own order each, and nothing is said of how these interleave.
- `Carbon.WriteValues`: the number writer is taken to write each number's text in full or up to the end of the room; the `ftoa` crate is not part of this model, so neither is whether a text ever exceeds its room (`ShortTextsFit` says what follows if none does).
- `Periods.LeadersSendAll`: leadership moves at settled moments only; what is sent when it moves while data is under way is not stated.
- Raft and the Consul lock themselves, and whether at most one node leads.
- Own statistics, configuration, logging, name resolution, the management client, the non-leader's discarding of rotated caches.
