# A verified model of the leased, cost-gated work queue

The repository implements one contract three times (`internal/queue/backend.go`): a queue of work
units, each a FIFO of tasks that may only be claimed once its summed cost reaches a threshold or its
head has waited long enough. A claim is a lease. One worker drains, processes and acknowledges a
leased unit; heartbeats extend the lease, failures count towards a dead-letter queue, and a reaper
takes back leases that ran out. The in-memory backend is the oracle; the Valkey and Postgres drivers
are meant to agree with it.

This project models all three, the worker loop that drives them and the routing over shards, and
proves what the contract is for: tasks of a key are processed in arrival order, each arrival ends in
exactly one place, a lost lease stays lost, nothing is handed out before its time, and each driver
step is a step of the oracle. Where one is not, or a comment promises what the code does not do, the
project gives the exact condition and a run that shows it.

## How it is built

- `Contract`, `Oracle`, `Invariant`: the contract as a state machine on values, and what every
  operation keeps of every unit.
- `History`, `Safety`: arbitrary clients in any order, the history a run leaves, and the theorems about
  whole runs. Arrivals are named by their position, because an emptied unit restarts its numbers.
- `Retries`: what the retry counter counts, over every run.
- `Workers`: any number of workers as a protocol over the queue, with crashes and with workers that
  lost their lease and go on processing. `Attendance`: who stands behind a lease. `WorkerLoop`: the loop
  itself, run against the in-memory class.
- `MemoryBackend`, `Tokens`: the in-memory backend as classes updated in place, each method proved
  against the oracle; lease tokens.
- `Streams`, `ShardState`, `SlotSteps`, `ShardSteps`, `ShardRuns`, `ValkeyShard`, `Straddle`: a Valkey
  shard. `Streams` holds the stream commands, the paged scan and the three-trip drain. `ShardSteps`
  gives each script as a function on the keyspace and proves it simulates the oracle; `ShardRuns` does
  so for whole runs; the class in `ValkeyShard` runs the scripts command by command and is proved equal
  to those functions. `Straddle` and `Expiry` hold the runs that part ways with the oracle.
- `Callbacks`, `ShardWorkers`: the worker loop run against a Valkey shard, script by script and with the three
  trips of a drain as steps of their own. `Trips` says what the three trips bring together; `Gaps` where a batch
  with a gap comes from and what it costs.
- `Sums`, `PostgresRows`, `PostgresTables`, `PostgresRuns`, `PostgresShard`: the two tables as flat
  relations, laid out the same way; `PostgresRecords` says what live and dead rows record over every run, and
  `PostgresTrace` holds the runs that part ways.
- `Sharding`, `ClusterRuns`, `PostgresCluster`, `Members`: routing by workspace, whole runs over all shards,
  the same with Postgres tables as the shards, and Valkey's member names.

Costs and thresholds are positive, worker ids are not empty and the clock does not go back. The hash of
a workspace is an arbitrary function. Clock readings, tokens drawn at random and the choice among
equals are parameters or nondeterministic. One script, statement or transaction is one atomic step; the
operations that take several are named under Left out.

## Where the code and its comments or the oracle part ways

- `internal/valkey/scripts.go:46-47` says a unit is indexed into one of two sets; the enqueue at lines
  61-68 leaves a free unit that the flush sweep promoted, and that is still below threshold, in both.
  `ShardSteps.EnqueueSimulates` shows that this is the only way an enqueue breaks the index, and
  `ShardRuns.StepFollows` exactly which steps are then no longer the oracle's: popping a unit that is
  leased, and parking one that was ready while it was leased. `Straddle.DoubleClaim` is a run from an empty
  shard to a step of the first kind, two holders before the first lease ends; `Straddle.EarlyClaim` to one of
  the second, after which a unit is handed out below threshold and before its time. `ShardRuns.TidyRuns` shows
  that without such an enqueue neither happens.
- `internal/valkey/backend.go:165-170` says a lease lost in the middle of a drain costs wasted work only, never
  the order. `Streams.SplitBatchGap` says exactly when a foreign read between the two reads leaves a gap in the
  batch, and `Streams.SplitBatchLoses` that just then acknowledging the batch deletes tasks nobody in it saw.
  `Trips.TripsAnswer` shows that trips during which nobody else touches the member's stream answer as one drain.
  `Gaps.GapLosesTask` is such a run of two workers from an empty shard: the second task is given to a callback
  and the first, which never is, is deleted. `ShardWorkers.CallbacksFollowArrivals` and
  `ShardWorkers.NothingIsLost` hold of every run without a gap, and `Gaps.HeldReadsAreGapless` shows that there
  is none as long as no worker is given new entries after its lease was lost.
- Lease expiry is inclusive in Valkey (`internal/valkey/scripts.go:267`) and strict elsewhere:
  `ShardSteps.ReapSimulates` matches a sweep at `now` with the oracle's for leases ended before `now + 1`,
  `Safety.InclusiveSweep` shows that this makes a difference if and only if a lease ends at just that
  instant, and `Expiry.TakenAtTheEnd` is a run in which it does.
- `attempts` is described as the failures of the present head, and a dead letter as a task that exhausted
  its retry budget (`internal/memory/backend.go:31-34`); but a failure reported for any task is counted
  (`internal/memory/backend.go:225`), in Valkey as well. `Retries.CounterCountsAll` shows that the counter is
  the number of all failures since it was last zeroed, which is the head's own if and only if no other task
  was named; `Retries.BurialAtOwnCap` that a buried task itself failed at most as often as the cap since the
  counter was last zeroed, and that often if and only if the first failures up to the cap were all its own.
  `Retries.BuriedAtFirstFailure` is, for every cap above one, a run that buries a head the first time it fails;
  `Retries.BuriedAfterMore`, for every cap and any number, one that buries a task after that many failures more
  than the cap, since those from before it was the head were forgotten.
- Any acknowledgement under a held lease zeroes that counter, also one that covers nothing
  (`internal/memory/backend.go:165`, `internal/valkey/scripts.go:136`), which no worker of the repository sends.
  `Retries.NeverBuried` is, for every cap above one and any number, a run in which the head fails that often and
  is not buried. `Retries.HeadBuriedInTime` shows that a head whose counted failures reach the cap always is.
- Postgres counts failures per task, the oracle per unit; and a Postgres heartbeat rewrites the renewal
  window. `PostgresRuns.StepAgrees` gives the exact condition under which a step is the oracle's own, and
  `PostgresTrace.Departures` runs from empty tables to a heartbeat, a failure and an acknowledgement that
  are not.
- Postgres keeps an emptied unit's row, so its numbers go on where the oracle's restart.
  `PostgresRuns.TasksAreUnsettled` shows that they are exactly the arrival indices.
- A claim is said to lease the eligible unit of lowest flush deadline (`internal/queue/backend.go:22`); over
  several shards it leases the lowest of the first shard that has any (`internal/postgres/backend.go:159-162`).
  `Sharding.FairExactly` says exactly when that is the lowest of all, and `ClusterRuns.OutOfTurn` is a run in
  which it is not.

## Model

| member | source | states |
|---|---|---|
| Tokens.MemoryTokenInjective | internal/memory/backend.go:116-117 | two in-memory tokens are equal only if worker and counter are, dashes in worker ids included |
| Tokens.ValkeyTokenInjective | internal/valkey/backend.go:131 | two Valkey tokens are equal only if worker and counter are |
| Tokens.TokenNamesWorker | internal/valkey/backend.go:131 | the worker can be read back from a token, which is why scripts may compare tokens alone |
| Tokens.DecimalReads | internal/memory/backend.go:117 | the counter in a token is written in decimal digits that stand for it, without leading zeros |
| Invariant.CoveredExact | internal/memory/backend.go:157-161 | with contiguous numbers the prefix loop stops exactly past the tasks numbered at most through |
| Invariant.DropKeeps | internal/memory/backend.go:183-193 | taking any proper prefix off and recomputing re-establishes sums, contiguous numbers, head times and the gate of the new head |
| Invariant.EnqueueKeeps | internal/memory/backend.go:74-96 | enqueueing keeps the invariant of every unit |
| Invariant.AckKeepsAll | internal/memory/backend.go:150-181 | acknowledging through any number keeps the invariant of every unit |
| Invariant.FailKeepsAll | internal/memory/backend.go:218-243 | failing any sequence number keeps the invariant of every unit |
| Invariant.ReapKeeps | internal/memory/backend.go:245-262 | a sweep at any time keeps the invariant of every unit |
| MemoryBackend.BestIsOldest | internal/memory/backend.go:101-112 | the unit handed out is one of least flush deadline |
| MemoryBackend.BestIsUnique | internal/memory/backend.go:101-112 | the unit handed out does not depend on map iteration order when keys render distinctly |
| MemoryBackend.BeforeFirst | internal/memory/backend.go:109 | strings are compared where they first differ, the lesser character or the end first |
| MemoryBackend.RenderJoins | internal/queue/types.go:19-21 | a key renders as workspace, session and peer with a slash between each two |
| MemoryBackend.TieGoesToLesser | internal/memory/backend.go:101-112 | of two claimable units of one deadline the one rendered lesser is handed out, never the other |
| MemoryBackend.WorkUnit.Append | internal/memory/backend.go:82-94 | one unit's enqueue in place: the two parallel slices, the cost, the flush clock of an empty unit and the gate |
| MemoryBackend.WorkUnit.DropThrough | internal/memory/backend.go:157-165 | the prefix loop removes the covered prefix and subtracts exactly its cost |
| MemoryBackend.WorkUnit.Settle | internal/memory/backend.go:157-180 | acknowledge one unit: emptied, kept and renewed, or re-buffered |
| MemoryBackend.WorkUnit.CountFailure | internal/memory/backend.go:225-241 | one more failure; at the cap the head, and only the head, leaves the queue |
| MemoryBackend.WorkUnit.Sweep | internal/memory/backend.go:250-259 | one unit's share of a sweep, and whether it was reclaimed or flushed |
| MemoryBackend.Backend.constructor | internal/memory/backend.go:60-70 | an empty queue with the retry cap defaulted, for any options |
| MemoryBackend.Backend.Enqueue | internal/memory/backend.go:74-96 | the oracle's enqueue and the sequence number it assigned |
| MemoryBackend.Backend.Pick | internal/memory/backend.go:101-112 | iterating in any order finds a claimable unit of least deadline and least rendered key, or there is none |
| MemoryBackend.Backend.Claim | internal/memory/backend.go:98-123 | the best unit is leased under a token of worker and next counter, never issued before, or nothing is claimable |
| MemoryBackend.Backend.HeldUnit | internal/memory/backend.go:126-132 | the lease check succeeds exactly when worker and token still match |
| MemoryBackend.Backend.Drain | internal/memory/backend.go:134-148 | the first tasks of the unit, in order, or the lease is lost |
| MemoryBackend.Backend.Ack | internal/memory/backend.go:150-181 | the oracle's acknowledgement and whether the unit is still held |
| MemoryBackend.Backend.Release | internal/memory/backend.go:195-205 | the lease is given up exactly when it was held |
| MemoryBackend.Backend.Heartbeat | internal/memory/backend.go:207-216 | the lease end moves, the renewal window does not |
| MemoryBackend.Backend.Fail | internal/memory/backend.go:218-243 | the oracle's failure step, dead letter included |
| MemoryBackend.Backend.ReapExpired | internal/memory/backend.go:245-262 | for any iteration order the oracle's sweep, and counts that are the numbers of units reclaimed and flushed |
| History.StepHistory | internal/memory/backend.go:74-262 | every operation keeps: pending is the unsettled tail of the arrivals, settled in order, dead letters the arrivals logged dead |
| History.RunHistory | internal/memory/backend.go:74-262 | so does every run of every client behaviour |
| Safety.Conservation | internal/memory/backend.go:150-181 | each arrival is pending at its own place or was settled by exactly one event |
| Safety.OnlyHeadsSettle | internal/memory/backend.go:226-238 | only a head is ever acknowledged or dead-lettered; a key's dead letters are its dead arrivals in order |
| Safety.LostForever | internal/memory/backend.go:116-132 | a lease once lost is never regained over any run, deletion and revival of the unit included |
| Safety.ClaimsAreGatedAndFair | internal/memory/backend.go:98-112 | a unit that may be handed out is at threshold or its present head has aged; it has the least deadline if and only if no claimable unit's head arrived earlier |
| Safety.ReachableUnits | internal/memory/backend.go:166-193 | in every reachable state units are not empty, costs are sums, numbers are contiguous, head times are the head's, leased units are eligible |
| Safety.SweepIsComplete | internal/memory/backend.go:245-262 | after a sweep nothing expired or due is left, exactly the counted units changed, and a second sweep finds nothing |
| Safety.InclusiveSweep | internal/valkey/scripts.go:267 | taking leases back at their last instant differs from waiting for the next one if and only if a lease ends at just that instant |
| Retries.CounterCountsAll | internal/memory/backend.go:225-229 | over every run the counter is the number of failures named since it was last zeroed; it bounds the head's own, and equals them if and only if no other arrival was named |
| Retries.BurialAtOwnCap | internal/memory/backend.go:225-238 | since the counter was last zeroed, a buried task failed at most as often as the cap, and that often if and only if the first failures up to the cap all named it; these are all it ever had if and only if it was not named before |
| Retries.PlaceIsArrival | internal/memory/backend.go:226 | the arrival a failure is counted for is the pending one that carries the sequence number it names |
| Retries.OwnOverall | internal/memory/backend.go:165-241 | over every run all failures of an arrival are those still counted and those from before the counter was last zeroed; the two counts agree if and only if it was not named before |
| Retries.HeadBuriedInTime | internal/memory/backend.go:225-238 | after every run a head's own counted failures are fewer than the cap, the one that makes them as many buries it, and a failure of the head buries it if and only if all counted ones reach the cap |
| Retries.BuriedAtFirstFailure | internal/memory/backend.go:225-238 | for every cap above one some run from the start buries a head at the first failure it ever had, the whole run counted |
| Retries.BuriedAfterMore | internal/memory/backend.go:165 | for every cap and every n some run from the start buries a task at its failure number cap + n, the whole run counted |
| Retries.NeverBuried | internal/memory/backend.go:165 | for every cap above one and every n some run from the start has the head fail n times and leaves it the head, nothing buried |
| Workers.ActKeeps | internal/queue/worker.go:106-164 | every action of every worker keeps the system invariant, also a look at the queue after the lease was lost |
| Workers.ProcessingFollowsArrivals | internal/queue/worker.go:106-147 | whatever is processed, all earlier arrivals of its key were processed or dead-lettered before; whatever is acknowledged was processed before |
| Workers.ProcessedIsInitialSegment | internal/queue/worker.go:106-147 | without dead letters the processed arrivals of a key are an initial segment |
| Workers.ProcessedTaskIsTheArrival | internal/queue/worker.go:117-133 | the task a worker works on is the arrival the log names |
| Workers.HoldersAreExclusive | internal/queue/worker.go:106-147 | at most one worker holds a unit, and its batch starts at the unit's head |
| Attendance.LeasesAreAttended | internal/queue/worker.go:106-147 | over every run a unit's lease has a worker that holds it and is not done with it, unless the worker it was granted to crashed: every other way out of the loop gives the lease up or finds it gone |
| WorkerLoop.SessionDrains | internal/queue/worker.go:117-123 | under a held lease a drained batch is the next run of the queue, as long as was asked for or as there is, and not empty |
| WorkerLoop.SessionAcks | internal/queue/worker.go:135-145 | acknowledging a batch settles exactly it, and keeps the lease if what is left is at the threshold or its head has aged, and only then; otherwise it ends the session |
| WorkerLoop.Process | internal/queue/worker.go:128-133 | the loop over a batch hands the callback each of its tasks once, in order, whatever heartbeats come between |
| WorkerLoop.RunOnce | internal/queue/worker.go:106-147 | one pass, also after sweeps ahead of the clock, ends; its only calls beside the claim are acknowledgements and heartbeats by the length of the lease under that claim; it has handed the callback a prefix in order, each task once, of as many tasks as a multiple of the batch size or the whole queue; at each earlier end of a batch what was left was due when acknowledged, and at the last it is not; and it leaves the unit deleted or free, below threshold and not aged |
| Streams.ScanPel | internal/valkey/scripts.go:98-133 | for every depth and page size the scan that deletes what it pages over ends, removes exactly the delivered entries numbered at most through, and sums exactly their cost and count |
| Streams.ScanIsPrefix | internal/valkey/scripts.go:85-91 | on a live stream what it removes is the covered prefix of the delivered entries |
| Streams.DrainIsPrefix | internal/valkey/backend.go:161-202 | an uninterrupted drain returns exactly the first live entries in order, delivers these and no others, and keeps delivered before undelivered |
| Streams.SplitBatchGap | internal/valkey/backend.go:171-199 | with a foreign read in between the batch is still a prefix if and only if the orphans filled it, the read asked for nothing or it took all |
| Streams.SplitBatchLoses | internal/valkey/backend.go:171-199 | acknowledging the batch takes off entries it never held if and only if there is a gap: without one as many as it has, with one every stolen entry, none of which is in it |
| SlotSteps.CoveredDelivered | internal/valkey/scripts.go:97-133 | an acknowledgement covers what the oracle's does through the lesser of its number and the last one delivered |
| SlotSteps.EnqueuedMore | internal/valkey/scripts.go:53-68 | an enqueue to a live member shows the pushed unit, and keeps it in one set unless it straddles |
| SlotSteps.ReleasedMirrors | internal/valkey/scripts.go:171-186 | a unit leased while due is put back into the ready set, by the clock or by the lease's own end |
| SlotSteps.AckedMirrors | internal/valkey/scripts.go:134-161 | what the script leaves of a leased member is what the oracle leaves of the unit, unless the member was ready as well and is parked |
| SlotSteps.FailedMirrors | internal/valkey/scripts.go:213-256 | the same for a failure, whether or not the head was delivered |
| SlotSteps.ReapedMirrors | internal/valkey/scripts.go:267-288 | inclusive expiry is the oracle's strict one, one millisecond later; lapsed and due are expired and flushable |
| ShardState.IndexPartition | internal/valkey/scripts.go:17-20 | the three sorted sets are disjoint and cover the live units; scores are flush times and lease ends |
| ShardState.CostsMatch | internal/valkey/scripts.go:53-56 | each hash's pending cost is its stream's summed cost |
| ShardSteps.EnqueueSimulates | internal/valkey/scripts.go:48-70 | an enqueue is the oracle's, and breaks the index if and only if it hits a free, promoted unit still below threshold |
| ShardSteps.ClaimSimulates | internal/valkey/scripts.go:75-83 | popping the least score grants a claimable unit unless the popped one is leased, and one of least deadline while the scores are up to date |
| ShardSteps.EmptyMeansNothing | internal/valkey/scripts.go:76-77 | an empty eligible set means nothing is claimable |
| ShardSteps.PresentsIsHeld | internal/valkey/scripts.go:96 | the token check succeeds exactly when the bearer holds the unit |
| ShardSteps.DrainSimulates | internal/valkey/backend.go:161-202 | an uninterrupted drain answers as the oracle does, is invisible to it, and leaves pending what was and what it returned |
| ShardSteps.AckSimulates | internal/valkey/scripts.go:92-162 | the oracle's acknowledgement through a delivered number unless the member is ready though leased and what is left is below threshold and not due, and only then not; a partition stays one |
| ShardSteps.AckAnswers | internal/valkey/scripts.go:141-161 | the script's answer is whether the oracle still holds the unit |
| ShardSteps.ReleaseSimulates | internal/valkey/scripts.go:166-188 | re-indexing by cost and flush time gives back the eligibility the oracle kept |
| ShardSteps.HeartbeatSimulates | internal/valkey/scripts.go:193-200 | the oracle's heartbeat |
| ShardSteps.FailSimulates | internal/valkey/scripts.go:208-258 | the oracle's failure step, dead letter included, under the same condition on what a burial leaves |
| ShardSteps.ReapSimulates | internal/valkey/scripts.go:263-290 | the two sweeps are the oracle's, one millisecond ahead for leases; lapsed and due members are the units reclaimed and flushed |
| ShardSteps.AckCounts | internal/valkey/scripts.go:135 | the shard's counter goes down by exactly the entries that left the stream |
| ShardSteps.FailCounts | internal/valkey/scripts.go:229-233 | and by one exactly when a poison head left it |
| ShardRuns.StepFollows | internal/valkey/scripts.go:48-290 | a step is one the oracle can take with the same outcome if and only if a claim pops a free unit and nothing is parked that was ready while leased, both read off the keyspace before it; the index survives every step but a straddling enqueue |
| ShardRuns.StepSimulates | internal/valkey/scripts.go:48-290 | every permitted step of a shard, from an indexed state or not, is a step of the oracle or invisible to it |
| ShardRuns.RunSimulates | internal/valkey/scripts.go:48-290 | every permitted run is matched by a run of the oracle that leaves the same queue |
| ShardRuns.ShardInvariant | internal/valkey/scripts.go:53-56 | after any permitted run each hash's cost is its stream's, the shard's counter is the sum of stream lengths, and the history is in order |
| ShardRuns.TidyRuns | internal/valkey/scripts.go:61-68 | a run in which no enqueue straddles is permitted throughout and keeps every unit in one set |
| ShardRuns.IndexSurvives | internal/valkey/scripts.go:17-20 | after any such run from an empty shard the three sets partition the units |
| ShardRuns.StreamIsUnsettled | internal/valkey/backend.go:161-202 | after any permitted run a unit's stream is well-formed, holds exactly the unsettled arrivals in order and is numbered one by one up to the next number |
| Straddle.DoubleClaim | internal/valkey/scripts.go:61-68 | for every threshold, wait, lease, pair of tokens and costs below threshold, enqueue, sweep, enqueue, claim, sweep is a permitted run from an empty shard after which a claim a caller may ask for is none the oracle can grant: it gets the unit the first one still holds, before that lease ends |
| Straddle.EarlyClaim | internal/valkey/scripts.go:134-161 | for the same family, draining one task keeps the run permitted, and acknowledging it is no step of the oracle: the next claim is given the rest below threshold and before its time |
| Expiry.TakenAtTheEnd | internal/valkey/scripts.go:267 | for every window some run of a shard has a sweep take back a lease that the oracle's sweep at that instant leaves held |
| Callbacks.GivenInTurn | internal/queue/worker.go:128-133 | in an ordered record every arrival before one given to a callback was given earlier or is recorded dead, arrivals named by their position |
| Callbacks.AckedWasGiven | internal/queue/worker.go:128-145 | in an ordered record an acknowledged arrival had been given to a callback by then |
| ShardWorkers.ActMirrors | internal/queue/worker.go:106-147 | every action of a worker that goes by the scripts' answers, each trip of a drain by itself, is an action of the protocol over the oracle or none, with the same outcome, unless its batch has a gap |
| ShardWorkers.RunMirrors | internal/queue/worker.go:106-147 | so is every run, permitted by the shard, of any number of workers, crashes and lost leases included |
| ShardWorkers.CallbacksFollowArrivals | internal/queue/worker.go:106-147 | over every permitted run without a gap, each call of a callback is given the task of the arrival the record names, every earlier arrival of its key was given before or is recorded dead, and the shard's dead letters are the arrivals recorded dead |
| ShardWorkers.NothingIsLost | internal/queue/worker.go:106-147 | after every such run each arrival is in the stream at its place, or was given to a callback, before it was acknowledged, or is recorded dead |
| ShardWorkers.AckTakesGiven | internal/valkey/scripts.go:92-162 | what an acknowledgement takes off a stream are the first arrivals it holds, every one given to a callback before |
| Trips.BatchesFit | internal/valkey/backend.go:179-199 | in every run of every fleet, permitted or not, the orphans a worker took over and the batch it works on are at most as many as it asked for |
| Trips.TripsBringFirst | internal/valkey/backend.go:171-200 | lease check, takeover and read while nobody else touches the member's stream bring its first entries, as many as asked for or there are, and leave on the pending list just these and what was there |
| Trips.TripsAreOneDrain | internal/valkey/backend.go:161-202 | with nothing between them they leave the keyspace as the uninterrupted drain does, and the worker with its batch |
| Trips.TripsAnswer | internal/valkey/backend.go:161-202 | after every permitted run they answer as the oracle's drain does, and not with an empty batch |
| Trips.TripsAreSplitDrain | internal/valkey/backend.go:179-199 | around a foreign read of any size they bring what the split drain brings, so what is shown of its gaps holds of them |
| Gaps.HeldReadsAreGapless | internal/valkey/backend.go:165-199 | a run in which no worker is given new entries after its lease was lost has no batch with a gap |
| Gaps.GapLosesTask | internal/valkey/backend.go:165-199 | for every configuration a permitted run of two workers from an empty shard ends before a third trip that leaves a gap; with it, its callback and its acknowledgement the second task was given, the first was not, and both are deleted |
| Streams.SortedStays | internal/valkey/backend.go:200 | sorting a batch that is in order changes nothing |
| Streams.SortOrders | internal/valkey/backend.go:200 | sorting puts any batch in order of its numbers and keeps every task |
| ValkeyShard.Shard.Enqueue | internal/valkey/scripts.go:48-70 | the commands of the script write exactly the member's new slot and count one task |
| ValkeyShard.Shard.Claim | internal/valkey/scripts.go:75-83 | pop a least member and lease it, or the set was empty |
| ValkeyShard.Shard.Drain | internal/valkey/backend.go:161-202 | take over orphans, read on, sort; or the lease is lost and nothing changes |
| ValkeyShard.Shard.Ack | internal/valkey/scripts.go:92-162 | scan, settle, then keep, park or delete; the answer is whether the token is still the unit's |
| ValkeyShard.Shard.Release | internal/valkey/scripts.go:166-188 | give the lease up and re-index |
| ValkeyShard.Shard.Heartbeat | internal/valkey/scripts.go:193-200 | move the lease end in hash and set |
| ValkeyShard.Shard.Fail | internal/valkey/scripts.go:208-258 | count, bury a poison head, release and re-index |
| ValkeyShard.Shard.Reap | internal/valkey/scripts.go:263-290 | for any order of the members the two loops put every slot through reclaim and promote, and count what changed |
| PostgresRows.SumOfRun | internal/postgres/backend.go:236-238 | SUM(cost) over live rows is the queue's total |
| PostgresRows.MinOfRun | internal/postgres/backend.go:239-240 | MIN(enqueued_at) over live rows is the head's time |
| PostgresRows.AckShown | internal/postgres/backend.go:235-259 | the row recomputed from the two aggregates shows the acknowledged unit, or is spent |
| PostgresRows.BuryShown | internal/postgres/backend.go:332-351 | deleting the head row and recomputing shows the unit without its head |
| PostgresRows.ReviveShown | internal/postgres/backend.go:137-143 | an enqueue to a spent row restarts the flush clock and continues the numbering |
| PostgresTables.EnqueueSimulates | internal/postgres/backend.go:127-151 | the upsert is the oracle's enqueue; its number is the oracle's plus the unit's offset |
| PostgresTables.ClaimSimulates | internal/postgres/backend.go:165-174 | leasing a row of least deadline is granting a unit of least deadline |
| PostgresTables.PickIsOldest | internal/postgres/backend.go:169-172 | rows in front of the ordering are oldest units; no free eligible row means nothing is claimable |
| PostgresTables.AckSimulates | internal/postgres/backend.go:218-265 | the oracle's acknowledgement and answer, but for the retry counter |
| PostgresTables.ReleaseSimulates | internal/postgres/backend.go:267-280 | the oracle's release |
| PostgresTables.HeldAgrees | internal/postgres/backend.go:446-468 | the row check succeeds exactly when the claim is held |
| PostgresTables.HeartbeatSimulates | internal/postgres/backend.go:282-296 | the lease end and the renewal window both move |
| PostgresTables.HeartbeatAgrees | internal/postgres/backend.go:285-287 | a heartbeat is the oracle's if and only if it extends by the claim's window |
| PostgresTables.FailSimulates | internal/postgres/backend.go:298-365 | the oracle's failure step for the head, its release for any other task, but for the retry counter |
| PostgresTables.SweepSimulates | internal/postgres/backend.go:367-388 | the two updates are the oracle's sweep and affect as many rows as it counts |
| PostgresTables.AggregateIsSum | internal/postgres/backend.go:138-148 | every row's pending cost is the sum over its tasks |
| PostgresTables.LookAhead | internal/postgres/backend.go:131-148 | every unit at threshold by a scan is flagged, and any other flagged unit has an aged head |
| PostgresRuns.StepTracks | internal/postgres/backend.go:127-388 | every permitted step leaves tables that show the tracked state |
| PostgresRuns.AckAgrees | internal/postgres/backend.go:235-259 | an acknowledgement is the oracle's if and only if the first task left never failed |
| PostgresRuns.FailAgrees | internal/postgres/backend.go:309-363 | a failure is the oracle's if and only if it is the head's and, if that buries it, the next task never failed |
| PostgresRuns.StepAgrees | internal/postgres/backend.go:218-365 | the tables after a step show what the oracle's own step leaves if and only if the task it makes head never failed, a failure is the head's and a heartbeat keeps the window |
| PostgresRuns.ReachableTables | internal/postgres/backend.go:131-148 | after any run aggregates are sums and the eligible flag agrees with a scan up to aged heads |
| PostgresRuns.RunSimulates | internal/postgres/backend.go:127-388 | every run that acknowledges, fails heads and extends by the window is a run of the oracle |
| PostgresRuns.TasksAreUnsettled | internal/postgres/backend.go:138-148 | after such a run a key's tasks are its unsettled arrivals, each numbered by its place in the arrival order |
| PostgresRecords.LiveRow | internal/postgres/backend.go:138-148 | over every run, obedient or not, a task row is what was enqueued under its number, with its time, and its attempts are the failures that named it |
| PostgresRecords.DeadMoves | internal/postgres/backend.go:309-339 | a row goes to the dead letters exactly when a holder's failure brings the first task of its key to the cap: the task as it stands, under its own number, and no longer among the tasks |
| PostgresRecords.DeadRowIs | internal/postgres/backend.go:309-339 | over every run, obedient or not, a dead letter is what was enqueued under its number, with its time, its attempts are the failures that named it and at least the cap, and all live tasks of its key come after it |
| PostgresRecords.DeadInOrder | internal/postgres/backend.go:318-339 | the dead letters of a key carry rising numbers, so no task is buried twice |
| PostgresRecords.TasksAreConserved | internal/postgres/backend.go:131-339 | over every run, obedient or not, each number enqueued is a task, acknowledged by a holder or a dead letter, exactly one of them, and no other number is any |
| PostgresRecords.DeadAreLogged | internal/postgres/backend.go:332-339 | after a run that acknowledges, fails heads and extends by the window, the numbers of a key's dead letters are the places of the arrivals recorded dead, in order |
| PostgresTrace.Departures | internal/postgres/backend.go:282-365 | for every threshold and cap, runs from empty tables to a heartbeat, a failure and an acknowledgement whose outcome is not the oracle's |
| PostgresShard.DrainAgrees | internal/postgres/backend.go:197-199 | the lowest rows in order are the oracle's batch under the table's numbers |
| PostgresShard.Database.Enqueue | internal/postgres/backend.go:131-148 | the upsert and insert, on the flat tables |
| PostgresShard.Database.Claim | internal/postgres/backend.go:165-174 | lease a row of least deadline, or no row was free and eligible |
| PostgresShard.Database.Drain | internal/postgres/backend.go:192-216 | the lowest rows in order, exactly when the lease is held |
| PostgresShard.Database.Ack | internal/postgres/backend.go:218-265 | delete, sum, find the head, recompute; on the flat tables |
| PostgresShard.Database.Release | internal/postgres/backend.go:267-280 | give the lease up, or it was lost |
| PostgresShard.Database.Heartbeat | internal/postgres/backend.go:282-296 | move the lease end and the window, or the lease was lost |
| PostgresShard.Database.Fail | internal/postgres/backend.go:298-365 | count the task's failure, bury it if it is a head at the cap, release: the tables afterwards are those of `PostgresTables.FailRows`, whose rows `PostgresRecords` traces to their arrivals |
| PostgresShard.Database.ReapExpired | internal/postgres/backend.go:371-385 | two updates over the whole table, and their row counts |
| Sharding.ChangeJoins | internal/postgres/backend.go:88-98 | an operation on a key's own shard is that operation on the union of the shards |
| Sharding.TurnIs | internal/postgres/backend.go:160-162 | the shard consulted at the i-th attempt is i places on from the start, around the end |
| Sharding.RotationVisits | internal/postgres/backend.go:159-162 | the rotation from any start visits each shard exactly once |
| Sharding.HomeIs | internal/postgres/backend.go:88-98 | the shard of a key is the hash of its workspace modulo the number of shards, also for a single one |
| Sharding.FirstInTurn | internal/postgres/backend.go:159-162 | of as many claims in a row as there are shards, exactly one consults a given shard first |
| Sharding.FairExactly | internal/queue/backend.go:22 | whatever a rotation hands out has the lowest deadline of all if and only if the first shard it comes to that has anything holds a least deadline among all shards |
| Sharding.Cluster.Claim | internal/postgres/backend.go:154-186 | the cursor moves on by one whether or not anything is granted; a claim grants the oldest of the first shard in rotation that has any, which is the oldest of all if and only if that shard holds a least deadline, and leaves the other shards alone; an empty claim means no shard had anything; the token is new |
| Sharding.Cluster.Enqueue | internal/postgres/backend.go:127-128 | enqueueing on the shard the workspace hashes to is enqueueing in the union, and leaves every other shard as it was |
| Sharding.Cluster.Drain | internal/postgres/backend.go:192-193 | draining the routed shard is draining the union |
| Sharding.Cluster.Ack | internal/valkey/backend.go:204-214 | acknowledging on that shard is acknowledging in the union, and leaves every other shard as it was |
| Sharding.Cluster.Release | internal/valkey/backend.go:216-220 | the same for a release |
| Sharding.Cluster.Heartbeat | internal/valkey/backend.go:222-227 | the same for a heartbeat |
| Sharding.Cluster.Fail | internal/valkey/backend.go:229-235 | the same for a failure |
| Sharding.Cluster.ReapExpired | internal/valkey/backend.go:237-253 | sweeping the shards in turn is one sweep of the union, and the counts add up |
| ClusterRuns.StepJoins | internal/postgres/backend.go:88-98 | any operation routed to its shard, and a sweep of all shards, is that operation on the union |
| ClusterRuns.RunsAreRuns | internal/valkey/backend.go:88-98 | every run over any number of shards, claims by rotation included, is a run of one queue of which the shards are the parts |
| ClusterRuns.ShardsKeepOrder | internal/valkey/backend.go:88-98 | after every such run a key's queue on its shard is its unsettled arrivals in order |
| ClusterRuns.TenantStays | internal/valkey/backend.go:90-98 | after every such run two live units of one workspace are on one shard, the one its hash names |
| ClusterRuns.NoShardPassedOver | internal/postgres/backend.go:159-162 | of as many claims in a row as there are shards, whatever comes between them, one takes the oldest unit of any given shard that has something claimable at each of them |
| ClusterRuns.OutOfTurn | internal/postgres/backend.go:159-162 | a run on two shards that hands out the unit which arrived second while the first waits |
| PostgresCluster.StepFollows | internal/postgres/backend.go:88-98 | a call routed to its shard's tables, a claim by rotation and a sweep of all shards included, is one the cluster of oracles permits, and the tables go on showing it |
| PostgresCluster.RunsAreRuns | internal/postgres/backend.go:88-98 | every run over any number of Postgres shards whose calls find rows that make them the oracle's own is a run of one queue of which the tables show the parts |
| PostgresCluster.TasksAreUnsettled | internal/postgres/backend.go:138-148 | after such a run a key's shard holds exactly its unsettled arrivals, each numbered by its place in the arrival order |
| PostgresCluster.TenantStays | internal/postgres/backend.go:90-98 | after every run over Postgres shards, permitted or not, two rows of one workspace are on one shard, the one its hash names |
| Members.SplitMemberInverts | internal/valkey/backend.go:100-110 | a key comes back from its member name if and only if workspace and session hold no bar |
| Members.MemberInjective | internal/valkey/backend.go:100-102 | on such keys no two units share a name |
| Members.MembersCollide | internal/valkey/backend.go:100-102 | a bar moved between session and peer gives two keys one name |

## Left out

- Connections, pools, schema, SQL and Lua transport, error wrapping and contexts are I/O.
- Worker.Run, the idle backoff and Pool.Run: the loop around a pass and the spawning of workers are the interleavings of `Workers`; sleeping and cancellation are not modelled.
- A single clock reading stands for the several that an operation takes (`internal/memory/backend.go:121`, `internal/valkey/backend.go:134-138`).
- Integers are unbounded: 64-bit overflow of costs, counters and the rotation cursor, and scores beyond the exact range of a double, are not modelled.
- Stream ids are counted up rather than taken from the time; malformed stream entries and pending ids whose entry is gone are in the paged scan but not in the reachable states.
- In `ShardRuns` and `ValkeyShard` a drain is one step, not three trips; `ShardWorkers` and `Gaps` take the trips one by one.
- Postgres drains with two statements outside a transaction, the lease check and the select (`internal/postgres/backend.go:194-199`), and sweeps with two updates (`internal/postgres/backend.go:372-381`); each is one step in `PostgresShard` and `PostgresRuns`.
- `ShardWorkers` is one Valkey shard; the worker loop over the tables or over several shards is not composed, nor are Valkey shards put into `ClusterRuns`, whose keys are not member names.
- Row locks and SKIP LOCKED: a claim sees the whole table.
- Order among units of equal deadline: only the in-memory tie-break is modelled; Postgres orders them by its collation and Redis by bytes, here the drivers pick any of them.
- tenantCache, Stats, Reset and Unimplemented are lookups, gauges and stubs; thresholds and waits are one per backend.
- Sharding.Cluster keeps each shard as an oracle state, which stands for a shard of either driver; its dead letters are compared shard by shard.
- internal/loadgen, internal/config and cmd/plq are workload generation and wiring.
