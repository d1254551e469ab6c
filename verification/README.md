# Verified model of the pb-mapper relay core

pb-mapper lets a service behind NAT register with a relay and lets clients reach it through
that relay. This project models the parts of its Rust core where the correctness lives in
arithmetic, queues, logs and crash points, and proves what they keep.

| file | what it models |
|---|---|
| `Powers.dfy`, `Routes.dfy`, `WheelCounts.dfy`, `TimingWheel.dfy` | the hierarchical timing wheel: exact firing for every tick and delay |
| `Timers.dfy` | shared timers on the wheel: each callback runs once, at the right moment |
| `Lifecycle.dfy`, `KeyLives.dfy`, `Timelines.dfy`, `Commands.dfy` | temporary-key rows and deadlines: what every run keeps, that the clock alone decides a row, and what each command answers and does |
| `LeaseLinks.dfy`, `Leases.dfy`, `Restore.dfy` | the lease schedule on the wheel, in place, proved to be the operations above |
| `Persistence.dfy`, `Recovery.dfy`, `Actor.dfy`, `Tombstones.dfy`, `Authority.dfy`, `KeyIds.dfy` | snapshot, log, restart; the actor's commands; recovery, how long dead rows last across restarts, and key-id uniqueness over whole runs |
| `CompactionCrash.dfy`, `CrashEpochs.dfy`, `CrashRuns.dfy` | crashes inside compaction, reset, root rotation and their recoveries; whole runs that crash |
| `Sealing.dfy`, `Wal.dfy` | the write-ahead log on bytes, with failing appends |
| `Blooms.dfy`, `ReplayGuards.dfy`, `Budgets.dfy`, `AdminReplays.dfy` | replay admission: the rotating Bloom filter with its log and budgets, and the exact administrator set |
| `Frames.dfy` | protocol-v2 session streams over an ideal cipher |
| `ServiceKeys.dfy`, `Routing.dfy`, `RelayRuns.dfy`, `RelayAnswers.dfy`, `RecycledIds.dfy`, `Manager.dfy` | namespaces, the relay manager's event loop, its runs with the connections behind its ids, what it answers to whom, and a client's retry loop |

Code that works in place is a class (`TimingWheel`, `Timers`, `AuthState`, `Leases`,
`AuthActor`, `StateDir`, `WalFile`, `RotatingBloom`, `ReplayGuard`, `AdminReplayState`,
`MessageWriter`, `MessageReader`, `TaskManager`, `Manager`); each of its methods is proved to
be a function on the value the object reads as, and the theorems are about those functions.

Time is a natural number that does not step back. What a clock, a random source, a failing
write or another task decides is a parameter: `Fault`, `WriteFault`, `RewriteFault`, `open`
(the channels whose receivers live), `rateAllows`. Sealing is ideal: a blob opens only under
the key, direction and counter it was sealed for, and only unaltered.

## Findings

Where a property fails in the code, the model keeps the code and states when it holds.

- A relay link stores its slot in 16 bits, so exact firing holds exactly up to a radix of
  65537 or on a one-level wheel (`Routes.ExactFiringIff`). The schedule uses 64.
- A compaction cut between writing the snapshot and emptying the log leaves a store that
  loads only while every key the log renews or revokes is still stored. A key revoked after
  the previous compaction and reaped since makes it fail closed
  (`CompactionCrash.HalfCompactedLoads`, `CompactionCrash.RevokeThenReapFails`).
- A reset or rotation retried in the same process over a half-done one, and stopped right
  after its first write, overwrites the staged id or key the snapshot belongs to; the store
  then stays closed. Over any number of attempts of either kind that is the only way
  (`CrashEpochs.RetriesRecoverIff`; for one retry `CrashEpochs.ResetRetryIff`,
  `CrashEpochs.RotationRetryIff`).
- A fingerprint admitted at `t` can be admitted again at exactly `t + W` after a restart at
  `t` that finds a record from `t - W` still live, and in no other case
  (`ReplayGuards.ForgottenIff`, `ReplayGuards.ForgottenOnlyAtOnce`).
- The time of a revocation is in its log record, and once that is compacted away only in the
  audit trail, which holds 4096 records. A restart that finds it in neither keeps the revoked
  row for 60 seconds from the restart rather than from the revocation
  (`Tombstones.RevokedThenRestarted`).
- The manager recycles an id without looking whether it is still pending. Two things leave a
  pending id idle: a subscription whose answer finds its client gone, and the late
  deregistration of a retired connection whose id went to a client
  (`RecycledIds.ClientGone`, `RecycledIds.LateDeregister`). Its next holder can then be sent a
  stream it never asked for, of another namespace, or make a stream count wrong
  (`RecycledIds.PendingIdMisdelivers`, `RecycledIds.PendingIdMiscounts`,
  `RecycledIds.RunsGoWrong`). Runs keep ids with their connections, and with that the
  separation of namespaces at the manager and its counts, exactly when no id handed out is
  still pending (`RelayRuns.RunHeldIff`). A client is safe all the same: it takes a stream
  only of the generation it was answered with, and generations never change key
  (`RelayRuns.AcceptedStreamIsItsKey`).

## Model

| member | source | states |
|---|---|---|
| `Routes.NextLegFits` | crates/pb-mapper-auth/src/timing_wheel.rs:262-269 | the leg chosen for a remaining delay is at a level whose period fits it, and its slot and rest are the digits of the delay at that period |
| `Routes.NextLegCoarsest` | crates/pb-mapper-auth/src/timing_wheel.rs:262-269 | no level coarser than the one chosen has a period that fits |
| `Routes.RouteAddsUp` | crates/pb-mapper-auth/src/timing_wheel.rs:233-244 | the legs of a built route descend the levels and their waits add up to exactly the delay it was built for |
| `Routes.EntryExists` | crates/pb-mapper-auth/src/timing_wheel.rs:166-185 | for every tick and every delay from 1 to the maximum some level takes the entry, so the branch that finds none is never reached |
| `Routes.EntryFits` | crates/pb-mapper-auth/src/timing_wheel.rs:250-256 | the entry leg found is in reach of its level and its residue is below that level's period |
| `Routes.EntryLegExact` | crates/pb-mapper-auth/src/timing_wheel.rs:250-256 | the entry leg's bucket comes off at the target tick less its residue, at a rotation boundary of its level |
| `Routes.ExactWhenNarrow` | crates/pb-mapper-auth/src/timing_wheel.rs:166-190 | with at most 65537 buckets a level, or one level, every delay is released on exactly the tick it asks for |
| `Routes.WideRadixMisses` | crates/pb-mapper-auth/src/timing_wheel.rs:243-244 | with more buckets than a slot field can name and two levels, a concrete tick and delay are released on the wrong tick |
| `Routes.ExactFiringIff` | crates/pb-mapper-auth/src/timing_wheel.rs:166-274 | every tick and every delay is released exactly on time if and only if the radix is at most 65537 or the wheel has one level: the slot is stored in 16 bits |
| `WheelCounts.RelayKeepsDeadline` | crates/pb-mapper-auth/src/timing_wheel.rs:200-213 | filing the leg a relay hands on counts exactly as the relay did: the deadline does not move |
| `WheelCounts.TurnsOverAsTested` | crates/pb-mapper-auth/src/timing_wheel.rs:196-199 | the saturating period the tick tests against is the exact one at every level a wheel can have |
| `WheelCounts.RotationCounts` | crates/pb-mapper-auth/src/timing_wheel.rs:217-222 | rotating a level moves no deadline: its counts change only by the bucket that came off |
| `WheelCounts.BasesAfterTick` | crates/pb-mapper-auth/src/timing_wheel.rs:193-199 | once one level does not turn over, no coarser one does, so stopping there leaves every level's base current |
| `WheelCounts.TurnedOverCounts` | crates/pb-mapper-auth/src/timing_wheel.rs:200-213 | a level turning over releases or refiles each link of its front bucket on its own deadline |
| `WheelCounts.TickedCounts` | crates/pb-mapper-auth/src/timing_wheel.rs:193-215 | whatever a tick no longer holds it released, over every level it turns over |
| `WheelCounts.TickExact` | crates/pb-mapper-auth/src/timing_wheel.rs:193-215 | a tick releases exactly the routes due on it, keeps every later one, and holds nothing overdue |
| `WheelCounts.ReleasedOnItsTick` | crates/pb-mapper-auth/src/timing_wheel.rs:193-215 | over any number of ticks the k-th releases exactly the routes due on it at the start, and no other tick releases them |
| `WheelCounts.RoutePlaced` | crates/pb-mapper-auth/src/timing_wheel.rs:166-190 | the route a schedule files descends the levels, ends in its timer and releases on its release tick |
| `WheelCounts.RouteCounts` | crates/pb-mapper-auth/src/timing_wheel.rs:166-190 | scheduling adds exactly one deadline, now plus the delay, and keeps the reference counts of every timer |
| `WheelCounts.TickTracks` | crates/pb-mapper-auth/src/timing_wheel.rs:193-215 | a tick on the queues is a tick on the table of deadlines and reference counts |
| `WheelCounts.WheelTimersCount` | crates/pb-mapper-auth/src/timing_wheel.rs:117-121 | dropping the queues releases every timer once per route that holds it |
| `TimingWheels.SoundSchedule` | crates/pb-mapper-auth/src/timing_wheel.rs:166-190 | one schedule keeps a sound wheel sound, with one more reference and the later of the old and new deadline |
| `TimingWheels.TimingWheel.constructor` | crates/pb-mapper-auth/src/timing_wheel.rs:134-153 | the wheel built is the smallest whose levels span the delay asked for |
| `TimingWheels.TimingWheel.MaxDelay` | crates/pb-mapper-auth/src/timing_wheel.rs:156-158 | the longest delay the wheel places is its span |
| `TimingWheels.TimingWheel.Rotate` | crates/pb-mapper-auth/src/timing_wheel.rs:217-222 | takes the front bucket off and puts an empty one on the back |
| `TimingWheels.TimingWheel.File` | crates/pb-mapper-auth/src/timing_wheel.rs:224-228 | pushes a link on one bucket and touches no other |
| `TimingWheels.TimingWheel.Schedule` | crates/pb-mapper-auth/src/timing_wheel.rs:166-190 | a delay from 1 to the maximum gains exactly one route with deadline now plus delay; any other drops the reference and changes nothing |
| `TimingWheels.TimingWheel.Drain` | crates/pb-mapper-auth/src/timing_wheel.rs:200-213 | hands every link of a popped bucket to its finer bucket or out, in order |
| `TimingWheels.TimingWheel.TurnLevels` | crates/pb-mapper-auth/src/timing_wheel.rs:195-214 | turns over the levels whose period divides the tick, finest first, stopping at the first that does not |
| `TimingWheels.TimingWheel.Tick` | crates/pb-mapper-auth/src/timing_wheel.rs:193-215 | releases exactly the routes whose deadline is the new tick, and forgets exactly the timers whose last route that was |
| `TimingWheels.TimingWheel.Contents` | crates/pb-mapper-auth/src/timing_wheel.rs:117-121 | dropping the wheel releases each held timer once per route |
| `TimerTable.DroppingMeans` | crates/pb-mapper-auth/src/timing_wheel.rs:70-78 | dropping references one by one runs the callback of exactly the timers that lost their last one, each once |
| `TimerTable.ChangedConsistent` | crates/pb-mapper-auth/src/timing_wheel.rs:41-84 | after any operation each timer made is pending with its deadline ahead, or has run, never both |
| `TimerTable.RunsExactlyWhenDue` | crates/pb-mapper-auth/src/timing_wheel.rs:41-84 | a pending callback runs at the first of a fire, the tick its last route drains on, or the wheel being dropped; rescheduling only moves that tick later |
| `TimerTable.RunsOnce` | crates/pb-mapper-auth/src/timing_wheel.rs:41-84 | a callback that has run never runs again over any run of operations |
| `TimerTable.Timers.Add` | crates/pb-mapper-auth/src/timing_wheel.rs:56-60 | a new timer is pending until now plus its delay, or runs at once when the wheel cannot place it |
| `TimerTable.Timers.Again` | crates/pb-mapper-auth/src/timing_wheel.rs:160-165 | scheduling a held timer again moves its deadline to the later of the two |
| `TimerTable.Timers.Fire` | crates/pb-mapper-auth/src/timing_wheel.rs:64-67 | runs the callback exactly when it is still pending and leaves every route in place |
| `TimerTable.Timers.Tick` | crates/pb-mapper-auth/src/timing_wheel.rs:193-215 | runs exactly the pending callbacks whose last route drains on the new tick |
| `TimerTable.Timers.DropWheel` | crates/pb-mapper-auth/src/timing_wheel.rs:70-78 | runs every callback still pending, each once, and starts an empty wheel |
| `Lifecycle.RunAllSettles` | crates/pb-mapper-auth/src/leases.rs:303-350 | running any list of retire and reap callbacks leaves a table that depends only on which keys they name |
| `Lifecycle.OrderIrrelevant` | crates/pb-mapper-auth/src/leases.rs:303-350 | two orders of the same callbacks leave the same rows, metadata and cancellations |
| `Lifecycle.SettledTwice` | crates/pb-mapper-auth/src/leases.rs:303-350 | two batches of callbacks leave what one batch of both would |
| `KeyLives.SteppedMeans` | crates/pb-mapper-auth/src/leases.rs:168-171 | ticking second by second to a time runs exactly the stages due by it |
| `KeyLives.FastPathIsSlowPath` | crates/pb-mapper-auth/src/leases.rs:156-172 | a clock jump beyond the wheel's reach, served by dropping the schedule, leaves the same rows, generations and metadata as ticking through it |
| `KeyLives.IssueCoherent` | crates/pb-mapper-auth/src/actor/lifecycle.rs:96-144 | issuing keeps metadata, rows and both deadlines in step, with retirement at the expiry and the reap a retention later |
| `KeyLives.RenewCoherent` | crates/pb-mapper-auth/src/actor/lifecycle.rs:231-261 | renewing a live key keeps them in step, and its lease is never already cancelled, so no replacement lease is needed |
| `KeyLives.RevokeCoherent` | crates/pb-mapper-auth/src/actor/lifecycle.rs:301-331 | revoking marks the row, keeps its metadata and its reap, and clears its retirement |
| `KeyLives.CollectCoherent` | crates/pb-mapper-auth/src/leases.rs:190-212 | after a garbage collection at a time a row is in use, and its metadata kept, exactly if it was active with its expiry still ahead |
| `KeyLives.CollectableCount` | crates/pb-mapper-auth/src/leases.rs:190-212 | it ends one key for each row that is expired, revoked, or active with its expiry reached |
| `KeyLives.WipeCoherent` | crates/pb-mapper-auth/src/leases.rs:177-187 | a wipe frees every row and forgets every key, and keeps every generation |
| `KeyLives.AdvanceCoherent` | crates/pb-mapper-auth/src/leases.rs:156-172 | ticking to any later time keeps a key's metadata and pending reap exactly while a row holds it |
| `KeyLives.StepCoherent` | crates/pb-mapper-auth/src/leases.rs:97-212 | every operation keeps: metadata and a pending reap exactly for the keys of rows in use, a pending retirement exactly for active ones |
| `Timelines.RowTimeline` | crates/pb-mapper-auth/src/leases.rs:250-349 | over any run that does not end it early a key's row is active until its latest scheduled expiry, expired for 60 seconds, then free for good |
| `Timelines.RevokedTimeline` | crates/pb-mapper-auth/src/actor/lifecycle.rs:301-320 | over any run a revoked row stays revoked until its reap, then is free for good |
| `Timelines.IssueStartsTimeline` | crates/pb-mapper-auth/src/actor/lifecycle.rs:129-144 | an issued key starts on that timeline at its expiry |
| `Timelines.RevokeStartsRevoked` | crates/pb-mapper-auth/src/actor/lifecycle.rs:301-320 | a revoked key keeps the reap time it had |
| `Timelines.RunCoherent` | crates/pb-mapper-auth/src/leases.rs:97-212 | coherence holds after every run of operations |
| `KeyCommands.IssueAnswered` | crates/pb-mapper-auth/src/actor/lifecycle.rs:85-113 | a key is handed out exactly for a lifetime of 10 seconds to 365 days while some free row has a generation left, and from the first such row, under its next generation |
| `KeyCommands.IssueDone` | crates/pb-mapper-auth/src/actor/lifecycle.rs:114-146 | issuing leaves an active row that expires a lifetime from now, fresh metadata, a lease not cancelled, both deadlines and one log record of it, and touches no other row |
| `KeyCommands.RenewAnswered` | crates/pb-mapper-auth/src/actor/lifecycle.rs:216-231 | a key is renewed exactly when its row is of its generation, active and not yet expired |
| `KeyCommands.RenewDone` | crates/pb-mapper-auth/src/actor/lifecycle.rs:236-262 | a renewal moves the row's expiry to a lifetime from now, moves neither deadline back, and logs it |
| `KeyCommands.RevokeAnswered` | crates/pb-mapper-auth/src/actor/lifecycle.rs:282-293 | a key is revoked exactly when its row is of its generation and active |
| `KeyCommands.RevokeDone` | crates/pb-mapper-auth/src/actor/lifecycle.rs:301-331 | a revocation leaves the row revoked, its lease cancelled as such unless it already was, its retirement gone, its reap, expiry and metadata as they were, and a log record with its time |
| `KeyCommands.TickCancels` | crates/pb-mapper-auth/src/leases.rs:303-331 | a tick cancels, as expired, exactly the leases due to retire that were not cancelled before |
| `KeyCommands.CollectCancels` | crates/pb-mapper-auth/src/leases.rs:190-212 | a collection cancels, as expired, exactly those of active keys past their expiry |
| `KeyCommands.WipeCancels` | crates/pb-mapper-auth/src/leases.rs:177-187 | a reset or rotation cancels, as rotated, exactly those of active keys |
| `LeaseLinks.LinkedTick` | crates/pb-mapper-auth/src/leases.rs:168-171 | one tick fires exactly the stages due by the second it stands for |
| `LeaseLinks.LinkedDrop` | crates/pb-mapper-auth/src/leases.rs:215-219 | dropping the wheel fires every pending stage of every key |
| `LeaseLinks.LinkedRenewed` | crates/pb-mapper-auth/src/leases.rs:124-134 | a second route for a stage moves that stage's deadline and no other |
| `LeaseLinks.LinkedStruck` | crates/pb-mapper-auth/src/leases.rs:139-153 | a fired stage loses its deadline, and a handle reaches its own stage or none |
| `LeaseSchedule.LeaseWheelReach` | crates/pb-mapper-auth/src/leases.rs:352-356 | the wheel built for the longest schedulable delay at 64 buckets a level reaches 64^5 seconds |
| `LeaseSchedule.AuthState.Retire` | crates/pb-mapper-auth/src/leases.rs:303-331 | the retire callback cancels the lease, marks an active row of that generation expired and records when |
| `LeaseSchedule.AuthState.Reap` | crates/pb-mapper-auth/src/leases.rs:334-350 | the reap callback frees the row only while it still belongs to the key, and forgets its metadata |
| `LeaseSchedule.AuthState.CancelLease` | crates/pb-mapper-auth/src/lib.rs:184-192 | the first cancellation reason sticks |
| `LeaseSchedule.Leases.Restore` | crates/pb-mapper-auth/src/leases.rs:56-93 | rebuilds the schedule of a loaded table: live rows at their expiry, dead rows at the end of their retention |
| `LeaseSchedule.Leases.Watch` | crates/pb-mapper-auth/src/leases.rs:250-269 | schedules retirement at the expiry and the reap a retention later; a deadline past or out of reach runs at once |
| `LeaseSchedule.Leases.ScheduleReap` | crates/pb-mapper-auth/src/leases.rs:272-282 | schedules only the reap of a key already dead |
| `LeaseSchedule.Leases.Issue` | crates/pb-mapper-auth/src/leases.rs:97-110 | records the key's description and puts both stages of its end on the schedule |
| `LeaseSchedule.Leases.Renew` | crates/pb-mapper-auth/src/leases.rs:124-134 | moves both stages to the later of old and new deadline, or reports that the key has no live stages |
| `LeaseSchedule.Leases.RenewRow` | crates/pb-mapper-auth/src/actor/lifecycle.rs:249-253 | the row's expiry and both its stages move together |
| `LeaseSchedule.Leases.RevokeRow` | crates/pb-mapper-auth/src/actor/lifecycle.rs:302-314 | the row is revoked, its lease cancelled and its retirement run now, with the reap left on schedule |
| `LeaseSchedule.Leases.Stage` | crates/pb-mapper-auth/src/leases.rs:229-241 | a stage that cannot be upgraded is not pending, and a key whose stages have both gone is forgotten |
| `LeaseSchedule.Leases.RetireNow` | crates/pb-mapper-auth/src/leases.rs:139-143 | runs the retirement now exactly when it is still pending |
| `LeaseSchedule.Leases.End` | crates/pb-mapper-auth/src/leases.rs:147-153 | runs whichever of a key's two stages are still pending |
| `LeaseSchedule.Leases.Second` | crates/pb-mapper-auth/src/leases.rs:168-171 | one second runs exactly what falls due by it |
| `LeaseSchedule.Leases.Tick` | crates/pb-mapper-auth/src/leases.rs:156-172 | both the loop and the fast path advance the schedule to the given second |
| `LeaseSchedule.Leases.DropSchedule` | crates/pb-mapper-auth/src/leases.rs:215-219 | replacing the wheel runs every stage it held |
| `LeaseSchedule.Leases.Wipe` | crates/pb-mapper-auth/src/leases.rs:177-187 | cancels every active lease as rotated and runs every stage |
| `LeaseSchedule.Leases.CollectGarbage` | crates/pb-mapper-auth/src/leases.rs:190-212 | ends every row that is dead or past its expiry, and returns how many rows were expired, revoked, or active with their expiry reached |
| `Restore.RestoredCoherent` | crates/pb-mapper-auth/src/leases.rs:56-93 | a restored schedule is coherent: live keys keep their rows and get both deadlines, dead rows wait out their retention or are free, and no generation moves |
| `Persistence.LoadPersisted` | crates/pb-mapper-auth/src/persistence/snapshot.rs:166-227 | loading checks the instance id, extends the generations and replays the log, failing at the first record that cannot be applied |
| `Persistence.LoadSame` | crates/pb-mapper-auth/src/persistence/snapshot.rs:201-205 | the configured capacity changes no entry and no generation of what is loaded |
| `Persistence.LoadCovers` | crates/pb-mapper-auth/src/persistence/snapshot.rs:201-214 | what is loaded covers the configured capacity and belongs to the live instance |
| `Persistence.WithoutAt` | crates/pb-mapper-auth/src/persistence/snapshot.rs:234-243 | an issue replaces the entry of its own row and of no other |
| `Persistence.UpdateAt` | crates/pb-mapper-auth/src/persistence/snapshot.rs:244-255 | a renew or revoke changes the entry of its own row and of no other |
| `Persistence.Normalize` | crates/pb-mapper-auth/src/persistence/snapshot.rs:82-107 | fills in exactly the missing tombstone times and reports whether any was missing |
| `Persistence.RowEntriesAt` | crates/pb-mapper-auth/src/persistence/snapshot.rs:53-71 | compaction writes for each row the entry of the key that holds it, and none for a free row |
| `Persistence.StartTable` | crates/pb-mapper-auth/src/runtime.rs:73-122 | the loops of a start build the table from the generations and then the entries, skipping one of another generation |
| `Persistence.StartedRow` | crates/pb-mapper-auth/src/runtime.rs:79-122 | each started row comes from the one entry stored for it, expired when its time has passed; how long a dead one then lasts is `Tombstones` |
| `Persistence.HighEntriesFrom` | crates/pb-mapper-auth/src/persistence/snapshot.rs:32-44 | entries beyond the capacity are kept as stored, or marked expired |
| `Recovery.IssueMirror` | crates/pb-mapper-auth/src/actor/lifecycle.rs:129-144 | the logged issue leaves the store saying of that row what the table says |
| `Recovery.RenewMirror` | crates/pb-mapper-auth/src/actor/lifecycle.rs:236-253 | the logged renewal finds its key in the store and leaves it with the new expiry |
| `Recovery.RevokeMirror` | crates/pb-mapper-auth/src/actor/lifecycle.rs:296-303 | the logged revocation finds its key in the store and leaves it dead |
| `Recovery.TickMirror` | crates/pb-mapper-auth/src/leases.rs:156-172 | rows that die on a tick had a stored expiry already behind the clock |
| `Recovery.CollectMirror` | crates/pb-mapper-auth/src/actor/lifecycle.rs:354-361 | collected rows were dead or expired in the store too |
| `Recovery.BuildMirror` | crates/pb-mapper-auth/src/persistence/snapshot.rs:46-80 | a compaction loses no row: what it writes mirrors the table |
| `Recovery.WipeMirror` | crates/pb-mapper-auth/src/persistence/snapshot.rs:109-121 | the snapshot of a reset or rotation has no entry and every generation |
| `Recovery.RebornMirror` | crates/pb-mapper-auth/src/runtime.rs:65-122 | a start's table mirrors what it was started from, at any capacity, and its schedule is coherent |
| `Recovery.RebornRecovers` | crates/pb-mapper-auth/src/runtime.rs:79-122 | starting from a mirror gives exactly the unexpired active keys with expiry, issue time and note, and the same generations |
| `ActorRuns.StepSound` | crates/pb-mapper-auth/src/actor/mod.rs:60-195 | every command, tick, compaction, reset, rotation and restart keeps the table coherent and the disk loadable at any capacity as its mirror |
| `ActorRuns.RunSound` | crates/pb-mapper-auth/src/actor/mod.rs:60-195 | so does every run of them; replay never meets an unknown key |
| `ActorRuns.FirstStartSound` | crates/pb-mapper-auth/src/persistence/snapshot.rs:186-196 | the first start on an empty disk is sound |
| `ActorRuns.RestartRecovers` | crates/pb-mapper-auth/src/runtime.rs:65-122 | after any run a restart at the same capacity gives the same generations and exactly the unexpired active keys, with their expiry, issue time and note |
| `ActorRuns.StepGeneration` | crates/pb-mapper-auth/src/actor/lifecycle.rs:96-128 | only an issue moves a generation, by one, and a restart that shrinks or grows the table moves none |
| `ActorRuns.NeverTwice` | crates/pb-mapper-auth/src/actor/lifecycle.rs:96-145 | no key id is handed out twice over any run mixing issue, expiry, revocation, collection, reset, rotation and restarts at any capacities |
| `Tombstones.RunRecorded` | crates/pb-mapper-auth/src/persistence/snapshot.rs:53-107 | over any run every stored time of death is behind the clock, an expired row's is its expiry, and a revoked row's is in the store or still to be found in the audit trail |
| `Tombstones.FirstStartRecorded` | crates/pb-mapper-auth/src/persistence/snapshot.rs:186-196 | a first start on an empty disk begins so |
| `Tombstones.ExpiredThenRestarted` | crates/pb-mapper-auth/src/runtime.rs:90-122 | a row that expired at e, or whose expiry e a restart finds passed, is expired until e plus 60 seconds after the restart and free from then on, with its reap at that second |
| `Tombstones.RevokedThenRestarted` | crates/pb-mapper-auth/src/persistence/snapshot.rs:82-107 | a key revoked at t, any run of one process that keeps its row, then a restart: the row stays revoked until t plus 60 seconds and is free from then on, unless the log was compacted since and 4096 audit records were made since; exactly then the 60 seconds start again at the restart |
| `Tombstones.DeadThenRestarted` | crates/pb-mapper-auth/src/runtime.rs:90-122 | once a restart has fixed a revoked row's time of death, every later restart goes by it, whatever is compacted or audited in between |
| `Tombstones.TrailFinds` | crates/pb-mapper-auth/src/persistence/snapshot.rs:89-100 | the latest revocation of a key is found in the audit trail exactly while the trail reaches back to it |
| `KeyIds.WordRoundTrip` | crates/pb-mapper-auth/src/ids.rs:46-57 | packing a generation and a slot into a word and taking them out again agree exactly when both fit in 32 bits |
| `KeyIds.HandedWord` | crates/pb-mapper-auth/src/ids.rs:44 | every id handed out fits in a word that is not the administrator's |
| `KeyIds.WordsDistinct` | crates/pb-mapper-auth/src/ids.rs:46-57 | two packable ids have the same word only when they are the same |
| `Authority.AuthActor.constructor` | crates/pb-mapper-auth/src/runtime.rs:65-200 | a start writes back filled-in tombstone times when there were any, and builds table, retained rows and schedule from what it loaded |
| `Authority.AuthActor.Issue` | crates/pb-mapper-auth/src/actor/lifecycle.rs:85-146 | logs the issue, then installs the row and its schedule; refuses a lifetime out of range or a full table and changes nothing |
| `Authority.AuthActor.Renew` | crates/pb-mapper-auth/src/actor/lifecycle.rs:216-262 | renews exactly an active, unexpired, known key, after logging it, and says which of those it is not |
| `Authority.AuthActor.Revoke` | crates/pb-mapper-auth/src/actor/lifecycle.rs:282-331 | revokes exactly an active known key, after logging it, and says which of those it is not |
| `Authority.AuthActor.Gc` | crates/pb-mapper-auth/src/actor/lifecycle.rs:354-373 | ends every dead or expired key, returns how many rows were expired, revoked, or active with their expiry reached, and rewrites the store |
| `Authority.AuthActor.Empty` | crates/pb-mapper-auth/src/actor/epoch.rs:12-54 | a reset or rotation writes an empty snapshot with every generation, then ends every key |
| `Authority.AuthActor.Tick` | crates/pb-mapper-auth/src/actor/mod.rs:62-64 | a tick brings the schedule to the clock |
| `Authority.AuthActor.AppendAudit` | crates/pb-mapper-auth/src/persistence/wal.rs:42-53 | logs an audit record alone, which changes no key |
| `Authority.AuthActor.Compact` | crates/pb-mapper-auth/src/actor/mod.rs:74-84 | compaction rewrites the snapshot from the table and empties the log |
| `Authority.Start` | crates/pb-mapper-auth/src/persistence/snapshot.rs:166-227 | a start succeeds exactly when the disk loads, and then is what the loaded state makes it |
| `CompactionCrash.ReplayBySlots` | crates/pb-mapper-auth/src/persistence/snapshot.rs:207-259 | a replay is the replay of each row by itself, and fails when one of them does |
| `CompactionCrash.ReplayCompares` | crates/pb-mapper-auth/src/persistence/snapshot.rs:229-259 | how replaying one log over a later snapshot compares with replaying it over the earlier one, row by row |
| `CompactionCrash.HalfCompactedLoads` | crates/pb-mapper-auth/src/persistence/wal.rs:186-198 | cut between its two writes a compaction leaves a store that loads if and only if every key the log renews or revokes before reissuing its row is still stored, and then it mirrors the table |
| `CrashRuns.CrashesRecover` | crates/pb-mapper-auth/src/runtime.rs:65-122 | the same recovery after any run that also crashes: with a record on disk but unacknowledged, inside a compaction that still loads, or anywhere inside a reset or rotation |
| `CrashRuns.EventsSound` | crates/pb-mapper-auth/src/actor/mod.rs:60-195 | such runs keep the table coherent and the disk loadable as its mirror |
| `CrashRuns.NeverTwiceThroughCrashes` | crates/pb-mapper-auth/src/actor/lifecycle.rs:96-145 | no key id is handed out twice over such runs either |
| `CrashRuns.UnacknowledgedIsDone` | crates/pb-mapper-auth/src/persistence/wal.rs:21-40 | a restart over a record that reached the disk unacknowledged is the restart of the command having been done |
| `CompactionCrash.RevokeThenReapFails` | crates/pb-mapper-auth/src/persistence/wal.rs:186-198 | the failing case is reached by revoking a key after a compaction and letting its retention pass before the next |
| `CrashEpochs.StateDir.Reset` | crates/pb-mapper-auth/src/actor/epoch.rs:19-47 | the durable steps of a reset, in order |
| `CrashEpochs.StateDir.RotateRoot` | crates/pb-mapper-auth/src/actor/epoch.rs:87-107 | the durable steps of a rotation, in order |
| `CrashEpochs.StateDir.RecoverKey` | crates/pb-mapper-auth/src/keys.rs:80-115 | the key recovery performs exactly its plan |
| `CrashEpochs.StateDir.RecoverInstance` | crates/pb-mapper-auth/src/persistence/admin_key.rs:8-18 | creating or promoting the instance id performs exactly its plan |
| `CrashEpochs.ResetCut` | crates/pb-mapper-auth/src/actor/epoch.rs:24-33 | a reset cut anywhere leaves the old files, the new snapshot with the old id staged over, or the new state |
| `CrashEpochs.RotateCut` | crates/pb-mapper-auth/src/actor/epoch.rs:87-94 | a rotation cut anywhere leaves the old files, the new snapshot with the new key staged, or the new state |
| `CrashEpochs.ResetRecoveryCut` | crates/pb-mapper-auth/src/persistence/admin_key.rs:47-87 | a recovery cut anywhere stays within what a cut reset can leave |
| `CrashEpochs.RotateRecoveryCut` | crates/pb-mapper-auth/src/keys.rs:80-115 | a recovery cut anywhere stays within what a cut rotation can leave |
| `CrashEpochs.ResetAtomic` | crates/pb-mapper-auth/src/persistence/admin_key.rs:47-87 | cut at any step and recovered after any number of cut recoveries, a reset ends in the whole old state or the whole new one, with the live id that of the snapshot |
| `CrashEpochs.RotateAtomic` | crates/pb-mapper-auth/src/keys.rs:80-115 | the same for a root rotation: the recovered key opens the snapshot and no log record under another key is left |
| `CrashEpochs.LoadedAfterReset` | crates/pb-mapper-auth/src/persistence/admin_key.rs:47-87 | what is then loaded is what was stored before the reset, or exactly what it wrote |
| `CrashEpochs.InstalledExactly` | crates/pb-mapper-auth/src/persistence/admin_key.rs:156-182 | the checks made after a reported error hold exactly when the new state is whole on disk |
| `CrashEpochs.RetriesRecoverIff` | crates/pb-mapper-auth/src/actor/epoch.rs:24-107 | any number of resets and rotations tried in one process, each failing after any of its writes, with records logged in between, then a crash and any number of cut recoveries: the recovery that completes leaves the files whole if and only if what the snapshot belongs to is live or still staged; otherwise it changes nothing and every start refuses the files |
| `CrashEpochs.TriedAllAt` | crates/pb-mapper-auth/src/actor/epoch.rs:24-107 | how far ahead of the live id or key the snapshot is after those attempts, and whether that id or key is still staged, follows from the attempts alone |
| `CrashEpochs.LeftByAttempts` | crates/pb-mapper-auth/src/actor/epoch.rs:24-107 | what they leave is the old state with its longer log, or the snapshot of the last attempt that got as far as writing one |
| `CrashEpochs.ResetRetryIff` | crates/pb-mapper-auth/src/actor/epoch.rs:24-41 | one reset over what an interrupted one left is lost exactly when the first is midway and the second stops after its first write; otherwise it ends in the old state or one of the two new ones, whole |
| `CrashEpochs.RotationRetryIff` | crates/pb-mapper-auth/src/actor/epoch.rs:87-100 | the same for a rotation, unless it is retried to the key already staged |
| `Sealing.NumberRoundTrip` | crates/pb-mapper-auth/src/persistence/wal.rs:88-89 | a big-endian number of any width reads back, whatever follows it |
| `Sealing.BytesRoundTrip` | crates/pb-mapper-auth/src/persistence/wal.rs:148-156 | the bytes of a number are the only ones of their width that read as it |
| `WalFraming.ReadLog` | crates/pb-mapper-auth/src/persistence/wal.rs:128-184 | the read loop returns the records up to the end, or the first failure |
| `WalFraming.LogReads` | crates/pb-mapper-auth/src/persistence/wal.rs:128-184 | reading appended records returns exactly them in order; the reader's limit of 1 MiB a sealed record is the hypothesis, and is exact |
| `WalFraming.CutReads` | crates/pb-mapper-auth/src/persistence/wal.rs:137-181 | a log cut anywhere reads as the records before the cut when it falls between two, and fails when it falls inside one |
| `WalFraming.OnlyMadeRecords` | crates/pb-mapper-auth/src/persistence/wal.rs:173-181 | whatever bytes are read, every record that comes out was sealed |
| `WalFraming.WalFile.Append` | crates/pb-mapper-auth/src/persistence/wal.rs:55-126 | an append succeeds exactly when no step of it fails that matters, and then adds exactly one frame; a retryable failure leaves the log as it was; any other failure closes the store; on a closed store what was acknowledged before stays at the front |
| `WalFraming.ClosedReads` | crates/pb-mapper-auth/src/persistence/wal.rs:8-19 | once the store is closed, whatever is appended, the next start reads everything acknowledged before or refuses the log |
| `WalFraming.UncertainReads` | crates/pb-mapper-auth/src/persistence/wal.rs:8-19 | after an uncertain append the next start reads every acknowledged record, possibly with the uncertain one, or refuses the log |
| `Blooms.InsertContains` | crates/pb-mapper-protocol/src/secure/replay.rs:413-423 | inserting finds the fingerprint and loses no other |
| `Blooms.RotateCovers` | crates/pb-mapper-protocol/src/secure/replay.rs:104-117 | rotation keeps every fingerprint until its time |
| `Blooms.CoveredFound` | crates/pb-mapper-protocol/src/secure/replay.rs:94-97 | a query up to that time finds it |
| `Blooms.AddCovers` | crates/pb-mapper-protocol/src/secure/replay.rs:99-102 | inserting covers a fingerprint for one whole window, to the second |
| `Blooms.RotatingBloom.Rotate` | crates/pb-mapper-protocol/src/secure/replay.rs:104-117 | within a window nothing moves; after one the generations swap; after two both are cleared |
| `Blooms.RotatingBloom.Has` | crates/pb-mapper-protocol/src/secure/replay.rs:94-97 | looks in both generations after rotating |
| `Blooms.RotatingBloom.Insert` | crates/pb-mapper-protocol/src/secure/replay.rs:99-102 | sets the four bits of the fingerprint in the current generation |
| `ReplayGuards.PersistMoves` | crates/pb-mapper-protocol/src/secure/replay.rs:228-261 | an append loses no record, adds at most the one admitted, and succeeds only with it on disk |
| `ReplayGuards.CompactMoves` | crates/pb-mapper-protocol/src/secure/replay.rs:313-345 | compaction drops no record still within the window, whichever step of it fails |
| `ReplayGuards.ReopenCovers` | crates/pb-mapper-protocol/src/secure/replay.rs:263-311 | loading the log covers every live record through the end of its window, or to just before it when the load is in the second of the admission |
| `ReplayGuards.StepRemembers` | crates/pb-mapper-protocol/src/secure/replay.rs:167-218 | no call, successful or not, makes a remembered fingerprint admissible |
| `ReplayGuards.NeverAdmittedTwice` | crates/pb-mapper-protocol/src/secure/replay.rs:167-311 | a fingerprint admitted at t is not admitted again in (t, t + W] across any restarts, rotations and compactions, whatever writes fail; only at t + W itself, and only after a restart at t, is nothing promised |
| `ReplayGuards.ForgottenIff` | crates/pb-mapper-protocol/src/secure/replay.rs:263-311 | a restarted guard admits it again at t + W if and only if the oldest record live at the restart is a whole window older than the admission |
| `ReplayGuards.ForgottenOnlyAtOnce` | crates/pb-mapper-protocol/src/secure/replay.rs:290-297 | such a record is live only at a restart in the very second of the admission |
| `ReplayGuards.ForgottenAtTheEdge` | crates/pb-mapper-protocol/src/secure/replay.rs:290-297 | a log of two records after whose load the fingerprint is admitted at t + W |
| `ReplayGuards.ReplayGuard.constructor` | crates/pb-mapper-protocol/src/secure/replay.rs:135-153 | opening loads the live records, starts the filter at the oldest of them and rewrites the log |
| `ReplayGuards.ReplayGuard.AdmitFlight` | crates/pb-mapper-protocol/src/secure/replay.rs:167-191 | the verdict and new state of an admission, under every combination of write failures; which verdict that is over a run is `AdmissionBudgets.AdmitVerdict` |
| `ReplayGuards.ReplayGuard.ClaimFlight` | crates/pb-mapper-protocol/src/secure/replay.rs:193-202 | the verdict and new state of a claim |
| `ReplayGuards.ReplayGuard.CompactLog` | crates/pb-mapper-protocol/src/secure/replay.rs:313-345 | rewrites the log with its live records, or closes it |
| `AdmissionBudgets.AdmitVerdict` | crates/pb-mapper-protocol/src/secure/replay.rs:167-191 | over any run of a process: a flight the filter does not find is admitted exactly when fewer than `perKey` flights of its key were admitted since the counts were cleared, fewer than `total` in all since the filter rotated, and its record can be written; the flights are counted by their verdicts |
| `AdmissionBudgets.ClaimVerdict` | crates/pb-mapper-protocol/src/secure/replay.rs:193-202 | the same for a claim, which no key's budget bounds |
| `AdmissionBudgets.OpenedNewly` | crates/pb-mapper-protocol/src/secure/replay.rs:263-311 | a guard just opened has counted nothing but the live records it loaded, up to the total |
| `AdmissionBudgets.ReplayedMeans` | crates/pb-mapper-protocol/src/secure/replay.rs:94-102 | a flight is taken for a replay only if each of its bits is one of a flight admitted or loaded before |
| `AdmissionBudgets.CompactedWhenDue` | crates/pb-mapper-protocol/src/secure/replay.rs:182-187 | an admission adds one record to the log; sixty seconds after the last compaction exactly the records of the last window stay, or the log is closed |
| `AdmissionBudgets.AdmitLeaves` | crates/pb-mapper-protocol/src/secure/replay.rs:228-261 | a flight that is not admitted closes the log exactly when its append was made and cannot be taken back, and otherwise leaves the records as they were |
| `AdminReplays.PrunedMeans` | crates/pb-mapper-auth/src/actor/mod.rs:250-262 | pruning keeps exactly the claims within retention, and the set stays exactly theirs |
| `AdminReplays.LoadedMeans` | crates/pb-mapper-auth/src/runtime.rs:129-146 | the trim at load drops no live claim: no more than the capacity are within retention |
| `AdminReplays.StepConsistent` | crates/pb-mapper-auth/src/actor/mod.rs:201-262 | set, order and disk agree on the live claims after every call |
| `AdminReplays.NotAgain` | crates/pb-mapper-auth/src/actor/mod.rs:222-229 | a repeat is in the set while it could still pass the timestamp check |
| `AdminReplays.AtMostOnce` | crates/pb-mapper-auth/src/actor/mod.rs:201-262 | a mutation with one fingerprint and client timestamp is admitted at most once in a root epoch, over any run of claims, pruning, compaction, resets and restarts |
| `AdminReplays.AtMostOnceUncertain` | crates/pb-mapper-auth/src/actor/mod.rs:201-248 | the same with appends that are reported failed and reached the disk all the same, as long as no start has to trim claims still within retention |
| `AdminReplays.ClaimVerdict` | crates/pb-mapper-auth/src/actor/mod.rs:201-248 | the verdict on every claim of an epoch: replayed exactly when its fingerprint was admitted in the last ten minutes, else exhausted, refused for its timestamp, failed to log, or admitted, each exactly when due |
| `AdminReplays.LoadKeepsLatest` | crates/pb-mapper-auth/src/runtime.rs:129-146 | after any run, uncertain appends included, a start holds as many of the stored claims within retention as fit, and forgets none accepted after one it holds |
| `AdminReplays.Retained` | crates/pb-mapper-auth/src/actor/mod.rs:250-262 | the retain loop: the claims kept, and the set without those forgotten |
| `AdminReplays.AdminReplayState.Prune` | crates/pb-mapper-auth/src/actor/mod.rs:250-262 | the retain loop prunes order and set together |
| `AdminReplays.AdminReplayState.ClaimMutation` | crates/pb-mapper-auth/src/actor/mod.rs:201-248 | the verdict and new state of a claim, in the order the checks are made |
| `AdminReplays.AdminReplayState.Load` | crates/pb-mapper-auth/src/runtime.rs:129-146 | rebuilds order and set from the stored claims |
| `Frames.ReadFrame` | crates/pb-mapper-protocol/src/secure/frame.rs:78-108 | a frame read has the expected counter's header, a length within the limit and all its bytes present |
| `Frames.ReadMessage` | crates/pb-mapper-protocol/src/secure/frame.rs:57-75 | a message read is the one sealed under that key and counter |
| `Frames.PrefixRoundTrip` | crates/pb-mapper-protocol/src/secure.rs:508-544 | the routing prefix parses back to its key id and salt |
| `Frames.PrefixParsedIff` | crates/pb-mapper-protocol/src/secure.rs:508-544 | bytes parse as a prefix exactly when they start with the 32 bytes some session writes, and they name that session |
| `Frames.SessionReads` | crates/pb-mapper-protocol/src/secure.rs:117-141 | a server reading what a client session wrote yields exactly its messages when the first is at most 64 KiB, and none otherwise |
| `Frames.ResponsesRead` | crates/pb-mapper-protocol/src/secure.rs:188-205 | a client reading what a session's response writer wrote yields exactly its messages |
| `Frames.AlteredResponses` | crates/pb-mapper-protocol/src/secure/frame.rs:57-108 | whatever bytes a client takes as responses, what they yield is a prefix of the session's responses |
| `Frames.Exchange` | crates/pb-mapper-protocol/src/secure.rs:117-141 | over one cipher the two directions of a session use no slot twice between them, and each side reads back exactly what the other wrote |
| `Frames.Respond` | crates/pb-mapper-protocol/src/secure.rs:248-268 | the response writer uses counters 0, 1, 2, … of the server's key once each, and no slot of any other key |
| `Frames.AlteredYieldsPrefix` | crates/pb-mapper-protocol/src/secure/frame.rs:57-108 | whatever bytes arrive, what is yielded is a prefix of the messages of the one session they name |
| `Frames.MessageWriter.WriteMessage` | crates/pb-mapper-protocol/src/secure/frame.rs:147-182 | seals under the next counter of its key, never one used before, or refuses an oversized message unsealed |
| `Frames.MessageReader.ReadNext` | crates/pb-mapper-protocol/src/secure/frame.rs:57-75 | advances by one frame and one counter on success and not at all on failure |
| `Frames.MessageReader.ReadToError` | crates/pb-mapper-protocol/src/secure/frame.rs:110-115 | yields every message before the first error |
| `Frames.WriteSession` | crates/pb-mapper-protocol/src/secure.rs:117-141 | a session uses counters 0, 1, 2, … of its key once each, and its stream is the prefix and those frames |
| `Frames.Continue` | crates/pb-mapper-protocol/src/secure.rs:188-205 | a writer goes on from the counter it is given, 1 for a continuation and 0 for responses, and seals under its own key alone |
| `ServiceKeys.TemporaryStaysHome` | crates/pb-mapper-server/src/connection.rs:492-514 | a temporary credential resolves to its own namespace or is refused, whatever it asks for |
| `ServiceKeys.AdministratorReaches` | crates/pb-mapper-server/src/connection.rs:492-514 | the administrator reaches every namespace, except that registering outside namespace 0 must be forced |
| `ServiceKeys.HexRoundTrip` | crates/pb-mapper-server/src/connection.rs:540-543 | a namespace printed in hexadecimal parses back |
| `ServiceKeys.SplitScope` | crates/pb-mapper-server/src/connection.rs:540-558 | splitting a scoped key gives its namespace and name back, for every accepted name |
| `ServiceKeys.ScopeInjective` | crates/pb-mapper-server/src/connection.rs:516-558 | two accepted keys are equal exactly when namespace and name are |
| `ServiceKeys.TemporaryKeyIsOwn` | crates/pb-mapper-server/src/connection.rs:492-558 | the key a temporary credential gets splits to its own namespace |
| `Routing.RegisterGood` | crates/pb-mapper-server/src/runtime.rs:494-575 | a registration keeps each service on one transport, strictly increasing in generation and within its limits |
| `Routing.RemoveGood` | crates/pb-mapper-server/src/lib.rs:249-264 | removing a connection leaves no empty service and breaks no order |
| `Routing.AddStreamIff` | crates/pb-mapper-server/src/runtime.rs:856-862 | recording a stream keeps every namespace count exact if and only if its client was not pending in another namespace |
| `Routing.DropStream` | crates/pb-mapper-server/src/connection.rs:560-571 | dropping a client's stream takes one from its namespace's count, and no zero is kept |
| `Routing.SelectedCounts` | crates/pb-mapper-server/src/runtime.rs:851-893 | recording a chosen connection keeps the counts exactly when the client id was not pending in another namespace |
| `Routing.StepServers` | crates/pb-mapper-server/src/runtime.rs:346-906 | every arm of the event loop, under any task at all, keeps every service on one transport, increasing in generation and within the limits |
| `Routing.StepEntries` | crates/pb-mapper-server/src/runtime.rs:346-906 | no arm lists a connection of a service twice or an id that was not handed out, given that a registering id serves nothing yet |
| `Routing.StepSound` | crates/pb-mapper-server/src/runtime.rs:346-906 | every arm keeps services, entries, ids and counts, given that and that a pending id subscribes only in its own namespace |
| `Routing.OnlyStreams` | crates/pb-mapper-server/src/runtime.rs:605-684 | a stream response comes of a stream task alone, of the key and generation of the pending subscription, and goes to the channel under that id |
| `Routing.SelectsLatest` | crates/pb-mapper-server/src/runtime.rs:797-906 | a subscription gets the greatest-generation connection that is healthy, not excluded and reachable, and none only when there is none |
| `Routing.ChoosePurges` | crates/pb-mapper-server/src/runtime.rs:805-850 | every connection passed over leaves the service and the active set |
| `Routing.ChooseSpares` | crates/pb-mapper-server/src/runtime.rs:805-850 | no other entry of the service leaves |
| `Routing.AcceptedIdIsFree` | crates/pb-mapper-server/src/manager.rs:129-150 | an id handed to a new connection is neither active, registered nor idle, and is recycled only from the idle ones |
| `RelayAnswers.SubscribeAnswered` | crates/pb-mapper-server/src/runtime.rs:797-906 | a subscription let in while some connection is usable: the latest usable connection is asked on its channel for a stream for that client's id and its own generation, the subscriber is told that connection and generation, both are recorded as pending under the client's id, and nothing else is sent |
| `RelayAnswers.SubscribeRefused` | crates/pb-mapper-server/src/runtime.rs:741-796 | any other subscription is told which limit stopped it, or that none is available, or to retry when it excluded some, and is recorded nowhere |
| `RelayAnswers.EchoReaches` | crates/pb-mapper-server/src/runtime.rs:605-684 | a stream opened for the pending client's id, key and generation reaches the channel pending under that id and no other |
| `RelayAnswers.AnsweredThenEchoed` | crates/pb-mapper-server/src/runtime.rs:605-906 | from the answer to the stream: the request's echo reaches the channel that subscribed |
| `RelayAnswers.AckReaches` | crates/pb-mapper-server/src/runtime.rs:685-740 | an acknowledgement of the pending attempt goes to the pending client's channel, and any other goes nowhere |
| `RelayAnswers.RegisterAnswered` | crates/pb-mapper-server/src/runtime.rs:494-604 | a registration is taken exactly when its service has room and its transport, or its namespace has room for the service; it is then the last entry, under the next generation, reachable under its id, and told so; otherwise nothing changes |
| `RelayAnswers.RetireTells` | crates/pb-mapper-server/src/runtime.rs:346-378 | retiring or deregistering a connection takes it out of its service and off its channel, recycles its id, moves nothing else, and tells it only when retiring |
| `RelayAnswers.ClientLeaves` | crates/pb-mapper-server/src/runtime.rs:445-460 | a client that leaves takes its pending stream and both ids with it, and touches nothing else |
| `RelayAnswers.HeardIsHealthy` | crates/pb-mapper-server/src/runtime.rs:641-660 | word from a connection, by activity, an acknowledgement or a stream, marks its entry healthy |
| `RelayAnswers.EveryRunHealthy` | crates/pb-mapper-server/src/runtime.rs:166-930 | in every run the connections listed are healthy: nothing marks one otherwise |
| `RelayRuns.HeldLegal` | crates/pb-mapper-server/src/connection.rs:174-300 | what connections do is all that a sound step asks: a connection that registers serves nothing yet, and one that is pending subscribes in its own namespace |
| `RelayRuns.StepHeldIff` | crates/pb-mapper-server/src/runtime.rs:346-906 | a proper turn keeps each id with its connection if and only if it does not hand out an id still pending, and keeps the routing state sound in any case |
| `RelayRuns.RunHeldIff` | crates/pb-mapper-server/src/runtime.rs:166-930 | over whole runs of what connections do, ids stay with their connections throughout if and only if no id handed out is still pending, and then the routing state is sound |
| `RelayRuns.EveryRunGood` | crates/pb-mapper-server/src/runtime.rs:166-930 | every run of any tasks keeps no empty service, one transport and strictly increasing generations in each, the service and connection limits, and the ids in order |
| `RelayRuns.RunCounts` | crates/pb-mapper-server/src/runtime.rs:856-862 | in a clean run a namespace's count is the number of its pending streams, within its limit and never a zero |
| `RelayRuns.HandedIsFree` | crates/pb-mapper-server/src/manager.rs:129-150 | in a clean run an id handed out is active nowhere, serves nothing, and belongs to no connection that may still subscribe |
| `RelayRuns.PassedOverArePurged` | crates/pb-mapper-server/src/runtime.rs:805-850 | in a clean run a subscription purges exactly the connections it passes over |
| `RelayRuns.StreamAnswersItsSubscription` | crates/pb-mapper-server/src/runtime.rs:605-684 | in a clean run a stream goes only to a channel that itself subscribed, under that id, to the namespace and service the stream is of |
| `RelayRuns.GenerationsStay` | crates/pb-mapper-server/src/runtime.rs:547-548 | a generation is given to one key for good |
| `RelayRuns.AcceptedStreamIsItsKey` | crates/pb-mapper-server/src/client.rs:549-565 | in any run whatsoever, a stream response with the generation of a subscription's answer is a stream of the key subscribed to |
| `RecycledIds.PendingIdMisdelivers` | crates/pb-mapper-server/src/runtime.rs:346-353 | whenever an id still pending is handed out, its new holder need only register, and the next stream for the old subscription goes to a channel that never subscribed |
| `RecycledIds.PendingIdMiscounts` | crates/pb-mapper-server/src/runtime.rs:856-862 | if its new holder subscribes in another namespace instead, a stream count goes wrong |
| `RecycledIds.ClientGone` | crates/pb-mapper-server/src/runtime.rs:865-890 | a run in which a subscription answered after its client is gone leaves a pending id idle |
| `RecycledIds.LateDeregister` | crates/pb-mapper-server/src/runtime.rs:368-378 | a run in which a retired connection, deregistering after its id went to a client, leaves a pending id idle |
| `RecycledIds.RunsGoWrong` | crates/pb-mapper-server/src/runtime.rs:346-353 | from nothing, by either cause, runs reach a misdelivered stream and a wrong count |
| `RelayManager.TaskManager.NewConnId` | crates/pb-mapper-server/src/manager.rs:129-150 | pops idle ids until one is free, else takes a fresh one |
| `RelayManager.TaskManager.DeregisterConn` | crates/pb-mapper-server/src/manager.rs:90-100 | recycles an id only when it was active, and once |
| `RelayManager.TaskManager.SignUpConn` | crates/pb-mapper-server/src/manager.rs:153-161 | activates an id only when it was handed out |
| `RelayManager.Manager.ServiceCount` | crates/pb-mapper-server/src/runtime.rs:520-526 | counts exactly the services of a namespace |
| `RelayManager.Manager.RegisterService` | crates/pb-mapper-server/src/runtime.rs:494-604 | a registration in place is the step on routes, and keeps sound state sound |
| `RelayManager.Manager.Remove` | crates/pb-mapper-server/src/runtime.rs:372-378 | a removal in place is the step on routes, and keeps sound state sound |
| `RelayManager.Manager.DeregisterClientConn` | crates/pb-mapper-server/src/runtime.rs:445-460 | a client's deregistration in place is the step on routes, and keeps sound state sound |
| `RelayManager.Manager.ChooseServer` | crates/pb-mapper-server/src/runtime.rs:805-850 | the candidate loop in place is the choice on routes |
| `RelayManager.Manager.SubscribeClient` | crates/pb-mapper-server/src/runtime.rs:741-922 | a subscription in place is the step on routes that `RelayAnswers` describes, and keeps sound state sound |
| `RelayManager.Manager.RecordSelected` | crates/pb-mapper-server/src/runtime.rs:851-893 | recording the choice in place is the same on routes; what it sends to whom is `RelayAnswers.SubscribeAnswered` |
| `RelayManager.Manager.StreamOpened` | crates/pb-mapper-server/src/runtime.rs:605-684 | a stream task in place is the step on routes, and keeps sound state sound |
| `RelayManager.Manager.StreamAcked` | crates/pb-mapper-server/src/runtime.rs:685-740 | an acknowledgement in place is the step on routes, and keeps sound state sound |
| `RelayManager.AnswerNotExcluded` | crates/pb-mapper-server/src/runtime.rs:800-804 | a subscription is never answered with a connection it excluded |
| `RelayManager.Await` | crates/pb-mapper-server/src/client.rs:549-668 | a stream is taken exactly when one of the answered generation comes first, or right after the acknowledgement of that very attempt; the run is given up exactly when something else follows that acknowledgement |
| `RelayManager.AnswerIsLatest` | crates/pb-mapper-server/src/runtime.rs:797-906 | an attempt the manager can serve is answered with the latest connection not excluded yet |
| `RelayManager.AnswerIsRefusal` | crates/pb-mapper-server/src/runtime.rs:741-922 | any other is told there is none, and to try again only when it excluded some |
| `RelayManager.DeliversOnce` | crates/pb-mapper-server/src/client.rs:407-687 | of the attempts of a run at most one is reached and brings its stream |
| `RelayManager.GetServerStream` | crates/pb-mapper-server/src/client.rs:407-687 | a retry run ends with a stream if and only if some attempt that is reached brings one, and with that stream; it never tries a connection of one generation twice, and in any run of the manager the stream was opened under the key it subscribed to |

## Left out

- TimingWheels.TimingWheel.constructor: asks for a radix of at most 65537, beyond which a placed timer is not exact; `Routes.ExactFiringIff` covers the rest.
- LeaseSchedule.Leases.Restore: deadlines within a retention of the end of `u64` are excluded here and in the other scheduling methods; the saturating additions there are not modelled.
- Authority.AuthActor.Issue: does not trim and length-check the label, and takes the longest lifetime as one year rather than a configured maximum below it.
- Authority.AuthActor.Empty: the two commands differ only in the instance id here; the administrator key, its lease and the root epoch are in `CrashEpochs` or left out.
- Recovery.BuildMirror: rows beyond the capacity are carried unchanged between starts; renewing, revoking, reaping or collecting one is not modelled.
- LeaseSchedule.AuthState.Reap: a key beyond the capacity is not reaped here; it has no timer unless dead at load.
- LeaseSchedule.Leases.CollectGarbage: collects the indexable table, not the rows beyond the capacity.
- Authority.AuthActor.constructor: the legacy policy, the administrator claims and the administrator lease are in `AdminReplays` or left out.
- Authority.AuthActor.Renew: table keys with a live lease; rows beyond the capacity are not renewed here.
- Authority.AuthActor.Revoke: table keys; rows beyond the capacity are not revoked here.
- Authority.AuthActor.Gc: collects the indexable table, as `LeaseSchedule.Leases.CollectGarbage` does.
- CrashEpochs.ResetAtomic: starts from files that belong together; `CrashEpochs.RetriesRecoverIff` covers attempts over failed ones.
- WalFraming.LogReads: that every record a caller makes is within the reader's limit is taken as the hypothesis; labels, requests and audit details are bounded far below it.
- Tombstones.RevokedThenRestarted: the clock is past zero, which the stored metadata reads as no time; rows beyond the capacity are not followed.
- ReplayGuards.NeverAdmittedTwice: a clock that steps backwards is excluded, and filter bits are booleans rather than packed in bytes.
- AdminReplays.AtMostOnceUncertain: that a fingerprint, which digests the flight with its timestamp, always comes with one timestamp is a hypothesis; a root rotation starts a new epoch with an empty set.
- Frames.Exchange: one response writer a session, as each connection makes; a write after a failed write is excluded.
- Routing.StepSound: per-namespace token buckets are a decision handed in (they are floating point), and listing and status queries are left out.
- RelayManager.GetServerStream: what arrives within the timeouts is handed in as each attempt's inbox; the sockets and the recovery deadline are left out.
- CrashRuns.EventSound: a half-made compaction that does not load ends the run, the store staying closed; what an open process does after an append it reported failed is a reset, a rotation or a restart.
- The replacement-lease branch of a renewal and `Leases::adopt`: `KeyLives.RenewCoherent` shows it is not reached.
- Counters and generations at their integer maximum, other than that a row at the last generation is not issued from.
- Safe mode beyond the log: the load that fails and the commands refused in it.
- Cryptography, randomness, JSON, file permissions, locks, tasks and sockets.
- Legacy checksum framing, byte forwarding, configuration, command line, and the other front ends.
