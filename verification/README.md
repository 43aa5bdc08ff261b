# Verified model of oci-helper-go

This project models the parts of the oci-helper-go backend that keep state over time or
transform rules, records and text, and proves what they promise. Every store access and every
remote call is a step that takes effect or fails without effect; time is an integer parameter;
`float64` sums are `real`. Each module covers one component:

| module | component |
|---|---|
| `BatchWorker`, `WorkerSafety`, `WorkerSteady`, `WorkerStop`, `WorkerRestart`, `WorkerOrder`, `WorkerResults`, `WorkerLoops` | the batch worker: task rows with checkpoints, the poll loop, runner goroutines behind a semaphore, and operators, panics, shutdown and crashes in any interleaving; three invariants, what stops, shutdowns and restarts do, the results, and the runner and poll loops in their own form, as refinements of that machine |
| `Migrations`, `MigrationLists` | schema migrations on an auto-committing store, with a crash after any statement; and a criterion on lists of migrations |
| `LikeSearch` | `escapeLike` against the meaning of SQL LIKE (section 8.5 of ISO/IEC 9075:1992) |
| `RateLimit`, `Lockout` | the login rate limiter; how long it keeps an address out |
| `DnsReconcile` | reconciling DNS bindings with a zone |
| `Defense` | enabling and disabling defense mode with saved originals |
| `Mirror` | mirroring IPv4 rules to IPv6 |
| `SubnetAllocator` | carving /64 subnets out of a /56 (section 2.3 of RFC 4291; text form of section 4 of RFC 5952) |
| `Sessions` | session revocation with pruning |
| `CreateRun`, `CreateScheduler` | the launch loops of a recurring creation, and the scheduler around them |
| `TaskPool`, `Traffic`, `TrafficReport` | bounded fan-out, the traffic of one region, and the report of an account |
| `Conversations` | eviction from the conversation cache |
| `TailLines` | the last lines of a log, by ring buffer |
| `ConsoleString` | the console connection string parser |
| `Texts`, `Sequences`, `Options` | numerals, letters, separators, repetition-free sequences and optional values, shared by the others |

A component whose code updates fields in place is a class whose methods are proved against
functions on its contents; the results are then lemmas about those functions over all inputs
and all runs. Where a promise does not hold without a condition, the condition is a guard that
can be evaluated before the step, it is proved exact where the text says so, and a concrete
run shows what happens without it:

- A claim that finds a live runner of the task, or a checkpoint that moved since the listing, starts
  a second or an outdated runner; nothing else does (`WorkerResults.FreshClaimIsExact`). Without such
  claims an index is launched again only after a panic or crash between its launch and its checkpoint
  (`WorkerResults.LaunchesAreBounded`); with them also without any. They come from
  resuming the task of a live runner (`WorkerResults.ResumeOfLiveTaskLaunchesTwice`), or from resetting
  it while the poll loop still runs: the resets of a shutdown and of a restarted poll loop leave the
  task of a live runner pending (`WorkerResults.CarefulIsExact`). The comment in `Shutdown` that the
  worker no longer processes does not cover the runners; but once the poll loop has stopped, nothing
  is claimed until the process ends (`WorkerOrder.StoppedPollerIsFresh`).
- A stop or pause of a task need not last: unless no live runner is left, or the one that is left only
  marks the task failed or records its last launch, the runner writes "pending" or "running" over the
  operator's word, and the next poll goes on with the task (`WorkerRestart.HaltIsFinalIff`,
  `WorkerResults.StoppedTaskGoesOn`). A stop that falls between the runner's status test and its last
  write of "running" for an instance is not even seen by that runner (`WorkerStop.HaltIsHeededIff`).
- An address that is cleared by an admin stays refused until its window is over, because only the block
  is removed and not the count (`Lockout.ClearedIsAdmittedIff`, `Lockout.ClearWaitsForWindow`).
- A schedule whose run ends between the pump's listing and its check is started again with the
  old count (`CreateScheduler.CarefulIsExact`, `CreateScheduler.StaleStartLosesTheCount`,
  `CreateScheduler.StaleStartIsReachable`). A single availability domain gets at most half of the
  instances, rounded up, when every launch succeeds (`CreateRun.AllSucceedStopsHalfway`).
- A region whose goroutine panics leaves an empty slot without an error, so an empty `Errors`
  does not mean that every region was read (`TrafficReport.ErrorsMeanCompletenessIff`).
- A request that stalls between its age test and the lookup in the revocation map until the
  session has expired can be accepted after a logout (`Sessions.StalledRequestRevives`).
- A list whose ingress rules were a nil slice is saved as nothing and comes back open to
  everybody (`Defense.DisableRestoresIff`); so does a list that a failed first enable did not
  reach (`Defense.EarlyDisableOpensUntouchedLists`).
- A batch of migrations that gives an index the name of a table whose creation it skips for a repeated
  column is stuck if the process dies before its version row (`Migrations.RecoversIffApart`).
- A protocol that contains `|` makes rule keys collide (`Mirror.BarInProtocolHidesRules`).
- A destination that starts with `-` is taken for a flag and lost (`ConsoleString.RoundTripIff`).

Assumptions: store writes succeed; operators do not edit task payloads; a process crash removes
all runners of that process; session ids are fresh (`Sessions.ReusedIdChangesVerdict` shows why);
the DNS records of a zone have distinct ids.

## Model

| member | source | states |
|---|---|---|
| WorkerResults.NoIndexSkipped | internal/handler/worker.go:209-255 | in every reachable state, under any interleaving of runners (also two on one task), operators, resets, panics and crashes, each index below the stored checkpoint was attempted, a task recorded as completed had all its indices attempted, and nothing beyond the total is ever attempted |
| WorkerResults.CompletesOnlyWhenAllLaunched | internal/handler/worker.go:295-343 | a runner about to write "completed" has every index of its task behind it |
| WorkerResults.SemaphoreCountsRunners | internal/handler/worker.go:168-178 | the semaphore holds exactly one slot per runner inside it, never more than five, and none when all runners are gone |
| WorkerResults.PanicReturnsSlot | internal/handler/worker.go:170-176 | whatever the others do in between, a runner that panics marks its task failed with its next step and gives its slot back with the one after |
| WorkerResults.FreshClaimIsExact | internal/handler/worker.go:137-155 | a step keeps one live runner per task, with a row that counts its launches, if and only if a claim that starts a runner finds no live one and the checkpoint it was listed with |
| WorkerResults.OneRunnerPerTaskAlways | internal/handler/worker.go:131-161 | with careful operators and resets only, a task with a live runner is never pending, has no second live runner and is not about to be claimed |
| WorkerResults.CarefulIsExact | internal/handler/handler_tasks.go:142-149 | a step from an orderly state leaves no task pending that has a live runner if and only if it is careful: no resume of such a task, no reset while a live runner's row is running |
| WorkerOrder.RestartIsOrderly | internal/handler/worker.go:95-129 | after a process crash the state is orderly again, whatever resumes and resets went before |
| WorkerOrder.StoppedPollerIsFresh | internal/handler/worker.go:118-122 | after the poll loop has stopped every run of the process is one with fresh claims, whatever operators, resets and runners do |
| WorkerResults.LaunchesAreBounded | internal/handler/worker.go:296-341 | in every run with fresh claims, over resumes, resets, shutdowns, panics and crashes: no task has two live runners; launches of a task equal its checkpoint, plus one per hit between a launch and its checkpoint, plus the one under way; at most total plus the hits on live runners; a completed task has its checkpoint at the total |
| WorkerResults.CarefulLaunchesAreBounded | internal/handler/worker.go:296-341 | the same bound for every run of careful operators and resets, whose claims are all fresh |
| WorkerResults.CheckpointNeverDecreases | internal/handler/worker.go:356-370 | over a run with fresh claims the stored checkpoint never decreases, and a task whose checkpoint reached its total launches nothing more even when resumed |
| WorkerResults.ResumeOfLiveTaskLaunchesTwice | internal/handler/handler_tasks.go:142-149 | a run in which resuming a live task launches its only instance twice without any crash |
| WorkerStop.IdleStopIsFinal | internal/handler/handler_tasks.go:127-141 | a stop or pause of a task without a live runner lasts: until it is resumed nothing of it is launched and its status stays what the operator wrote, over any run |
| WorkerStop.HaltIsHeededIff | internal/handler/worker.go:219-255 | after a stop or pause the live runner of the task launches nothing more, in any run with fresh claims in which the task is not resumed, exactly if the stop does not fall between its status test and its last write of "running" for an instance, or that instance is the last one, or the process is stopping |
| WorkerRestart.HaltIsFinalIff | internal/handler/worker.go:219-224 | a stop or pause lasts over later runners and processes too exactly if everything is launched and recorded, or no live runner is left but one that marks the task failed or records the last launch |
| WorkerResults.StoppedTaskGoesOn | internal/handler/worker.go:219-224 | a run in which a stopped task is launched without being resumed |
| WorkerStop.ShutdownLetsOneLaunchPass | internal/handler/worker.go:209-218 | once the stop channel is closed a task launches at most one more instance in this process, and none unless a runner has already passed its test of the channel |
| WorkerStop.LeftAloneCompletes | internal/handler/worker.go:209-254 | left alone, a runner launches exactly its remaining indices, each once and in order, and records the task as completed |
| WorkerRestart.InterruptedTaskGoesOn | internal/handler/worker.go:98-104 | an unfinished task that is pending or running can go on after a crash of the process, with the launch of exactly the index its checkpoint says |
| WorkerSafety.RunKeepsSafe | internal/handler/worker.go:95-129 | the invariant behind these results holds over every run from any state that has it |
| WorkerLoops.Worker.RunBatchStart | internal/handler/worker.go:188-255 | the loop over instances takes only steps of the runner machine, whatever happens between them, and ends ready to give its slot back |
| WorkerLoops.Worker.RunBatchCreate | internal/handler/worker.go:272-343 | likewise for the creation loop with its interruptible sleep |
| WorkerLoops.Worker.RunWithSem | internal/handler/worker.go:168-178 | waiting for a slot, running the task and giving the slot back is a run of the machine, so the invariant of every interleaving holds afterwards; without a slot the runner still waits |
| WorkerLoops.Worker.SaveCheckpoint | internal/handler/worker.go:356-370 | the saved checkpoint is the given index, in the row and in the runner |
| WorkerLoops.Worker.UpdateTaskStatus | internal/db/queries.go:205-210 | the row has the written status and the runner goes on where the code does |
| WorkerLoops.Worker.TaskIsActive | internal/handler/worker.go:346-352 | true exactly when the row is running |
| WorkerLoops.PollLoop.ProcessNext | internal/handler/worker.go:131-161 | a pass over the pending tasks takes only poll, claim and mark steps, and keeps the invariant |
| WorkerLoops.PollLoop.ClaimAndStart | internal/db/queries.go:192-203 | a task is claimed exactly if it is still pending; a claimed batch task gets one runner that starts from the listed checkpoint |
| WorkerLoops.PollLoop.ListPendingTasks | internal/db/queries.go:231-236 | lists a pending task, with the checkpoint it has at that moment, exactly if fewer than fifty pending ones have a smaller id |
| BatchWorker.FirstPendingAreListed | internal/db/queries.go:231-236 | of the pending rows from an id on, exactly those with fewer than `limit` pending ones before them are listed |
| Migrations.MigrationsSurviveCrashes | internal/db/migrate.go:260-308 | after any number of starts of this or an older server, each cut off after any statement, the next complete start succeeds with the tables, column order, indexes and version rows of one uninterrupted run |
| Migrations.RecoversIffApart | internal/db/migrate.go:281-298 | a list that migrates an empty store recovers from every crash exactly if no batch gives an index the name of a table whose creation it skips |
| Migrations.SecondRunIsNoOp | internal/db/migrate.go:280-286 | a start on a migrated store finds nothing pending and changes nothing |
| Migrations.UpgradeFromPrefix | internal/db/migrate.go:284-302 | upgrading from any prefix of the list gives the result of migrating an empty store |
| Migrations.Absorb | internal/db/migrate.go:281-298 | running a batch again after part of it was done ends in the state of the longer of the two parts |
| Migrations.Store.Execute | internal/db/migrate.go:290-296 | one DDL statement does to the schema what SQLite does: created, already there, duplicate column (also in a new table), or an error |
| Migrations.Store.RunMigrations | internal/db/migrate.go:260-308 | a start that dies after some number of statements leaves the store as that many statements of its program do, and reports success, failure or the crash accordingly |
| MigrationLists.LegalIsWellFormed | internal/db/migrate.go:11-257 | a list with ascending versions in which every statement creates a table with distinct columns, or alters or indexes what an earlier one created, migrates an empty store, so the crash and upgrade results apply to it |
| MigrationLists.MigratedSchemaIs | internal/db/migrate.go:284-302 | the schema it leads to: exactly the tables it creates beside the version table, each with its declared columns first and then the added ones, none twice, and exactly the indexes it creates |
| LikeSearch.EscapeLike | internal/db/queries.go:9-19 | the buffer loop yields the keyword with a backslash before each `%`, `_` and backslash |
| LikeSearch.EscapedSearchIsSubstringSearch | internal/db/queries.go:276-287 | for every keyword and text the pattern is valid, and LIKE with it holds exactly when the keyword occurs in the text up to ASCII case |
| LikeSearch.SearchDecidesLike | internal/db/queries.go:276-287 | backtracking search decides the partition semantics of the standard |
| LikeSearch.EscapeRoundTrip | internal/db/queries.go:9-19 | the escaped keyword reads back as the literal characters of the keyword |
| LikeSearch.EscapeIsInjective | internal/db/queries.go:9-19 | different keywords have different patterns |
| LikeSearch.UnescapedSearchIsNot | internal/db/queries.go:9-19 | without escaping the law fails |
| RateLimit.FailureBound | internal/handler/handler.go:629-652 | whatever happened before, while an address neither succeeds nor is cleared by an admin, any closed interval of one window length holds at most 2*maxHits-2 failures that got past the blocked check, wherever cleanups fall |
| RateLimit.ServerFailureBound | internal/handler/ratelimit.go:27-39 | the server's limits allow eight such failures in any quarter of an hour |
| RateLimit.FailureBoundIsTight | internal/handler/ratelimit.go:41-57 | the bound is reached for every setting of the limits |
| RateLimit.CleanupNeverChangesVerdicts | internal/handler/ratelimit.go:94-117 | cleanups at any moments change no verdict of `allow`, and dropping expired window entries changes no verdict of `isBlocked` either |
| RateLimit.LoginRateLimiter.AllowFailure | internal/handler/ratelimit.go:41-57 | new contents and verdict of counting one failure |
| RateLimit.LoginRateLimiter.CheckBlocked | internal/handler/ratelimit.go:65-79 | blocked exactly if listed, or if an open window has reached the limit |
| RateLimit.LoginRateLimiter.ClearBlockedIP | internal/handler/ratelimit.go:81-92 | removes one address, or all for the empty one, and tells whether there was something to clear |
| RateLimit.LoginRateLimiter.Cleanup | internal/handler/ratelimit.go:94-117 | removes exactly the expired entries and the outdated blocks, in any order of iteration |
| Lockout.BlockHolds | internal/handler/ratelimit.go:65-72 | a blocked address stays out, and nothing it tries is checked, until an admin clears it or a cleanup comes more than the block's lifetime later |
| Lockout.CleanupEndsBlock | internal/handler/ratelimit.go:107-111 | that cleanup lets it in again, since its window is over as well |
| Lockout.ClearedIsAdmittedIff | internal/handler/ratelimit.go:81-92 | after an admin's clear an address is let in exactly unless its window is open and has reached the limit |
| Lockout.ClearWaitsForWindow | internal/handler/ratelimit.go:81-92 | after a burst that blocked it and a clear, it is refused until the window of the burst is over |
| Lockout.SuccessStartsAfresh | internal/handler/ratelimit.go:59-63 | after a success an address can fail as often as a new one before it is blocked |
| DnsReconcile.FindBindingTarget | internal/handler/handler_cloudflare.go:1180-1206 | the first A record of the normalized name, unless another type shares the name; then the first such type |
| DnsReconcile.NormalizeIs | internal/handler/handler_cloudflare.go:1181-1181 | names are compared without trailing dots and without regard to ASCII case |
| DnsReconcile.JobsAre | internal/handler/handler_cloudflare.go:1068-1080 | a pass works on a binding with an address if and only if the address is that of a listed instance that has one, and the binding is stored, enabled, named and belongs to it |
| DnsReconcile.DnsMonitor.KeepUsable | internal/handler/handler_cloudflare.go:819-831 | the in-place filter keeps exactly the enabled, named bindings in order |
| DnsReconcile.DnsMonitor.SyncBinding | internal/handler/handler_cloudflare.go:1097-1172 | one binding: nothing on error, conflict or unchanged address; else the record is replaced or created, with one retry; and the number of write calls |
| DnsReconcile.DnsMonitor.Reconcile | internal/handler/handler_cloudflare.go:1068-1091 | a pass does the bindings of all instances with an address in order, and notes the last address of each instance that has bindings |
| DnsReconcile.PassConverges | internal/handler/handler_cloudflare.go:1068-1172 | a pass in which no call fails for good leaves the first A record of every non-conflicting binding at its instance's address, if and only if bindings on one zone and name agree on the address |
| DnsReconcile.ReconcileConverges | internal/handler/handler_cloudflare.go:1068-1172 | in the terms of the pass's inputs: every enabled and named binding of an instance with an address, whose zone is reachable and has only A records under its name, ends with the first of them at that address, if the bindings with its zone and name agree |
| DnsReconcile.LastIPsAre | internal/handler/handler_cloudflare.go:1086-1088 | the noted address of an id is that of the last instance with the id that has bindings |
| DnsReconcile.SecondPassWritesNothing | internal/handler/handler_cloudflare.go:1139-1143 | a second pass over the same bindings makes no write call and changes nothing |
| DnsReconcile.PassFrame | internal/handler/handler_cloudflare.go:1174-1206 | whatever fails, a record only changes to what a binding asks for (type, name, address, proxied, TTL), keeps its id, and only if it is the first A record of its name and no other type has the name; added records are what a binding asks for, under names that had none |
| Defense.DefenseService.EnableDefense | internal/handler/handler_defense.go:74-122 | an enable filters the lists up to the first failing update, saves originals that are not saved yet, and sets the flags only if all succeed |
| Defense.DefenseService.DisableDefense | internal/handler/handler_defense.go:178-235 | a disable restores the lists up to the first failing update and forgets the originals only if all succeed |
| Defense.EnableBlocksExactly | internal/handler/handler_defense.go:74-110 | a successful enable takes out of every list exactly the rules whose source is an entry of the blacklist, and keeps every other as often as it was; unless these are all and the cloud ignores an empty update |
| Defense.DisableRestoresIff | internal/handler/handler_defense.go:178-218 | a successful disable restores a list exactly if its original is saved and was not nil, or it was never touched and allows all |
| Defense.FlagsTellLastSuccess | internal/handler/handler_defense.go:116-121 | the stored flag and blacklist are those of the last attempt that succeeded |
| Defense.DefenseCanBeUndone | internal/handler/handler_defense.go:74-122 | after failed enables, one success and any attempts that are not a successful disable, the originals are still saved, and the next successful disable gives each list its rules from before the first enable, exactly when they were not nil, and leaves nothing saved |
| Defense.EarlyDisableOpensUntouchedLists | internal/handler/handler_defense.go:178-235 | why one enable must have succeeded: a list it did not reach is opened to everybody by the disable |
| Mirror.MirrorRules | internal/oci/client.go:1127-1149 | the loops append, in order, a copy for ::/0 of each rule open to 0.0.0.0/0 whose key no IPv6 rule had at the start |
| Mirror.MirrorIsComplete | internal/oci/client.go:1132-1149 | afterwards each such rule, if its protocol has no bar, has a rule for ::/0 with the same protocol and destination ports |
| Mirror.BarInProtocolHidesRules | internal/oci/client.go:1190-1207 | for every protocol with a bar there are rules whose keys collide and whose counterpart is missing |
| Mirror.OnlyMirrorsAreAdded | internal/oci/client.go:1138-1149 | a rule is added if and only if it is the copy, in all other fields, of a rule open to 0.0.0.0/0, and no rule for an IPv6 block had its key |
| Mirror.MirrorIsIdempotent | internal/oci/client.go:1127-1149 | a second pass adds nothing, also when several IPv4 rules share a key |
| Mirror.PassKeepsRules | internal/oci/client.go:1120-1186 | wherever a pass stops, the rules of each list stay an unchanged prefix, each list is untouched or completely mirrored, and lists that were not named are untouched |
| Mirror.PassMirrorsAll | internal/oci/client.go:1120-1186 | a pass without a failed call mirrors every list it was given |
| Mirror.SecondPassUpdatesNothing | internal/oci/client.go:1173-1175 | after such a pass another one updates no list, whichever of its calls fail |
| Mirror.Client.MirrorToIPv6 | internal/oci/client.go:1120-1186 | lists, updates and result of a pass in which a given number of remote calls succeed |
| Mirror.PortTextUnique | internal/oci/client.go:1198-1206 | the port part of a key determines protocol family and both bounds, negative ones included |
| SubnetAllocator.DeriveSubnet | internal/oci/client.go:1049-1076 | the text of the lowest free /64, or an error if the block does not parse or is full |
| SubnetAllocator.DerivedIsFreeAndInside | internal/oci/client.go:1062-1074 | the result lies in the VCN's /56, all lower subnets are used, and it shares no address with any used subnet written canonically, of this or another block |
| SubnetAllocator.TextReadsBack | internal/oci/client.go:1068-1071 | the text of an address, read as section 2.2 of RFC 4291 says, is that address |
| SubnetAllocator.DerivedReadsBack | internal/oci/client.go:1062-1074 | what is handed out reads back as the first 56 bits of the VCN's block, the number of the subnet, and zeros, with the length 64 |
| SubnetAllocator.FailsIffFull | internal/oci/client.go:1067-1075 | it fails exactly when all 256 subnets are used |
| SubnetAllocator.ChainIsRepeatedDerivation | internal/oci/client.go:1067-1074 | a chain is what repeated calls return, each with the earlier results among the used subnets |
| SubnetAllocator.ChainIsDisjoint | internal/oci/client.go:1067-1074 | any two allocations of a chain fed back as used have no common address |
| SubnetAllocator.ChainUsesEverySubnet | internal/oci/client.go:1067-1075 | a chain yields as many subnets as were asked for or are free, whichever is less |
| SubnetAllocator.CidrUnique | internal/oci/client.go:1068-1071 | the canonical texts of different subnets differ, also across blocks |
| Sessions.AuthService.GetSession | internal/auth/auth.go:206-243 | a session is returned exactly if its cookie is authentic, it has an id, is younger than a day, and its id is not revoked |
| Sessions.AuthService.Logout | internal/auth/auth.go:187-202 | revokes the presented session if the lookup still accepts it, and no other, in the map as others have left it by the second lock |
| Sessions.AuthService.CleanupRevoked | internal/auth/auth.go:84-102 | drops exactly the revocations older than a day, in any order of iteration |
| Sessions.AcceptedIff | internal/auth/auth.go:206-243 | over every run an issued session is accepted exactly if it has an id, is younger than a day, and its logout has not got as far as its insertion |
| Sessions.PruningNeverRevives | internal/auth/auth.go:84-102 | over every run of logins, logouts in two steps, clock advances and cleanups a session gets the same verdict as with a map that is never pruned, if it has not outlived its day between age test and lookup |
| Sessions.PruningNeverRevivesAtOnce | internal/auth/auth.go:206-243 | without that condition when test and lookup are one moment |
| Sessions.StalledRequestRevives | internal/auth/auth.go:232-241 | past the lifetime by any amount at the lookup, a stalled request can be accepted although its session was logged out |
| Sessions.LogoutIsFinal | internal/auth/auth.go:187-202 | a session that was logged out is not accepted again, whatever happens between lookup and insertion, and after |
| Sessions.LogoutRevokesOnlyItself | internal/auth/auth.go:188-195 | a logout changes the verdict of no other session |
| Sessions.ReusedIdChangesVerdict | internal/auth/auth.go:145-145 | with a repeated id pruning does change a verdict |
| CreateRun.LaunchAll | internal/handler/handler_createtasks.go:277-327 | the nested loops, with a shrinking bound and a denial that ends a pass but not the run, compute the passes over the availability domains |
| CreateRun.LaunchesConserve | internal/handler/handler_createtasks.go:277-327 | success plus remaining always equals what was asked for, and remaining is never negative |
| CreateRun.PassBounds | internal/handler/handler_createtasks.go:284-301 | a pass entered with r remaining and not denied makes between ceil(r/2) and r attempts, and attempts plus successes are r or r + 1 |
| CreateRun.RunCounts | internal/handler/handler_createtasks.go:284-327 | a run has launched as many instances as calls were answered by a launch, is denied exactly if a call was, and makes no call for domains without a name |
| CreateRun.PassCounts | internal/handler/handler_createtasks.go:298-316 | within one availability domain a denial is the last call |
| CreateRun.AllSucceedStopsHalfway | internal/handler/handler_createtasks.go:284-301 | when every launch succeeds, a pass launches half of what remains, rounded up |
| CreateRun.RunFollowsLoops | internal/handler/handler_createtasks.go:277-327 | taking the launch calls one at a time, as the scheduler's machine does, gives what the nested loops give |
| CreateScheduler.AtMostOneRun | internal/handler/handler_createtasks.go:204-217 | at most one run per schedule is in flight in every reachable state, whatever operators, stale listings, panics and restarts do |
| CreateScheduler.RunConservesCount | internal/handler/handler_createtasks.go:277-302 | at every point of a run, success plus remaining equals the count it was started with |
| CreateScheduler.StartsAreSpaced | internal/handler/handler_createtasks.go:208-210 | a schedule is not started before its listed interval has passed since its last start |
| CreateScheduler.PassStartsExactlyDue | internal/handler/handler_createtasks.go:197-218 | after a pass a run of a schedule is in flight if and only if one was before, or the schedule is stored, not paused, asks for a positive count, and never ran or last ran at least its interval ago |
| CreateScheduler.ActiveRowsAreAll | internal/db/queries.go:720-735 | the listing holds exactly the schedules that are not paused and ask for a positive count |
| CreateScheduler.StartedRunsAreMarked | internal/handler/handler_createtasks.go:211-216 | a run that a pass starts is asked for the stored count, and its row remembers the moment |
| CreateScheduler.PausedIsNotStarted | internal/handler/handler_createtasks.go:146-155 | a schedule paused while no run of it is in flight is not started by later passes until it is resumed or edited |
| CreateScheduler.ResumedIsStarted | internal/handler/handler_createtasks.go:151-155 | resumed after its interval, it is started by the next pass |
| CreateScheduler.CreatedIsStarted | internal/handler/handler_createtasks.go:197-218 | a new schedule that asks for something is started by the next pass |
| CreateScheduler.RowLeavesIff | internal/handler/handler_createtasks.go:329-345 | a schedule goes exactly if it is deleted, given up, or its run ends denied or with everything launched that was asked for |
| CreateScheduler.CarefulIsExact | internal/handler/handler_createtasks.go:197-218 | a step keeps launched plus outstanding equal to what was asked for if and only if it is careful: the listed count is still stored, an edit agrees with the run in flight, and a panic or restart hits no unrecorded launches |
| CreateScheduler.CountIsConserved | internal/handler/handler_createtasks.go:329-345 | over careful runs, whenever no run of a kept schedule is in flight, launched plus stored equals what was asked for |
| CreateScheduler.PumpKeepsBalance | internal/handler/handler_createtasks.go:197-218 | with listing and checking taken as one step a pass keeps launched plus outstanding equal to what was asked for |
| CreateScheduler.WholePassesAreCareful | internal/handler/handler_createtasks.go:197-218 | every run with such passes, whose edits, panics and restarts are guarded, is a careful run of the machine |
| CreateScheduler.UndisturbedRunsConserve | internal/handler/handler_createtasks.go:197-218 | so, without edits, panics and restarts, launched plus stored equals what was asked for in every run with such passes, whenever no run of the schedule is in flight |
| CreateScheduler.AskedStays | internal/handler/handler_createtasks.go:110-133 | only an edit changes what was asked for |
| CreateScheduler.StaleStartLosesTheCount | internal/handler/handler_createtasks.go:197-218 | from every balanced state, a start with a stale count leads to a wrong stored count |
| CreateScheduler.StaleStartIsReachable | internal/handler/handler_createtasks.go:197-218 | such a start happens after otherwise careful steps |
| CreateScheduler.Scheduler.PumpCreateTasks | internal/handler/handler_createtasks.go:197-218 | the pump lists the active schedules and considers each once, in order of id; with any events of the others before each check it is a run of the machine |
| CreateScheduler.QuietPass | internal/handler/handler_createtasks.go:197-218 | with no events in between, that run is the pass taken as one step |
| CreateScheduler.Scheduler.FinishRun | internal/handler/handler_createtasks.go:329-345 | a denied or finished run deletes its row, any other stores what remains |
| TaskPool.PoolCompletesAll | internal/oci/client.go:1580-1605 | with at most `limit` goroutines in flight, each index completes exactly once before the wait is over, in some order, and the pool never gets stuck |
| Traffic.SumVnicMetric | internal/oci/client.go:1543-1567 | the sum over all present datapoints of all streams, times the step |
| Traffic.PointCounts | internal/oci/client.go:1559-1565 | a present datapoint counts in the sum and a missing one does not, wherever it stands |
| Traffic.VnicsAreListed | internal/oci/client.go:1589-1602 | each instance is reported with its id, name and region, and in the order of the listing with exactly the VNICs that have an id, with their ids and names; none if the listing failed |
| Traffic.VnicIsMeasured | internal/oci/client.go:1608-1665 | each VNIC holds what its own two queries measured, zero for one that failed; the queries go through the instances and VNICs in order, inbound first |
| Traffic.CountNoneIs | internal/oci/client.go:1647-1655 | the failure counts are the numbers of failed listings and failed queries |
| Traffic.TasksAre | internal/oci/client.go:1608-1628 | every direction of every resolved VNIC is queried exactly once |
| Traffic.FetchDetail | internal/oci/client.go:1573-1667 | whatever the completion orders of both phases, the result is the same |
| Traffic.InstanceTotalsRollUp | internal/oci/client.go:1652-1665 | the totals of each instance are the sums over its VNICs |
| Traffic.EveryMeasurementLands | internal/oci/client.go:1652-1665 | each VNIC holds the sum of its own query, zero if it failed |
| Traffic.NoneMissing | internal/oci/client.go:1647-1655 | a failure count is zero exactly when everything was read |
| TrafficReport.CollectRegion | internal/handler/handler_traffic.go:230-273 | totals, failure counts, error and partial flag of one region |
| TrafficReport.CollectStats | internal/handler/handler_traffic.go:278-334 | the report does not depend on the order in which the regions finish |
| TrafficReport.AccountTotalsRollUp | internal/handler/handler_traffic.go:312-321 | the account's totals are the sums of all VNIC measurements of the regions that could be read |
| TrafficReport.RegionsAreCounted | internal/handler/handler_traffic.go:312-327 | the regions without an error are counted, panicked ones included, and their instances; the report is partial exactly if something is missing in a region that was read |
| TrafficReport.SortingKeepsTotals | internal/handler/handler_traffic.go:328-330 | the sorted regions still add up to the account's totals |
| TrafficReport.SortedIsStable | internal/handler/handler_traffic.go:328-330 | the order is descending by outbound traffic, a rearrangement, and keeps the order of equals |
| TrafficReport.StableSortIsUnique | internal/handler/handler_traffic.go:328-330 | every stable descending sort gives this order |
| TrafficReport.ErrorsEmptyIff | internal/handler/handler_traffic.go:311-327 | `Errors` is empty exactly when each region was read without error and is not partial, or its goroutine panicked |
| TrafficReport.ErrorsMeanCompletenessIff | internal/handler/handler_traffic.go:288-297 | an empty list means that all was read exactly when no goroutine panics, or some other region reports a problem |
| Conversations.ExchangeSort | internal/handler/handler.go:1605-1611 | the nested exchange loops sort the entries by last access and keep them all |
| Conversations.ConversationCache.Cleanup | internal/handler/handler.go:1588-1616 | no kept entry is expired or changed, at most 200 remain, no more are evicted than the cap demands, and no evicted live entry was used later than a kept one |
| Conversations.CleanupIsDetermined | internal/handler/handler.go:1588-1616 | if no two entries were used at the same moment the kept entries are determined, whatever the order of the map |
| Conversations.EvictionNeedsCap | internal/handler/handler.go:1594-1612 | an entry used within the hour is evicted only if more than 200 were, and then 200 remain |
| Conversations.CleanupIsIdempotent | internal/handler/handler.go:1588-1616 | a second pass at the same moment evicts nothing |
| TailLines.ReadLastNLines | internal/handler/handler_wslog.go:153-184 | the output is exactly the last min(n, total) lines in order; nothing for n <= 0 |
| TailLines.RingSlot | internal/handler/handler_wslog.go:171-181 | reading the ring with the shrunk modulus meets the slots in the order of the lines |
| ConsoleString.ParseConsoleConnectionString | internal/handler/handler_shell.go:527-587 | the parser with its walks around the '@' computes the specified result, with the three error cases |
| ConsoleString.ParseOuterTarget | internal/handler/handler_shell.go:593-634 | the first field after the quoted value that is neither a flag nor a flag's value, without its user; and the last valid port flag before it |
| ConsoleString.OuterCommandIsRead | internal/handler/handler_shell.go:603-633 | options are passed over with their values, the last port that is positive and fits counts, and the first word that is neither is the destination without its user |
| ConsoleString.ParseOfRendered | internal/handler/handler_shell.go:519-587 | the documented format, with any options, either quote and an optional outer user, parses to what it says; a port beyond 64 bits becomes 443 and a destination like a flag becomes localhost |
| ConsoleString.RoundTripIff | internal/handler/handler_shell.go:519-634 | parsing undoes rendering exactly when the port fits and the destination does not start with '-' (or is the fallback) |
| ConsoleString.ParsedIsWellFormed | internal/handler/handler_shell.go:527-634 | every accepted string yields a non-empty user and host without blanks and quotes, and a target without '@' with a positive port |
| Texts.DecimalUnique | internal/oci/client.go:1198-1206 | two `%d-` renderings agree only for equal numbers |

## Left out

- HTTP handling, JSON, the OCI, Cloudflare, Telegram and AI clients, the web shell, VNC and the frontend: input and output only.
- AES-GCM, bcrypt, HMAC and MFA: library code; an authentic cookie is one whose session the server issued.
- Parent tasks: their aggregation has no effect, since rows are created without setting their id and the parent id stays 0; a parent row is claimed, marked running and nothing more.
- Edits of task payloads and the backup restore that replaces all rows.
- WorkerLoops.Worker.RunWithSem: does not model the recovery after a panic, which is a step of the machine in `BatchWorker`.
- The batch worker's two remote calls for one instance (look-up and start) are one launch attempt; a failed look-up counts as an attempt.
- RateLimit.FailureBound: needs maxHits of at least 2 and a block that lasts at least one window, as the server's settings do (`RateLimit.ServerFailureBound`); with maxHits 1 the first failure of a window is always let through. The persistent blacklist table, which only blocks more, is not modelled.
- Migrations: timestamps of the version rows, column types and SQLite's case folding of names; the ten migrations of the repository are not evaluated statement by statement, `MigrationLists.LegalIsWellFormed` is the criterion they are to be read against.
- DnsReconcile: lower-casing beyond ASCII, comments of records, and the second phase of auto-sync with implicit names.
- Defense: egress rules, which are passed through, pagination beyond the first lists, lists without an id, and the JSON form of the saved originals; what the cloud does with a nil slice is a parameter.
- Mirror: ICMP types and source ports play no part in the keys of the code either; two rules that differ only there count as the same.
- SubnetAllocator.DeriveSubnet: does not model the parsing of the block's text; a used subnet that is not written canonically is not recognised by the code.
- CreateScheduler: the recreation of all rows by a restore; running the ending of a run and leaving the running map are separate steps, the writes are atomic.
- Traffic: rounding of floating-point sums, and a panic inside a measurement goroutine, which is not recovered there and ends the process.
- Conversations: the content of conversations and the accesses between two cleanups.
- TailLines: reading the file; a line longer than the scanner's buffer ends the input.
- ConsoleString: text is compared by characters; the separators are ASCII, so this agrees with the bytes of valid UTF-8.
- Auto-rescue, disk shrinking, netboot, masking, pagination and region tables: enumeration over remote calls or easy members.
