# Verified model of the decision pipeline

This project models, in Dafny, the unattended operation of a theme park: an orchestrator that watches
the park through a bridge plugin, proposes price changes, has a governor authorize them, and sends
commands to the game engine; a watchdog process that may only raise the alarm; and a person who may
resolve it. All of them meet in one append-only ledger. The theorems say what holds over every run:
every order of messages, crashes, restarts and reconnects, and every pattern of failures of the
database, the snapshot script, the file copy and the socket.

## How it is built

- `Ledger.dfy`, `Governor.dfy`, `WorldModel.dfy`, `Operator.dfy`, `Oscillation.dfy`,
  `IdempotencyKey.dfy`, `Persistence.dfy`, `ConnectionHealth.dfy`: the parts, each as a class or method in the
  source's own form, each method proved against a function of its state.
- `Server.dfy`: every message handler and every watchdog check as a function of the whole state. Each
  call to the outside takes a fault record. A write is committed, refused, or committed without the
  caller learning of it.
- `Orchestrator.dfy`: the same handlers as a class with fields, maps and loops, and the watchdog process,
  each method proved equal to its function.
- `Runs.dfy`: the state machine over those functions. An event that is not possible in a state leaves it
  as it is, so every sequence of events is a run.
- `Transitions.dfy`, `SafetyLaws.dfy`, `RecoveryLaws.dfy`, `LedgerLaws.dfy`, `ActionLaws.dfy`, `KeyLaws.dfy`,
  `RateLaws.dfy`, `LifetimeLaws.dfy`: what every run keeps.
- `SendLaws.dfy`, `OutcomeLaws.dfy`, `ResponseLaws.dfy`, `OutageLaws.dfy`, `WindowQuery.dfy`, `ProcessLaws.dfy`, `HoldLaws.dfy`: exactly when the
  system acts and exactly when a state ends, so that a system that does nothing does not satisfy the
  theorems. `WindowExample.dfy` is a concrete run.
- `BridgeConnection.dfy`, `BridgeCommands.dfy`, `EndToEnd.dfy`: the bridge, and both ends together.

`dafny verify dfyconfig.toml` checks everything.

## Assumptions

- One atomic step for each handled message, poll or command. The source awaits each message in turn, but
  it spawns the recovery check of a heartbeat (`core/orchestrator/src/tcp_server.rs:181`), and the watchdog
  and the command line are other processes; finer interleavings are not covered.
- Rows are created in the order in which they are appended, and rows of equal tick keep that order in
  the window query.
- One clock that never runs backwards, in nanoseconds; it moves inside a step only where the governor
  reads it.
- One simulation for each connection (`docs/PROTOCOL.md:14`), and connections one after another, as the
  accept loop has them.
- Ticks, ids, prices and cash are unbounded; the cast of the price to 32 bits is modelled. Message and
  row ids are fresh.
- The bytes of a command either reach the bridge once or not at all.

## Where the code and its documents differ

The model follows the code.

- Quarantine and Stopped are documented as states only a human leaves. A restart
  (`core/orchestrator/src/startup.rs:26-36`) and a rollback of an action already in flight
  (`core/orchestrator/src/tcp_server.rs:573-607`) leave them too. Exactly which events do is
  `EventReleasesIff`, and over runs `QuarantineHoldsOverRuns` and `OnlyHumanRestartOrRollbackReleases`.
- A Conservation window is meant to last until its bound. A second rollback overwrites it with a window of
  its own, and since heartbeat ticks may go backwards that one may end sooner: `WindowIsCutShort` is such a
  run, `ConservationHoldsOverRuns` the exact condition.
- The safety state is the newest of a simulation's own and the global rows, not the global one only when
  there is no other (`core/orchestrator/src/db.rs:443-445`). So a resolve also ends a simulation's own
  Conservation or Rollback, and cannot be used when only a simulation's own state is bad:
  `ResolveActsIff`.
- Rollback is meant to be momentary. It stays when the restore fails, and also when the restore succeeds and
  the row of its window is refused: `RollbackPersistsIff`, `RollbackOutcome`.
- Heartbeat ticks need not be monotone. The cooldown still spaces all grants of a ride, because elapsed
  ticks saturate at zero, but only if it is positive: `SpacingIffPositiveCooldown`.
- The bridge's cache is filled only after both awaits, so it does not cover a repeat that overlaps its
  original, nor one after a reload: `RedeliveryIsHarmlessIff`. At most one execution holds end to end
  because no key is ever sent twice.
- The bridge never checks `expiry_tick`, and does not clear its inbound buffer on reconnect:
  `ReconnectReadsCleanlyIff`.
- A persisted observation whose simulation is unknown blocks the worker:
  `UnregisteredJobBlocksTheQueue`.
- With the shipped policy the watchdog's oscillation and rate limits cannot be reached by one process:
  `ShippedPolicyStaysQuiet`. That the windows hold no earlier process's actions is assumed there: a
  restart forgets the governor's history.

## Model

| member | source | states |
|---|---|---|
| HoldLaws.OnlyHumanRestartOrRollbackReleases | core/orchestrator/src/tcp_server.rs:558-681 | over every run in which a simulation leaves Quarantine or Stopped, there is an event up to which it was sent nothing, and which is a restart, a manual resolve, or the automatic rollback of an action that was already in flight when it was in that state |
| HoldLaws.QuarantineHoldsOverRuns | core/orchestrator/src/tcp_server.rs:558-681 | from Quarantine or Stopped on, over every run, whatever is in flight: it stays so throughout if and only if no event of the run releases it, and meanwhile nothing is sent for it and what it has in flight only shrinks |
| HoldLaws.EventReleasesIff | core/orchestrator/src/tcp_server.rs:257-312 | one event ends Quarantine or Stopped if and only if it is a start or a resolve whose row is written, or a failed result or a cash drop whose rollback reaches the ledger; all of this is known before the event |
| SafetyLaws.ReleasedExactlyBy | core/orchestrator/src/db.rs:429-493 | any growth of the ledger ends that state if and only if it holds one of three kinds of row: a restart's, a human's, or an automatic rollback's; a poll appends none of them |
| SafetyLaws.RowReleases | core/orchestrator/src/db.rs:389-413 | one row at a time: exactly the releasing rows end the state, and only a watchdog's row can bring it back |
| HoldLaws.ConservationHoldsOverRuns | core/orchestrator/src/tcp_server.rs:596-606 | once a Conservation row with a bound is the newest, and while the simulation is read at earlier ticks, it stays held through any run if and only if no event of the run is a start or a resolve whose row is written, or a rollback whose own window ends before the bound; while it is held nothing is sent for it |
| HoldLaws.EventEndsHoldIff | core/orchestrator/src/tcp_server.rs:566-607 | the same for one event, on its tick and faults alone |
| HoldLaws.VerifyAllIff | core/orchestrator/src/tcp_server.rs:523-545 | a drain of several verifications leaves what its last rollback makes of the state: a window of the configured length or Rollback, else what it was |
| WindowExample.WindowIsCutShort | core/orchestrator/src/tcp_server.rs:596-606 | a concrete run under the shipped policy: with a window open until tick 9000, no restart and no resolve, a command goes out at tick 4100, after a second rollback at tick 100 |
| SafetyLaws.HoldSurvives | core/orchestrator/src/db.rs:474-490 | a held simulation stays held under every growth by an early step that is no restart and no resolve and opens no shorter window |
| HoldLaws.HeldEventSendsNothing | core/orchestrator/src/tcp_server.rs:353-376 | an event that leaves a simulation held sends nothing for it |
| SafetyLaws.ProposalSendsOnlyWhenNormal | core/orchestrator/src/tcp_server.rs:353-376 | a proposal writes at most one command, and only if the state derived for its simulation and tick is Normal |
| SafetyLaws.EachWindowRecoversOnce | core/orchestrator/src/db.rs:474-490 | in every reachable ledger, no Conservation row is answered by two recovery rows, and each recovery row is of its window's own simulation |
| SafetyLaws.RunKeepsWellFormed | core/orchestrator/src/db.rs:389-413 | in every reachable ledger Conservation is never global, and every recovery row answers a bounded Conservation row |
| Transitions.StepGrows | core/orchestrator/src/tcp_server.rs:130-312 | every event, under every failure, only appends transition rows, and only rows its kind of event may append |
| SafetyLaws.TransitionsFormATrail | core/orchestrator/src/db.rs:389-413 | in every reachable ledger each row starts where the newest row its writer could see ended, the two rows of a rollback apart |
| ProcessLaws.TransitionsAreSigned | core/orchestrator/src/db.rs:389-413 | in every reachable ledger Quarantine and Stopped are the watchdog's rows, a global Normal is a person's, all others the orchestrator's, and only windows have a bound |
| ProcessLaws.CommandsCarryLastTick | core/orchestrator/src/tcp_server.rs:191-215 | over every run each command carries the tick of the last heartbeat its process handled, or 0 before the first |
| ProcessLaws.StartComesUpIff | core/orchestrator/src/startup.rs:16-40 | a process comes up if and only if both questions are answered, its row is acknowledged and the rest of startup succeeds, and then with no memory |
| ProcessLaws.HelloRegistersIff | core/orchestrator/src/tcp_server.rs:142-163 | after a hello its simulation is registered, once, if and only if it was or the insert is not refused |
| SafetyReading.DerivedIsLastSeen | core/orchestrator/src/db.rs:436-490 | the derived state is where the last row that is global or of this very simulation leads, unless that is a window whose bound the tick has reached; Normal if there is no such row |
| SafetyReading.ReadIsFaithful | core/orchestrator/src/db.rs:429-493 | a read that answers returns the derived state, and healing changes no later answer |
| SafetyReading.SecondReadIsQuiet | core/orchestrator/src/db.rs:474-490 | a repeat read at the same tick answers the same and writes nothing, whatever becomes of its own write |
| SafetyReading.OtherSimulationsAreUntouched | core/orchestrator/src/db.rs:436-450 | rows of one simulation never change what is derived for another |
| RecoveryLaws.CashDropStopsSnapshot | core/orchestrator/src/tcp_server.rs:224-255 | if a snapshot shows less cash than the baseline of an action awaiting verification, by more than the limit, and either rollback transition reaches the ledger, no proposal of the same snapshot is sent, whatever else fails (conservation_ticks > 0) |
| RecoveryLaws.RollbackOutcome | core/orchestrator/src/tcp_server.rs:558-622 | for every ledger and every failure, exactly what a rollback makes of the state at any later tick: Conservation for the configured ticks and Normal from then on if the window is written, else Rollback if the first row is, else what it was |
| RecoveryLaws.RollbackPersistsIff | core/orchestrator/src/tcp_server.rs:588-620 | a rollback leaves Rollback behind at every later tick if and only if its window is not written and its first row is, or the state was Rollback before |
| RecoveryLaws.RestartLeavesQuarantine | core/orchestrator/src/startup.rs:26-36 | a restart without failures replaces any state, Quarantine and Stopped included, by Cautious |
| RecoveryLaws.RestartIsQuiet | core/orchestrator/src/startup.rs:16-40 | after a restart nothing is sent for any simulation until the new process has handled the required heartbeats, or a human resolves |
| RecoveryLaws.StartIsYoung | core/orchestrator/src/startup.rs:16-40 | a successful start leaves nothing awaited and only global, non-Normal transitions since |
| RecoveryLaws.CounterIsHonest | core/orchestrator/src/tcp_server.rs:651-658 | in every reachable state the clean-heartbeat counter is at most the heartbeats this process handled |
| RecoveryLaws.PollNeverLowers | core/orchestrator/src/bin/watchdog.rs:61-78 | no poll, in any reachable state, lowers the severity of the global state, takes a simulation to Normal, or changes another table |
| ResponseLaws.HeartbeatClearsIff | core/orchestrator/src/tcp_server.rs:630-681 | a heartbeat turns Cautious into Normal if and only if its simulation is registered, enough are counted and both calls go through, and changes no other state; the count grows in Cautious only, and any other state that is read sets it to zero |
| ResponseLaws.HeartbeatsClearCautious | core/orchestrator/src/tcp_server.rs:645-679 | clean heartbeats in a row: Cautious lasts exactly until the configured number, then Normal, and the count starts over |
| ResponseLaws.ResolveActsIff | core/orchestrator/src/main.rs:77-98 | `resolve` writes if and only if the global state is Quarantine or Stopped and the database takes it; then every simulation is Normal, its own rows notwithstanding; otherwise nothing changes |
| ActionLaws.SentCommandsAreBacked | core/orchestrator/src/tcp_server.rs:328-507 | every command ever written has its proposal, grant, action and snapshot stored and linked, a young enough snapshot of its own simulation, a price in bounds, and that same price on the wire when the bounds fit 32 bits |
| ActionLaws.PricesSurviveCastIff | core/orchestrator/src/tcp_server.rs:469 | no permitted price is altered by the cast if and only if 0 <= min and max < 2^32 |
| ActionLaws.CommandsAreSentWhileNormal | core/orchestrator/src/tcp_server.rs:353-376 | each command is the work of one proposal of a snapshot, and the state that this very proposal read, for its own simulation and tick, was Normal |
| ActionLaws.EachKeyIsSentOnce | db/migrations/20260720215741_initial_schema.up.sql:84-91 | over any crashes, restarts and reconnects, no key and no (simulation, ride, tick) is written twice |
| ActionLaws.LedgerIsAppendOnly | core/orchestrator/src/db.rs:166-257 | no run loses or changes a row |
| ActionLaws.EveryActionStandsSomewhere | core/orchestrator/src/db.rs:274-303 | every action is in exactly one of resolved, pending, orphaned, has at most one result, and the in-flight query lists the last two, each once |
| ActionLaws.InFlightLists | core/orchestrator/src/db.rs:274-286 | the query lists exactly the actions without a result, in order, each once |
| ActionLaws.StepResolvesOne | core/orchestrator/src/tcp_server.rs:257-283 | a step adds at most one result, that of the awaited command it names, which is then awaited no longer |
| ActionLaws.UnawaitedResultChangesNothing | core/orchestrator/src/tcp_server.rs:258-268 | a result without a correlation id, or for a command not awaited, changes nothing |
| ActionLaws.LateResultsChangeNothing | core/orchestrator/src/tcp_server.rs:265-268 | a command that was once settled, lost or never awaited is never awaited again, and every later result for it changes nothing |
| ActionLaws.SecondResultChangesNothing | core/orchestrator/src/tcp_server.rs:265-268 | a second delivery of any result changes nothing, however late |
| ActionLaws.OrphansStay | core/orchestrator/src/tcp_server.rs:84-86 | an orphaned action stays orphaned over every later run |
| ActionLaws.EachActionRollsBackOnce | core/orchestrator/src/tcp_server.rs:514-546 | each action causes at most one automatic rollback row, and it names the snapshot its own command was written with |
| LedgerLaws.RunIsSound | core/orchestrator/src/tcp_server.rs:130-312 | the invariant behind these: in every reachable state links hold, keys are unique, each action is written, resolved and rolled back at most once, and both pending maps agree with the ledger |
| LedgerLaws.LatestSnapshotIsOwn | core/orchestrator/src/db.rs:308-319 | the snapshot chosen belongs to the simulation |
| LedgerLaws.SnapshotIsRecent | core/orchestrator/src/snapshot.rs:35-76 | a snapshot returned is stored, the simulation's own, and no older than allowed |
| SendLaws.EnsuredExactly | core/orchestrator/src/snapshot.rs:35-76 | a young snapshot is used as it is; else exactly one row is added, for this simulation at this tick, if the script works and the insert is not refused |
| SendLaws.LatestSnapshotIsLatest | core/orchestrator/src/db.rs:308-319 | the query returns row i if and only if i is the simulation's last snapshot |
| SendLaws.ProposalIsSentIff | core/orchestrator/src/tcp_server.rs:328-507 | in every reachable state a proposal becomes exactly one command, with its own ride, price and expiry, if and only if: stored, state Normal and read so, young snapshot there or taken, permitted by the complete list of grants, grant stored, this ride not acted on at this tick before, action stored; it is awaited if and only if the write went through |
| KeyLaws.KeyTakenIff | db/migrations/20260720215741_initial_schema.up.sql:84-91 | a key is taken if and only if its own simulation, ride and tick have an action: no two different ones collide |
| KeyLaws.RunIsKeyed | core/orchestrator/src/tcp_server.rs:435-458 | in every reachable ledger each action's key is the text of its own simulation, ride and tick |
| SendLaws.EveryDecisionIsRecorded | core/orchestrator/src/tcp_server.rs:361-422 | while the database works every proposal leaves its row and one authorization row: blocked by state, else no snapshot, else the verdict on the complete list of grants |
| OutcomeLaws.AwaitedResultIsHandled | core/orchestrator/src/tcp_server.rs:265-311 | an awaited result is recorded unless refused; recorded success awaits verification against the command's own baseline, recorded failure is rolled back if and only if the restore goes through, neither if the record is in doubt |
| OutcomeLaws.SnapshotVerifiesEveryCommand | core/orchestrator/src/tcp_server.rs:523-545 | in every reachable state the next snapshot settles every action awaiting verification, and rolls the action of a command back, to that command's own snapshot, if and only if the cash the command was sent at exceeds the cash observed by more than max_unexpected_cash_drop and the restore goes through |
| OutcomeLaws.TriggerRecordsIff | core/orchestrator/src/snapshot.rs:88-114 | a rollback row, with the snapshot's simulation and the action, is appended if and only if file copy and insert go through |
| IdempotencyKeys.KeyTextInjective | core/orchestrator/src/tcp_server.rs:435-438 | equal key texts have equal simulation, ride and tick |
| IdempotencyKeys.KeyTextReadsBack | core/orchestrator/src/tcp_server.rs:435-438 | the key names the simulation, then the ride, then the tick, and the numbers read back as themselves |
| EndToEnd.EachKeyIsExecutedOnce | bridge/openrct2-plugin/src/commands.ts:97-122 | over any run of the orchestrator and any run of the bridge on what was delivered, the engine executes each key at most once |
| Governors.Governor.Authorize | core/governor/src/lib.rs:66-141 | the imperative governor computes `Ruling` on its fields, in this order of checks |
| GovernorLaws.AuthorizeMatchesReference | core/governor/src/lib.rs:66-141 | the pruned vector and the per-ride map answer as the complete list of grants would, with the grants of the last 3600 and 86400 seconds counted one by one, and still represent it afterwards |
| GovernorLaws.BudgetsHoldInEveryWindow | core/governor/src/lib.rs:103-129 | over a lifetime, every hour and every day, wherever it starts, holds no more grants than its budget |
| GovernorLaws.VectorStaysBounded | core/governor/src/lib.rs:103-134 | pruning keeps the vector within the daily budget over a whole lifetime |
| GovernorLaws.CooldownHoldsForAllPairs | core/governor/src/lib.rs:90-101 | with a positive cooldown any two grants of one ride, not only neighbours, are a cooldown apart in tick, in decision order, whatever ticks were observed |
| GovernorLaws.SpacingIffPositiveCooldown | core/governor/src/lib.rs:90-101 | that law holds for all lifetimes if and only if the cooldown is positive |
| GovernorLaws.ZeroCooldownCounterexample | core/governor/src/lib.rs:90-101 | with no cooldown, a concrete pair of calls is granted out of tick order |
| GovernorLaws.RejectionsAreInvisible | core/governor/src/lib.rs:143-151 | deleting any rejected proposals from a lifetime leaves every other verdict and every grant as it was |
| GovernorLaws.RecentNested | core/governor/src/lib.rs:103-108 | pruning by the long window first does not change the count over the short one |
| RateLaws.ActionsStayWithinBudgets | core/orchestrator/src/db.rs:235-257 | in every hour and day, the action rows one process wrote stay within both budgets |
| LifetimeLaws.UnauthorizedProposalsAreInvisible | core/orchestrator/src/tcp_server.rs:353-414 | over every run: delete any proposals that were not granted, and every remaining verdict, every grant and the answer to any next proposal are the same; those blocked by state or snapshot never reached the governor at all |
| RateLaws.OnlyGrantsMatter | core/orchestrator/src/tcp_server.rs:411-414 | two runs, over whatever events, whose governors granted alike answer the next proposal alike |
| LifetimeLaws.RunLives | core/orchestrator/src/tcp_server.rs:411-414 | in every reachable state the governor is what the proposals that reached it, in order, make of a fresh one |
| RateLaws.RateBreakerStaysQuiet | core/orchestrator/src/bin/watchdog.rs:80-96 | if max_actions_per_hour is at most the threshold, the rate check never writes on the work of one process |
| RateLaws.ReversalsAreBounded | core/orchestrator/src/db.rs:549-580 | within one process and with cooldown C > 0, the reversals counted for any ride in a window of W ticks are at most max(0, W / C - 1) |
| RateLaws.OscillationBreakerStaysQuiet | core/orchestrator/src/bin/watchdog.rs:98-132 | so the oscillation check never writes when that bound is at most the limit |
| RateLaws.ShippedPolicyStaysQuiet | config/constitution-0.1.yaml:20-95 | with the shipped numbers neither check ever writes on the work of one process |
| RateLaws.RunIsAccounted | core/governor/src/lib.rs:103-134 | in every reachable state the governor represents its complete list of grants, and the process's action rows follow from them |
| Oscillation.CountReversals | core/orchestrator/src/oscillation.rs:13-29 | the greedy loop computes `Reversals` |
| Oscillation.ReversalsAreLongestAlternation | core/orchestrator/src/oscillation.rs:13-29 | with two unequal neighbours, reversals + 2 is the length of a longest strictly alternating subsequence: one of that length exists and none is longer |
| Oscillation.SubsequenceHasNoMoreReversals | core/orchestrator/src/oscillation.rs:13-29 | no subsequence, so no window, of a price history has more reversals than the whole |
| Oscillation.ReversalsBelowLength | core/orchestrator/src/oscillation.rs:13-29 | n prices have at most n - 2 reversals |
| Operators.ProposePriceChanges | core/orchestrator/src/operator.rs:21-78 | the loop computes `Proposals` |
| Operators.ProposalsAreExact | core/orchestrator/src/operator.rs:21-131 | sound and complete: a proposal is there if and only if some latest ride was seen in all of the last n snapshots with a uniformly high or low queue and has room; it names that ride, its price is the observed one plus or minus price_step, its confidence 0.8, its expiry 2000 ticks on; in ride order |
| Operators.FindRideIsFirst | core/orchestrator/src/operator.rs:36-41 | a snapshot's ride is its first with that id, and missing if and only if there is none |
| Operators.PassIsExact | core/orchestrator/src/operator.rs:37-76 | the same for one ride |
| Operators.BoundedHistoryRefinesStream | core/world-model/src/lib.rs:31-36 | for every stream, the bounded history gives the proposals of the unbounded one if n <= 64 and none if n is larger |
| WorldModels.WorldModel.RecordSnapshot | core/world-model/src/lib.rs:31-38 | the eviction loop keeps the last 64 |
| WorldModels.SuffixIsLast | core/world-model/src/lib.rs:31-38 | what is kept is the last entries, in order |
| WorldModels.RecordedIsSuffix | core/world-model/src/lib.rs:31-38 | evicting one at a time leaves exactly the last 64 of any stream |
| WorldModels.BoundedCashTrend | core/world-model/src/lib.rs:72-83 | the trend is what was gained since the n-th entry before the latest; on the bounded history it agrees with the unbounded stream's for n < 64 and is absent otherwise |
| ResponseLaws.EscalationReaches | core/orchestrator/src/bin/watchdog.rs:61-78 | an escalation writes if and only if it goes through and the global state is neither Stopped nor the target already, and what it writes reaches every simulation |
| OutageLaws.PollResponds | core/orchestrator/src/bin/watchdog.rs:154-216 | over every run a poll in which everything answers leaves exactly: Stopped if it was Stopped, after a long outage or at a runaway rate of the simulation started last; else Quarantine if a ride of it oscillates; else the state before |
| ResponseLaws.RunawayRateStopsIff | core/orchestrator/src/bin/watchdog.rs:80-96 | with the database answering, the rate check ends in Stopped if and only if it was Stopped or more than the threshold of the simulation's actions are at most a minute old |
| ResponseLaws.OscillationQuarantinesIff | core/orchestrator/src/bin/watchdog.rs:98-132 | with the database answering, the oscillation check ends in Quarantine if and only if, for some ride, more than limit + 2 of its stored action prices in the window, by tick, go up and down in turn, except that Stopped stays |
| WindowQueries.WindowQueryIsExact | core/orchestrator/src/db.rs:549-580 | the window query returns exactly the simulation's actions at most `window` ticks before its newest one, each once, with its own ride, price and tick, in order of tick |
| WindowQueries.ReversalsAreZigzags | core/orchestrator/src/bin/watchdog.rs:118-131 | a ride's counted reversals exceed the limit if and only if more than limit + 2 of its stored prices in the window go up and down in turn |
| OutageLaws.LongOutageStops | core/orchestrator/src/bin/watchdog.rs:175-194 | over every run of polls: when the database answers again long enough after the first failed probe of the outage, the poll ends in Stopped, whatever its later checks do |
| OutageLaws.OutageEndedIff | core/orchestrator/src/bin/watchdog.rs:175-202 | the timer tells of a long outage if and only if there has been one |
| ResponseLaws.TimerIsStartOfOutage | core/orchestrator/src/bin/watchdog.rs:154-202 | the timer holds the time of the first failed probe of the outage that is still going on, and nothing otherwise |
| ResponseLaws.LastMinuteCounts | core/orchestrator/src/db.rs:516-532 | the query counts exactly the simulation's actions at most a minute old |
| ResponseLaws.SortOrders | core/orchestrator/src/db.rs:549-580 | the window query returns all selected rows, each as often as it occurs, in order of tick |
| WatchdogProcesses.WatchdogProcess.Escalate | core/orchestrator/src/bin/watchdog.rs:61-78 | the method does what `Watchdogs.Escalate` says |
| WatchdogProcesses.WatchdogProcess.CheckActionRate | core/orchestrator/src/bin/watchdog.rs:80-96 | the method does what `Watchdogs.CheckActionRate` says |
| WatchdogProcesses.WatchdogProcess.GroupByRide | core/orchestrator/src/bin/watchdog.rs:110-116 | the map built in place holds, for each ride seen and no other, its prices in order |
| WatchdogProcesses.WatchdogProcess.CheckOscillation | core/orchestrator/src/bin/watchdog.rs:98-132 | visiting the rides in any order escalates once for each tripped ride |
| WatchdogProcesses.WatchdogProcess.Poll | core/orchestrator/src/bin/watchdog.rs:154-216 | one turn of the loop changes ledger and timer as `Watchdogs.Poll` and `Timer` say |
| WatchdogProcesses.WatchdogProcess.RunChecks | core/orchestrator/src/bin/watchdog.rs:204-215 | the two checks on the most recently started simulation do what `PollChecks` says |
| Watchdogs.TrippedAreFew | core/orchestrator/src/bin/watchdog.rs:98-132 | no more rides trip than there are actions |
| Orchestrators.Orchestrator.constructor | core/orchestrator/src/state.rs:130-138 | a process starts with empty memory and a fresh governor on the ledger it finds |
| Orchestrators.Orchestrator.EnsureRecentSnapshot | core/orchestrator/src/snapshot.rs:35-76 | the method does what the specification function of that name says, under each failure |
| Orchestrators.Orchestrator.RestoreSnapshot | core/orchestrator/src/snapshot.rs:88-114 | likewise |
| Orchestrators.Orchestrator.TriggerAutomaticRollback | core/orchestrator/src/tcp_server.rs:558-622 | the method does what `TriggerRollback` says |
| Orchestrators.Orchestrator.ScreenProposal | core/orchestrator/src/tcp_server.rs:340-409 | the steps before the governor do what `Screen` says |
| Orchestrators.Orchestrator.JudgeProposal | core/orchestrator/src/tcp_server.rs:411-427 | the governor's turn does what `Judge` says |
| Orchestrators.Orchestrator.SendCommand | core/orchestrator/src/tcp_server.rs:435-499 | recording and writing do what `Execute` says |
| Orchestrators.Orchestrator.HandleProposal | core/orchestrator/src/tcp_server.rs:328-507 | the whole handler does what `Servers.HandleProposal` says |
| Orchestrators.Orchestrator.CheckPendingVerifications | core/orchestrator/src/tcp_server.rs:514-546 | draining in any order does what `VerifyAll` says |
| Orchestrators.Orchestrator.OnObservationSnapshot | core/orchestrator/src/tcp_server.rs:191-256 | verification first, then one proposal after another, as `Observe` says |
| Orchestrators.Orchestrator.HandleEach | core/orchestrator/src/tcp_server.rs:239-255 | the proposals of one snapshot are handled in order, as `HandleProposals` says |
| Orchestrators.Orchestrator.OnHeartbeat | core/orchestrator/src/tcp_server.rs:164-190 | the method does what `HandleHeartbeat` says |
| Orchestrators.Orchestrator.RecoverFromCautiousOnCleanHeartbeat | core/orchestrator/src/tcp_server.rs:630-681 | the method does what `RecoverFromCautious` says |
| Orchestrators.Orchestrator.OnCommandResult | core/orchestrator/src/tcp_server.rs:257-312 | the method does what `HandleResult` says |
| Orchestrators.Orchestrator.OnHello | core/orchestrator/src/tcp_server.rs:142-163 | the simulation is registered unless the insert fails or it is known |
| Orchestrators.Orchestrator.OnDisconnect | core/orchestrator/src/tcp_server.rs:84-86 | both pending maps go with their connection, nothing else does |
| Orchestrators.ReconcileOnStartup | core/orchestrator/src/startup.rs:16-40 | the method does what `Reconcile` says, and gives up where it does |
| Orchestrators.ResolveCommand | core/orchestrator/src/main.rs:77-98 | the method does what `ResolveByHand` says |
| Ledgers.Database.InsertSimulationStart | core/orchestrator/src/db.rs:166-185 | a known simulation is not inserted again |
| Ledgers.Database.InsertProposal | core/orchestrator/src/db.rs:187-208 | appends under the foreign key, and tells the id only if the commit was acknowledged |
| Ledgers.Database.InsertAuthorization | core/orchestrator/src/db.rs:210-233 | likewise |
| Ledgers.Database.InsertAction | core/orchestrator/src/db.rs:235-257 | likewise, and refuses a key already in the table |
| Ledgers.Database.InsertActionResult | core/orchestrator/src/db.rs:288-306 | likewise, without the key |
| Ledgers.Database.InsertSnapshot | core/orchestrator/src/db.rs:321-337 | likewise |
| Ledgers.Database.InsertRollback | core/orchestrator/src/db.rs:361-387 | likewise |
| Ledgers.Database.InsertStateTransition | core/orchestrator/src/db.rs:389-413 | likewise; a global row needs no simulation |
| Ledgers.Database.CurrentSafetyState | core/orchestrator/src/db.rs:429-493 | the branching read, with its own recovery insert, does what `ReadSafety` says |
| Framing.FramingIgnoresChunks | bridge/openrct2-plugin/src/connection.ts:115-129 | for any cut of the text into data events, what is handed on is its nonblank lines and what is kept is its tail |
| Framing.TextIsLines | bridge/openrct2-plugin/src/connection.ts:115-129 | every text is lines ended by newlines and a tail without one, so the law covers every text |
| Framing.WrittenMessagesAreRead | bridge/openrct2-plugin/src/connection.ts:180-193 | JSON objects (beginning with a brace, no raw newline) written and then read, cut in any way, come back as the same list |
| Framing.BlankIff | bridge/openrct2-plugin/src/connection.ts:124 | exactly which lines are not handed on: those of the 25 JavaScript white-space characters alone |
| Framing.PrintableLineIsHandedOn | bridge/openrct2-plugin/src/connection.ts:122-126 | a line with any printable ASCII character in it is handed on as it is |
| Framing.EmptyLineIsDropped | bridge/openrct2-plugin/src/connection.ts:124 | a line of spaces, tabs and carriage returns is not |
| Framing.ReconnectReadsCleanlyIff | bridge/openrct2-plugin/src/connection.ts:149-163 | the messages after a reconnect are read as written if and only if the lost connection did not end inside a line |
| BridgeConnections.BridgeConnection.OnData | bridge/openrct2-plugin/src/connection.ts:115-129 | the newline search hands on the lines the character-by-character reader does, and keeps its tail |
| BridgeConnections.BridgeConnection.SendHeartbeat | bridge/openrct2-plugin/src/connection.ts:59-65 | written over a live connection, otherwise dropped |
| BridgeConnections.BridgeConnection.SendSnapshot | bridge/openrct2-plugin/src/connection.ts:67-78 | written over a live connection, and lost if that write throws, otherwise the newest are buffered up to the limit |
| BridgeConnections.BridgeConnection.FlushSnapshotBuffer | bridge/openrct2-plugin/src/connection.ts:171-178 | empties the buffer, writing oldest first all lines whose write does not throw |
| BridgeConnections.NothingIsLost | bridge/openrct2-plugin/src/connection.ts:184-193 | a flush sends the whole buffer if and only if no write throws |
| BridgeConnections.BridgeConnection.Connect | bridge/openrct2-plugin/src/connection.ts:88-99 | whether creating or connecting the socket throws, one timer is set and the delay doubles; a socket once created stays set |
| BridgeConnections.BridgeConnection.OnConnect | bridge/openrct2-plugin/src/connection.ts:101-113 | hello, then everything buffered in order, and the backoff starts over |
| BridgeConnections.BridgeConnection.OnCloseOrError | bridge/openrct2-plugin/src/connection.ts:149-163 | the connection is gone, one timer is set, and the inbound and snapshot buffers stay |
| BridgeConnections.OutageKeepsLatest | bridge/openrct2-plugin/src/connection.ts:67-78 | an outage keeps exactly its latest snapshots, in order |
| Backoffs.DelayClosedForm | core/orchestrator/src/db.rs:99-117 | the k-th capped-doubling delay is min(initial * 2^k, cap) |
| BridgeCommands.CarefulRunsExecuteOnce | bridge/openrct2-plugin/src/commands.ts:97-122 | over every run in which each receipt is safe, with overlaps, reloads and any engine answers, no key is executed twice |
| BridgeCommands.UnsafeReceiptCanExecuteTwice | bridge/openrct2-plugin/src/commands.ts:106-120 | from any orderly state one unsafe receipt has engine answers after which its key has been executed twice |
| BridgeCommands.RedeliveryIsHarmlessIff | bridge/openrct2-plugin/src/commands.ts:97-122 | a redelivery is harmless under all answers if and only if its result is cached, or it is neither in progress nor executed |
| BridgeCommands.RequestIsQueriedThenExecuted | bridge/openrct2-plugin/src/commands.ts:90-122 | a new key is executed if and only if the query's code is absent or zero; the reply carries the cost (0 if absent) if and only if the execution's is too, and otherwise the failing code; a repeat gets the same reply and executes nothing |
| BridgeCommands.ReplaysReturnTheRecordedResult | bridge/openrct2-plugin/src/commands.ts:98-103 | in runs without a reload whose receipts are all safe (no request for a key still in progress), all replies for one key are equal |
| BridgeCommands.ReloadForgets | bridge/openrct2-plugin/src/commands.ts:29 | a reload forgets every result but no execution: right after one a key may safely be received if and only if it was never executed |
| BridgeCommands.DistinctKeysAreCareful | bridge/openrct2-plugin/src/commands.ts:97-122 | requests with different keys are safe in every interleaving, across reloads |
| BridgeCommands.CommandHandler.HandleCommandRequest | bridge/openrct2-plugin/src/commands.ts:97-105 | up to the first await |
| BridgeCommands.CommandHandler.Reload | bridge/openrct2-plugin/src/commands.ts:29 | the cache lives as long as the plugin does; what the engine has executed stays executed |
| BridgeCommands.CommandHandler.Resume | bridge/openrct2-plugin/src/commands.ts:106-122 | from either await on |
| Persistences.WorkerKeepsOrderAndStoresOnce | core/orchestrator/src/db.rs:36-149 | over every run nothing accepted is lost or reordered, each message id is stored once although a commit may be reported as failed, the queue never exceeds 500, and the k-th delay is 500 * 2^k ms but at most 30000 ms |
| Persistences.JobsAreConserved | core/orchestrator/src/db.rs:92-117 | submitted = dropped + queued + in progress + finished |
| Persistences.AttemptSucceedsIff | core/orchestrator/src/db.rs:119-149 | an attempt can succeed if and only if the message is stored already or its simulation is registered |
| Persistences.UnregisteredJobBlocksTheQueue | core/orchestrator/src/db.rs:99-117 | until its simulation is registered, such a job stays at the head and nothing more is stored or finished |
| Persistences.Persistence.Submit | core/orchestrator/src/db.rs:92-97 | never blocks; drops exactly when the buffer is full; does what `SubmitStep` says |
| Persistences.Persistence.WorkOnce | core/orchestrator/src/db.rs:99-117 | one job, retried with everything that happens meanwhile until its first success; the state is the one `Run` gives |
| Persistences.Persistence.AttemptOnce | core/orchestrator/src/db.rs:104-114 | one attempt and, on failure, one sleep and the doubled delay, as `AttemptStep` says |
| ConnectionHealths.ConnectionHealth.TickCheck | core/orchestrator/src/state.rs:75-95 | the method does what `Step` says for a check |
| ConnectionHealths.ConnectionHealth.OnHeartbeat | core/orchestrator/src/state.rs:58-62 | the method does what `Step` says for a heartbeat |
| ConnectionHealths.ReportIgnoresEarlierChecks | core/orchestrator/src/state.rs:75-95 | what a check reports does not depend on how often or when it was asked before |
| ConnectionHealths.ReportTellsAge | core/orchestrator/src/state.rs:75-95 | it is Live for 3 s after the last hello or heartbeat, Degraded until 10 s, then Lost; Lost after a disconnect, Connecting after a connect |
| ConnectionHealths.DisconnectIsFinal | core/orchestrator/src/state.rs:66-80 | after a disconnect no check ever leaves Lost |

## Left out

- Sockets, HTTP, the async runtime, logging, command-line and configuration parsing: only the success or failure of each call is kept.
- SQL text and Postgres itself: tables are sequences with their UNIQUE and foreign-key rules, queries are functions over them. A stored state string that does not parse (read as Stopped by the source) cannot occur, because states are values.
- `find_snapshot` failing on a missing row is one refusal of the restore, not told apart from other errors.
- Park files and `snapshot.sh`: success or failure, and the ledger row.
- Reason texts, policy versions and JSON bodies of rows: a reason is a value; a rollback row names its action where the source puts the action into the text.
- `report.rs`, `observation.ts`, `uuid.ts`, `toGameAction` and the string forms of `SafetyState`: finite case tables and formatting.
- serde and the JSON schemas: a message that does not parse or has another protocol version is `OtherMessage`, which changes nothing.
- Commands other than `set_ride_price` at the bridge: the cache does not look at the action.
- `DbState` and the health endpoint's JSON: reporting only.
- Confidence is a real, compared once; 32-bit rounding is not modelled.
- 64-bit overflow of ticks, cash and nanoseconds.
- Observations going to the persistence worker are not tied to the snapshot handler: the worker has its own state machine.
- An `error` event followed by a `close` event of the same socket, beyond each setting its own timer.
- Wall-clock liveness: that a retry, reconnect or poll eventually happens.
- A restart of the watchdog in the middle of an outage loses its timer: `OutageLaws` takes one watchdog process, started in any reachable state.
- Interleavings inside one handler, between orchestrator, watchdog and command line.
- Persistences.Persistence.WorkOnce: what happens meanwhile is given as a finite list; when it is used up the method returns with the job still in progress, where the source goes on retrying.
