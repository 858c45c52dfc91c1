# pgcqrs in Dafny

pgcqrs stores events in streams, lets consumers take time-bounded leases on a stream, delivers
events to watches, and keeps view projections up to date. This project models four connected
parts of it and proves what they promise over whole runs.

1. **Consumer locks and positions.** `MemoryLeases` is the in-memory service as a state machine:
   one step per command, plus the steps of the clock and of the expiry timers. A timer is armed,
   fires (and can no longer be stopped) and queues an expiry operation; a lock object's identity
   (`epoch`) lets us tell its own timers from those of a lock it replaced. `MemoryService` is the
   service as an object, proved step for step against that machine. `ConsumerStore` is the
   PostgreSQL service: tables as maps, one transaction per step. `LeaseRuns`, `LeaseSafety`,
   `LeaseLimits`, `LockEffects`, `LockWaiters`, `LockSimulation`, `ServiceAgreement`, `PositionHandOff` and
   `LeaseSurvival` hold the theorems.
   `KeepAlive`, `KeepAliveLosses` and `KeepAliveService` are the bidirectional stream that renews a
   lock remotely, `ServerWaiters` the server's wait for a lock.
2. **Watches.** `MemoryWatch` and `WatchRuns` are the in-memory watch beside any interleaving of
   submissions. `ServerWatch`, `ServerWatchRuns`, `WatchOrder` and `WatchCommits`
   are the server's watch loop.
3. **Pump and projections.** `ProjectionStore` and `ProjectionRuns` are the transactional store and
   a pump cut and restarted anywhere; `PumpProgress` shows what the pump skips and when a projection
   is exact; `PumpDelivery` ties its deliveries to the server's watch; `PumpLoop` is the watch loop's
   position handling and timing. `MemoryProjection` is the in-memory store, `VersionWait` and
   `VersionedReads` are the notifier and the version-aware reads.
4. **Queries.** `Queries` and `BatchTranslation` relate the HTTP and gRPC translators to the
   in-memory interpreter, `HandlerDispatch` follows a query to its handlers, and `SqlText`,
   `V1Query`, `V1Reading`, `V1OverFetch` and `BatchSql` write SQL with numbered holes, fill the holes,
   parse the text back, and show that it selects what the reference semantics selects.

## Where the code does not do what it promises

Each of these comes with the exact condition under which the code is right, as an equivalence, and
with the run that shows the failure where it takes one.

- *Acquiring again endangers a lease.* A holder that acquires again leaves the first lock's timer
  running, and generations restart at 0, so the old timer can remove the new lock early
  (`ReacquiringEndangersLease`). A grant is secure if and only if every timer left behind is harmless to
  it (`GrantIsSecureIff`); the two services give every command the same verdict in every joint run if and
  only if no timer can end a live lease early (`AgreementIff`).
- *A renewal at the very deadline can be undone.* A renewal's timer reads the generation when it queues its
  operation, not when it was armed. A run from an empty service reaches the case (`DeadlineIsReached`,
  `RenewalAtDeadlineIsUndone`); a renewal is secure if and only if, besides, no timer of its lock has fired
  without having read (`RenewalIsSecureIff`).
- *The services part at the deadline.* At `now == held_until` they differ on the owner's heartbeat and
  submission and on another's release and acquisition, and on nothing else (`VerdictsPartIff`).
- *A watch can leave wanted events unsent.* Results are ordered by time, the stream drops smaller IDs, and
  the cursor moves past uncommitted ones. Every run that ends quiet over a table has sent every wanted
  event if and only if their IDs and times strictly follow the order of commits
  (`CompleteIffCommittedInOrder`, with the runs `LateCommitRun` and `DisorderRun`). And a result whose rows
  break off passes for a whole one (`BrokenOffRun`): a quiet watch has sent everything wanted if and only if
  its last pass missed nothing (`QuietCompleteIff`).
- *A dispatch between a watch's registration and its seeding send blocks the watch for good*
  (`StalledRun`, `EarlyDispatchStallsWatch`): a watch still seeding can go on if and only if no dispatch has
  arrived (`SeedingGoesOnIff`).
- *A pump can skip an event whose handler ran out of time.* The handler runs under the tick's own deadline,
  and a bare deadline error passes for an idle tick: the watch goes on, and the next event's position leaves
  the first one out (`TimedOutRun`). No run skips if and only if no handler ends with the bare error
  (`NeverSkipsIff`). The handlers of a view wrap their errors.
- *A pump under another holder name can apply an event twice* (`OtherNameHandlesTwice`): the store records
  the position under the consumer's name, the pump resumes from the holder's. Projections are exact in
  every run if and only if the names are the same and no handler ends with the bare error (`ExactIff`).
- *The in-memory store can apply half an event.* Values are encoded while they are written, so a value that
  cannot be encoded leaves the upserts before it in the store, under the event's version, where a read at that
  version reports them as up to date (`HalfwayMisleads`). A reduction is applied wholly or not at all, and the
  two stores stay alike, if and only if no value fails after another was written (`AllOrNothingIff`,
  `StoresAgreeIff`); every answer of every run is right if and only if that never happens (`AlwaysRightIff`).
- *A matcher with several values, or none, is not SQL.* The IN list is written without commas; the text
  parses if and only if every matcher has one value (`GeneratedTextReads`).
- *ID clauses ignore the cursor in SQL and obey it in memory.* The results are the same if and only if no
  ID clause names a stored event at or before the cursor (`BatchMeaningIff`).
- *A query without kinds is refused over gRPC* and passes everything locally (`NoKindsPassAll`); the two
  agree if and only if it names a kind (`OverFetchIff`).
- *A release announced while a KeepAlive bind is between its check and its subscription goes unnoticed*
  (`ReleaseDuringBindGoesUnnoticed`, a run): a bound stream knows of its loss if and only if a release of
  its lock was announced since its subscription (`LossKnownIff`). *And a late announcement can report a lock
  lost that its holder has again* (`LateAnnouncementRun`): as long as the holder does not acquire again, a loss
  is real in every continuation if and only if no earlier release of the lock was still to be announced
  (`LossMeansGoneIff`).
- *The server's wait for a lock can miss a release.* It subscribes after its failed attempt and does not look
  again (`GapRun`, `UnheardStaysBlocked`): it hears of every release from then on if and only if at its
  subscription the lock is still there or a release still to be announced (`SubscriptionHearsIff`).

## Model

| member | source | states |
|---|---|---|
| LeaseRuns.StepKeepsCoherent | pkg/v1/memory.go:79-102 | Every command, clock tick and timer step keeps each lock guarded by an outstanding timer that is due at its deadline and carries its current generation |
| LeaseRuns.RunKeepsCoherent | pkg/v1/memory.go:104-114 | The same for every state of every run of the service |
| LeaseRuns.NewServiceStaysCoherent | pkg/v1/memory.go:131-143 | In particular every state that a new service reaches |
| LeaseRuns.AcquireKeepsCoherent | pkg/v1/memory.go:824-871 | An acquisition, granted or not and whatever it sweeps, keeps locks and timers coherent |
| LeaseRuns.HeartbeatKeepsCoherent | pkg/v1/memory.go:1039-1087 | A renewal moves the guard to its new timer and disturbs no other lock object |
| LeaseRuns.ReleaseKeepsCoherent | pkg/v1/memory.go:910-931 | A release takes the lock with its guard and leaves the others theirs |
| LeaseRuns.ExpiryKeepsCoherent | pkg/v1/memory.go:79-102 | An expiry operation either removes the lock its timer guards or leaves every lock its own timer |
| LeaseLimits.LeaseSafetyIff | pkg/v1/memory.go:824-871 | From any reachable state on, every run in which the holder neither releases nor acquires again loses the lease only to the clock, if and only if every timer left behind by earlier locks is harmless and every replaced timer of the lock is spent |
| LeaseLimits.GrantIsSecureIff | pkg/v1/memory.go:842-871 | A grant starts a secure lease if and only if every timer left behind is harmless to the new lock |
| LeaseLimits.RunKeepsOrderly | pkg/v1/memory.go:1072-1080 | In every run a replaced timer is no longer armed and carries no generation to come |
| LeaseSafety.StepKeepsLease | pkg/v1/memory.go:220-250 | Whatever other clients, timers and stale expiry operations do, no single step but the clock ends a safe lease |
| LeaseSafety.NoExpiryHits | pkg/v1/memory.go:79-102 | While a safe lease lasts no queued expiry operation removes its lock |
| LeaseSafety.OthersAreTurnedAway | pkg/v1/memory.go:824-840 | During a lease no other holder's acquire is granted and no other holder's heartbeat, release or asserted submission is accepted; nothing changes |
| LeaseSafety.GrantStartsLease | pkg/v1/memory.go:842-871 | A grant starts a lease on a fresh lock object with exactly one timer |
| LeaseLimits.HarmfulTimerBreaksLease | pkg/v1/memory.go:1072-1080 | For every timer left behind that is not harmless there is a respectful run that ends with the lock removed before its deadline |
| LeaseLimits.ReacquiringEndangersLease | pkg/v1/memory.go:842-857 | A holder that acquires again for a later deadline can lose the new lease to the old lock's timer, by an explicit run |
| LeaseLimits.RenewalIsSecureIff | pkg/v1/memory.go:1062-1080 | An accepted renewal, at or before its deadline, starts a secure lease if and only if every timer left behind is harmless to it and no timer of the lock has fired without having read the lock's generation |
| LeaseLimits.OldTimerTurnsOnRenewalIff | pkg/v1/memory.go:1072-1080 | The timer a renewal replaces stays outstanding with the renewed generation if and only if it has fired and not yet read it |
| LeaseLimits.RenewalAtDeadlineIsUndone | pkg/v1/memory.go:1073-1080 | A renewal accepted at the deadline is removed by the timer that has already fired |
| LeaseLimits.DeadlineIsReached | pkg/v1/memory.go:1039-1087 | For every consumer, holder and TTL, a run from an empty service to a state where that happens |
| LockWaiters.HistoryKeepsWakeUps | pkg/v1/memory.go:1119-1169 | In every history a blocked waiter with an empty channel has the lock still there with an outstanding timer of its generation, or a release still to be announced |
| LockWaiters.EventKeepsWakeUps | pkg/v1/memory.go:873-906 | Every single event keeps that |
| LockWaiters.RemovalIsAnnounced | pkg/v1/memory.go:787-820 | Every lock a step takes away is announced, at once or by the releasing caller |
| LockWaiters.OwedAreRemovals | pkg/v1/memory.go:873-906 | A command owes one announcement for each lock it removes, and nothing else is ever owed |
| LockWaiters.SignalHasReason | pkg/v1/memory.go:1151-1166 | A waiter's channel is filled only by an owed announcement of its consumer or the expiry that removes its consumer's lock |
| LockWaiters.AttemptMeaning | pkg/v1/memory.go:1119-1149 | An attempt is denied, and blocks, exactly when another holder's lock stands; otherwise the waiter is done, with its lock unless its TTL is too low |
| LockWaiters.BlockedWaiterCanBeWoken | pkg/v1/memory.go:1119-1138 | From any such state the clock, the timers and owed announcements alone can wake a blocked waiter |
| MemoryService.Memory.constructor | pkg/v1/memory.go:131-143 | A new service holds no locks, positions or timers |
| MemoryService.Memory.CleanExpiredLocks | pkg/v1/memory.go:760-785 | Drops expired locks of the stream other than the caller's, all of them or 128, stops their timers and reports each with its holder |
| MemoryService.Memory.TryAcquire | pkg/v1/memory.go:787-871 | New state and reply are those of the acquisition step with the swept consumers reported |
| MemoryService.Memory.HeartbeatWithPosition | pkg/v1/memory.go:1039-1104 | New state and reply are those of the heartbeat step |
| MemoryService.Memory.Release | pkg/v1/memory.go:873-931 | New state, reply and released event are those of the release step |
| MemoryService.Memory.SetPosition | pkg/v1/memory.go:693-719 | New state and reply are those of the set-position step, refusing to go back |
| MemoryService.Memory.CheckLock | pkg/v1/memory.go:220-250 | A submission's lock assertion holds exactly for the holder of a lock that still stands |
| MemoryService.Memory.PerformExpiry | pkg/v1/memory.go:79-102 | Removes the lock exactly when the operation's generation is the lock's, and reports it |
| ConsumerStore.Store.CleanExpiredLocks | internal/service/storage/consumer.go:330-380 | Deletes at most 128 expired rows of the stream, never the caller's; none when its statement fails |
| ConsumerStore.Store.TryAcquire | internal/service/storage/consumer.go:149-325 | Tables and reply are those of the acquiring transaction, including missing stream, conflict and low TTL |
| ConsumerStore.Store.HeartbeatWithPosition | internal/service/storage/consumer.go:704-776 | Lock and position move together or, on any refusal, not at all |
| ConsumerStore.Store.Release | internal/service/storage/consumer.go:429-500 | Deletes the holder's own active row, succeeds on none, refuses others and empty names |
| ConsumerStore.Store.SetPosition | internal/service/storage/consumer.go:782-834 | Moves the position forward and reports the previous one, or refuses |
| ServiceAgreement.AgreementIff | internal/service/storage/consumer.go:252-308 | From agreeing states, both services give every command of every joint run the same verdict, grant, position and conflict versions, at instants off the deadlines and with grants that leave only harmless timers, if and only if no timer of the in-memory service can end a live lease early |
| ServiceAgreement.SameVerdictThroughout | internal/service/storage/consumer.go:252-308 | The first half: from a safe service, the same verdict for every command of every joint run |
| ServiceAgreement.NewServicesConcur | pkg/v1/memory.go:131-143 | New services, over any streams, give every command of every joint run the same verdict |
| ServiceAgreement.RunsAgree | internal/service/storage/consumer.go:737-776 | After every step of every joint run from a safe service active locks and positions are equal, although each service drops expired locks at its own times, and the service stays safe |
| ServiceAgreement.StepKeepsAllSafe | pkg/v1/memory.go:79-102 | Commands off their deadline whose grants leave only harmless timers, the clock, and any timer step keep every live lock safe |
| ServiceAgreement.NoEarlyExpiry | pkg/v1/memory.go:79-102 | In a safe service an expiry operation removes a lock no earlier than its deadline |
| ServiceAgreement.TimerAgreesIff | pkg/v1/memory.go:79-102 | After a step of the clock or of a timer the services still agree if and only if it is no early expiry |
| ServiceAgreement.HarmfulTimerParts | pkg/v1/memory.go:842-857 | For every timer that is not harmless, a joint run that ends with different verdicts |
| ServiceAgreement.ReacquiringParts | pkg/v1/memory.go:842-857 | A holder that acquires again for a later deadline can bring the services apart, by an explicit run |
| LockSimulation.CommandsAgree | pkg/v1/memory.go:824-871 | One command on agreeing services: same verdict, agreeing services |
| LockSimulation.VerdictsPartIff | internal/service/storage/consumer.go:630-645 | On a lock both have alike, up to and at its deadline, the verdicts differ if and only if it is the instant of the deadline and the command is the owner's heartbeat or submission or another's release or acquisition |
| PositionHandOff.RejectionChangesNothing | pkg/v1/memory.go:1039-1061 | In both services a rejected command changes neither locks nor positions |
| PositionHandOff.MemoryPositionsGrow | pkg/v1/memory.go:1091-1104 | In memory no position ever moves back over a run without deletions |
| PositionHandOff.MemoryHandsOff | pkg/v1/memory.go:859-870 | In memory a grant reports at least every position any earlier holder heartbeated |
| PositionHandOff.StorePositionsGrow | internal/service/storage/consumer.go:649-665 | The same monotonicity in PostgreSQL, whatever the clock does |
| PositionHandOff.StoreHandsOff | internal/service/storage/consumer.go:221-232 | The same hand-off in PostgreSQL |
| PositionHandOff.StoreKeepsToStreams | internal/service/storage/consumer.go:240-267 | At every point of every run of the store, whatever the commands, every lock and position belongs to an existing stream |
| PositionHandOff.MissingStreamIsRefused | internal/service/storage/consumer.go:223-267 | For a missing stream acquisitions and set positions are refused as such, and no heartbeat or asserted submission is accepted |
| LockEffects.MemoryCommandIsLocal | pkg/v1/memory.go:760-785 | A command leaves every other consumer its position and its lock, unless a grant in the stream sweeps the lock, which had expired |
| LockEffects.StoreCommandIsLocal | internal/service/storage/consumer.go:330-380 | The same in PostgreSQL |
| LockEffects.GrantSweeps | pkg/v1/memory.go:760-785 | A grant drops 128 of the stream's expired locks beside its own, or fewer and leaves none |
| LockEffects.StoreGrantSweeps | internal/service/storage/consumer.go:330-352 | The same in PostgreSQL, unless the sweep's statement fails, which drops none |
| LockEffects.MemoryRefusals | pkg/v1/memory.go:1039-1104 | In memory each error is given exactly in its case, for every command |
| LockEffects.StoreRefusals | internal/service/storage/consumer.go:669-776 | The same in PostgreSQL, where a lock past its deadline is reported expired and one at its deadline not found |
| LockEffects.DenialReports | internal/service/storage/consumer.go:298-308 | A denied acquisition reports, in memory, the standing lock and its deadlines; in PostgreSQL the deadlines a grant would have had, and the holder only before the deadline |
| LockEffects.GrantReportsLatest | internal/service/storage/consumer.go:221-232 | In both services a grant right after an accepted command reports the position the command wrote, 0 if it deleted it, and otherwise what a grant before it would have reported |
| LockEffects.StoppedTimerNeverExpires | pkg/v1/memory.go:910-931 | In every run, once a release or a sweep has removed a lock whose timer was armed, that timer's operation is never performed |
| LockEffects.ExpiryHappensOnce | pkg/v1/memory.go:79-102 | In every run no expiry operation is performed twice |
| LeaseSurvival.EveryHeartbeatIsAccepted | pkg/v1/memory.go:1129-1130 | With each iteration's overhead below the TTL minus the watch time-out and deliveries above the position, every heartbeat the loop sends in a run of any length is accepted strictly before the deadline and restarts the full TTL, from any grant to which the timers left behind are harmless |
| LeaseSurvival.PumpStaysFresh | pkg/v1/memory.go:1062-1068 | The invariant behind it: a safe lease whose deadline is one TTL after the latest heartbeat |
| PumpLoop.SlackIsNineteenPercent | pkg/indexer/pump.go:194-226 | After the two truncations the slack is at least 19 hundredths of the TTL, and less than two nanoseconds more |
| PumpLoop.Pump.ApplyHeartbeat | pkg/indexer/pump.go:265-276 | A conflict moves the position to the stored one, a lost lock ends the loop |
| PumpLoop.Pump.RunWatchLoop | pkg/indexer/pump.go:224-260 | Position, heartbeats and end of the loop are those of its turns over the ticks |
| PumpLoop.TickMeaning | pkg/indexer/pump.go:233-276 | Tick by tick, for a running loop at position p: a time-out sends one heartbeat carrying p, an event beyond p one carrying its ID, any other tick none; then acceptance keeps the position, a conflict moves it to the stored one, a lost lock or a broken watch ends the loop |
| PumpLoop.LoopStaysAhead | pkg/indexer/pump.go:248-276 | Heartbeat positions never decrease, and the position never falls behind a delivered event, whatever conflicts are reported |
| PumpLoop.BeatsAreCounted | pkg/indexer/pump.go:233-258 | With every heartbeat accepted, as many are sent as there are time-outs and events above the start and every event before them |
| PumpLoop.HighestMeaning | pkg/indexer/pump.go:247-253 | The position such a loop ends at is the least that is behind neither the start nor any event delivered |
| PumpLoop.OneBeatPerIteration | pkg/indexer/pump.go:233-258 | When every tick is a time-out or an event above all before it, every iteration sends its heartbeat |
| PumpLoop.BeatCarriesHighest | pkg/indexer/pump.go:252-258 | And each carries the highest event so far |
| KeepAlive.StreamKeepsProtocol | internal/service/grpcConsumerLocks.go:116-232 | For every message sequence and interleaved release: no command reaches the store before a bind or after the loss notice, each names exactly the bound lock, no second bind succeeds, every answer is the command's own, every status is earned by the heartbeat directly before it or is Stolen, a loss follows a release of the bound lock |
| KeepAlive.AckPrecedesLoss | internal/service/grpcConsumerLocks.go:322-351 | A release's own ack directly follows it and precedes any loss notice |
| KeepAlive.StepKeepsInv | internal/service/grpcConsumerLocks.go:162-204 | Each message, announcement, loss, failure or foreign command keeps the shape of the acts so far |
| KeepAlive.StatusMeaning | internal/service/grpcConsumerLocks.go:412-518 | What each heartbeat status says about the lock, the position and the store |
| KeepAlive.ForeignBeatMeaning | internal/service/grpcConsumerLocks.go:422-432 | A heartbeat in another holder's name is told Stolen and does nothing else, one for another lock ends the stream unanswered |
| KeepAlive.ReleaseMeaning | internal/service/grpcConsumerLocks.go:322-351 | The holder's release of a standing lock frees it and owes exactly its announcement; past the deadline it is acknowledged and does nothing; against another's standing lock it ends the stream without an ack |
| KeepAlive.MisplacedMessageEnds | internal/service/grpcConsumerLocks.go:134-190 | A message out of place, or a bind with a name missing, ends the stream and does nothing else |
| KeepAlive.UnsentEndsStream | internal/service/grpcConsumerLocks.go:303-351 | A notice that could not be sent is not among the acts and ends the stream |
| KeepAlive.BindMeaning | internal/service/grpcConsumerLocks.go:371-410 | Which locks let a bind through, and when a refusal says stolen or expired |
| KeepAliveLosses.LossKnownIff | internal/service/grpcConsumerLocks.go:234-247 | In every run a bound stream knows its lock lost if and only if a release of exactly that lock was announced while it was bound |
| KeepAliveLosses.LossMeansGoneIff | internal/service/grpcConsumerLocks.go:322-341 | For a stream bound to its holder's lock, in every continuation without another acquisition by the holder a loss it knows of is real, if and only if no earlier release of the lock is still to be announced |
| KeepAliveLosses.LateAnnouncementRun | internal/service/grpcConsumerLocks.go:234-247 | For every held lock, a run that releases it, acquires it again, binds to it, and is then told of the old release |
| KeepAliveLosses.ReleaseDuringBindGoesUnnoticed | internal/service/grpcConsumerLocks.go:209-247 | For every held lock, a run in which it is released and announced between the bind's check and its subscription, and the stream is bound without knowing |
| KeepAliveService.KeepAliveStream.Run | internal/service/grpcConsumerLocks.go:116-175 | A whole stream over any sequence of events ends with acts that obey the protocol |
| KeepAliveService.KeepAliveStream.Take | internal/service/grpcConsumerLocks.go:134-158 | A message is handled and a bind that holds is confirmed, keeping the invariant |
| KeepAliveService.KeepAliveStream.Dispatch | internal/service/grpcConsumerLocks.go:179-190 | Routes a message by the stream's phase; anything out of place closes it |
| KeepAliveService.KeepAliveStream.BindHolder | internal/service/grpcConsumerLocks.go:209-232 | The first half of a bind: validation and the check of the lock |
| KeepAliveService.KeepAliveStream.ConfirmBind | internal/service/grpcConsumerLocks.go:234-257 | The second half: subscription and confirmation |
| KeepAliveService.KeepAliveStream.HandleHeartbeat | internal/service/grpcConsumerLocks.go:194-204 | A heartbeat for another lock closes the stream, for another holder is reported stolen, otherwise reaches the store |
| KeepAliveService.KeepAliveStream.HandleReleaseRequest | internal/service/grpcConsumerLocks.go:322-351 | Releases the bound lock, owes the announcement, acknowledges |
| KeepAliveService.KeepAliveStream.OnLockReleased | internal/service/grpcConsumerLocks.go:234-247 | Only a release of the bound lock by the bound holder marks it lost |
| KeepAliveService.KeepAliveStream.NotifyLockLost | internal/service/grpcConsumerLocks.go:303-320 | The loss notice is the last act |
| ServerWaiters.SubscriptionHearsIff | internal/service/grpcConsumerLocks.go:579-599 | A waiter that has just subscribed hears of every release in every continuation if and only if the lock is still there or a release still to be announced |
| ServerWaiters.GapRun | internal/service/grpcConsumerLocks.go:565-588 | For every lock held by another, a run in which it is released and announced between the failed attempt and the subscription, and the waiter blocks before a free lock |
| ServerWaiters.UnheardStaysBlocked | internal/service/grpcConsumerLocks.go:584-598 | Left alone, such a waiter stays blocked however much time passes |
| ServerWaiters.AttemptMeaning | internal/service/grpcConsumerLocks.go:565-599 | An attempt ends the wait with the lock in hand exactly when no other holder's stands in the way, without one exactly when the TTL is too low or the stream missing, and otherwise changes nothing |
| MemoryWatch.MemoryWatch.constructor | pkg/v1/memory.go:529-542 | A new watch has nothing pending, has taken in nothing and has not replayed |
| MemoryWatch.MemoryWatch.Enqueue | pkg/v1/memory.go:581-603 | Takes an event in unless its ID is not above the last one taken in |
| MemoryWatch.MemoryWatch.Pop | pkg/v1/memory.go:605-612 | Returns the oldest pending row, if any |
| MemoryWatch.MemoryWatch.ProcessOnKind | pkg/v1/queryInFilter.go:31-46 | A clause takes an event in at most once, under its first matching op |
| MemoryWatch.MemoryWatch.ProcessMatch | pkg/v1/queryInFilter.go:48-57 | A subset clause sends the event exactly when its body contains the subset |
| MemoryWatch.MemoryWatch.Filter | pkg/v1/queryInFilter.go:16-29 | All clauses together take an event past the cursor in at most once, under the first matching clause's op |
| MemoryWatch.MemoryWatch.ProcessInitEvents | pkg/v1/memory.go:632-651 | Replays the stored events in order; an error keeps what was taken in and leaves the replay to be done again |
| MemoryWatch.MemoryWatch.WaitForEvents | pkg/v1/memory.go:653-668 | Receives no more than needed to have a row to return, and returns the first |
| WatchRuns.WatchIsExact | pkg/v1/memory.go:501-687 | At every point of every run the ticks have returned a prefix of the matching events, in ID order, each once, with the first matching op; a tick blocks only when none is left |
| WatchRuns.WaitingMovesOrBlocks | pkg/v1/memory.go:653-668 | A waiting tick that is not blocked can return or receive |
| WatchRuns.StepKeepsInv | pkg/v1/memory.go:614-651 | Each submission, registration, replay step, break-off, receive and return keeps channel, replay and account in step |
| WatchRuns.MatchesMeaning | pkg/v1/queryInFilter.go:16-57 | The rows owed are exactly the stored events with a matching clause, with strictly increasing IDs |
| WatchRuns.FirstOpMeaning | pkg/v1/queryInFilter.go:16-57 | On the clauses: an event is owed exactly when it lies past the cursor, whatever its sign, and a kind clause asks for it; the first such clause gives the op |
| WatchRuns.WatchSelectsAlike | pkg/v1/queryInFilter.go:16-57 | From ID 1 up the in-memory watch selects what the server's kind operations select, under the op of the first that does |
| ServerWatch.RequerySignal.constructor | internal/service/requery_signal.go:20-33 | Registers with an empty slot |
| ServerWatch.RequerySignal.Seed | internal/service/requery_signal.go:30-32 | The seeding send succeeds exactly when the slot is free |
| ServerWatch.RequerySignal.Signal | internal/service/requery_signal.go:48-53 | Fills the slot; signals coalesce |
| ServerWatch.RequerySignal.Wait | internal/service/requery_signal.go:36-43 | Takes the signal if there is one |
| ServerWatch.RequerySignal.Close | internal/service/requery_signal.go:56-61 | Unregisters; closing again does nothing |
| ServerWatch.ResultStream.constructor | internal/service/grpcResultStream.go:22-25 | A new stream has sent nothing and admits any ID from 0 up |
| ServerWatch.ResultStream.PushTranslatorMessage | internal/service/grpcResultStream.go:27-53 | Sends a row exactly when its ID is above the last sent |
| ServerWatch.MaxID | internal/service/grpc.go:270-284 | The largest ID among the rows, and 0 for none |
| ServerWatch.ProcessWatchResults | internal/service/grpc.go:270-284 | Pushes all rows in order and returns the largest ID |
| ServerWatch.RetargetInPlace | internal/service/storage/eachKind.go:14-17 | Moves every operation's cursor in place, but leaves ID operations alone |
| ServerWatch.RetargetMovesCursor | internal/service/grpc.go:246-254 | Moving the cursors of a query's operations gives the operations of the query with its cursor moved |
| ServerWatch.Pass | internal/service/grpc.go:244-260 | One pass of the loop: cursors, delivery, and the next cursor |
| ServerWatchRuns.SentStrictlyIncreases | internal/service/grpcResultStream.go:27-53 | In every run, whatever the commit and time order: sent IDs strictly increase and each message is a stored event with the op of a clause asking for it |
| ServerWatchRuns.WantedIff | internal/service/grpc.go:146-193 | An event is wanted if and only if some kind clause of its kind asks for it past the cursor, an ID clause names it, or the each-clause is there and it is past the cursor |
| ServerWatchRuns.GenuineIff | internal/service/grpc.go:146-193 | And it may be sent under exactly the ops of those clauses |
| ServerWatchRuns.PassGetsIff | internal/service/grpc.go:246-284 | A pass gets exactly the rows its clauses ask for past the watch's cursor |
| ServerWatchRuns.NothingGotTwice | internal/service/grpc.go:229-261 | In every run a pass gets an event that was already sent only under an ID clause |
| ServerWatchRuns.QuietWatchSentAll | internal/service/grpc.go:229-261 | When IDs and times follow commits, a watch blocked with an empty signal and no dispatch outstanding, whose last result did not break off before anything unsent, has sent every stored event any clause asks for, exactly once |
| ServerWatchRuns.QuietCompleteIff | internal/service/storage/repository.go:75-95 | And such a watch has sent everything wanted if and only if its last pass broke off before nothing unsent |
| WatchCommits.BrokenOffRun | internal/service/storage/repository.go:75-95 | For every wanted event, a run whose result breaks off and that ends quiet without having sent it |
| ServerWatchRuns.SendsNextWanted | internal/service/grpc.go:270-284 | When IDs and times follow commits, every message is the wanted event with the least ID not yet sent |
| ServerWatchRuns.StepKeepsComplete | internal/service/requery_signal.go:20-53 | Each commit, dispatch, wake-up, query, delivery and finish keeps the account complete and the wake-up due |
| ServerWatchRuns.StepKeepsSafe | internal/service/grpc.go:229-261 | Each step keeps the sent messages ordered and genuine, unconditionally |
| WatchCommits.CompleteIffCommittedInOrder | internal/service/grpc.go:229-261 | For a table of distinct IDs from 1 up: every run that ends quiet over it, its last pass having missed nothing, has sent every wanted event if and only if the wanted events' IDs and times strictly follow the order of commits |
| WatchCommits.LateCommitRun | internal/service/grpc.go:246-260 | For any wanted event committed after one with a larger ID, a run that ends quiet without having sent it |
| WatchCommits.DisorderRun | internal/service/storage/repository.go:51-62 | For any two wanted events whose times do not follow their IDs, a run that ends quiet with a wanted event unsent |
| ServerWatchRuns.LateCommitIsLost | internal/service/grpcResultStream.go:28-33 | An event at or below the last ID sent that was not sent is never sent in any continuation |
| ServerWatchRuns.SeedingGoesOnIff | internal/service/requery_signal.go:20-33 | In every run a watch still seeding can go on if and only if no dispatch has arrived since it registered |
| ServerWatchRuns.StalledRun | internal/service/requery_signal.go:20-33 | A run that commits and dispatches an event before the seeding send |
| ServerWatchRuns.EarlyDispatchStallsWatch | internal/service/requery_signal.go:20-33 | From then on the watch sends nothing in any continuation |
| WatchOrder.FreshWatchCompleteIff | internal/service/storage/repository.go:51-62 | A fresh watch is sure to send every chosen event, whatever the order of equal times, if and only if larger IDs have strictly later times |
| WatchOrder.DisorderLosesOne | internal/service/storage/repository.go:62-62 | Two chosen events out of time order: an admissible result that loses one |
| ProjectionStore.PGStore.constructor | pkg/indexer/views/pgstore.go:23-25 | A new store has no entries and no positions |
| ProjectionStore.PGStore.ApplyUpsert | pkg/indexer/views/pgstore.go:221-255 | Writes one entry to the table its key belongs to, or refuses the key |
| ProjectionStore.PGStore.ApplyDelete | pkg/indexer/views/pgstore.go:257-282 | Deletes one entry, or refuses the key |
| ProjectionStore.PGStore.ApplyMutations | pkg/indexer/views/pgstore.go:201-219 | Applies upserts, then deletes, and reports them as the change; a refused key yields none |
| ProjectionStore.PGStore.WritePosition | pkg/indexer/views/pgstore.go:186-199 | Raises the position, never lowers it |
| ProjectionStore.PGStore.Persist | pkg/indexer/views/pgstore.go:142-184 | Entries and position change together, or nothing changes |
| ProjectionStore.PersistPositions | pkg/indexer/views/pgstore.go:186-199 | An accepted persist leaves the consumer the larger of its stored position and the event's ID, and every other consumer its own; a refused one changes nothing |
| ProjectionRuns.PositionsNeverDrop | pkg/indexer/views/pgstore.go:186-199 | Over every run, under any names and whatever the handlers do, no stored position decreases |
| ProjectionStore.ApplyMeaning | pkg/indexer/views/pgstore.go:201-219 | Entity by entity: a delete wins, then the last upsert stamped with the event, the rest stays |
| ProjectionRuns.ProjectionIsExact | pkg/indexer/views/pgstore.go:142-219 | With the pump's holder named like the consumer and errors wrapped as a view's handlers wrap them, every state of every run, cut and restarted anywhere, has entities equal to the fold of the handlers over exactly the matching events up to the stored position |
| ProjectionRuns.StepKeepsExact | pkg/indexer/pump.go:183-276 | Each append, acquisition, delivery, reduction, commit, heartbeat and cut keeps the projection exact |
| ProjectionRuns.FoldNext | pkg/indexer/views/indexer.go:52-77 | Moving the position to the next matching event applies exactly that event |
| ProjectionRuns.StepsAreTurns | pkg/indexer/pump.go:224-276 | The pump's heartbeats in these runs are turns of the watch loop: same position, same end, same position stored |
| PumpDelivery.ServerDeliversNextMatching | internal/service/grpc.go:229-284 | In every run of the server's watch for a pump's query, with commits in order, each message is a delivery the pump's run admits: the next matching event of the stream |
| PumpDelivery.PumpWants | pkg/indexer/views/indexer.go:34-46 | A pump's query asks for exactly the stream's events of the handled kinds past a positive resume position |
| PumpProgress.PumpNeverSkips | pkg/indexer/pump.go:183-260 | In every run, under any names, a matching event that a resuming pump leaves out has had its handler succeed, or is one whose handler may end with the bare deadline error |
| PumpProgress.NeverSkipsIff | pkg/indexer/pump.go:224-243 | Whatever the projection, no run skips an event if and only if no handler ends with the bare deadline error |
| PumpProgress.TimedOutRun | pkg/v1/query2/watch.go:36-61 | The run in which a handler runs out of time, the watch goes on, and the next event's heartbeat leaves it out |
| PumpProgress.StepSkipsNothing | pkg/v1/query2/watch.go:36-61 | Each step, including losses, re-acquisitions and bare deadline errors, leaves out only events handled or timed out bare |
| PumpProgress.OtherNameHandlesTwice | pkg/indexer/pump.go:188-192 | For any two different names, a run that applies one event twice |
| PumpProgress.ExactIff | internal/service/storage/consumer.go:221-232 | Every projection under given names and bare errors stays exact in every run if and only if holder and consumer are the same and there are no bare errors |
| PumpProgress.BareEventIsMissing | pkg/indexer/pump.go:233-241 | For any event whose handler may time out bare, a run whose entities lack it at a position beyond it |
| VersionWait.Notifier.constructor | pkg/indexer/views/notifier.go:25-27 | A new notifier has emitted nothing and stands at -1 |
| VersionWait.Notifier.Emit | pkg/indexer/views/notifier.go:32-39 | The last version is the highest one emitted |
| VersionWait.Notifier.WaitForVersion | pkg/indexer/views/notifier.go:61-93 | True exactly when a version at or above the target was emitted; false only if none was by the end |
| VersionWait.RunKeepsSound | pkg/indexer/views/notifier.go:61-93 | In every run a blocked waiter whose version was emitted has a queued notification or an emit that will still reach it, though full channels drop messages, and every true answer is true |
| VersionWait.FalseOnlyIfNoneEmitted | pkg/indexer/views/notifier.go:84-91 | A waiter gives up exactly when its context ended and no version at or above its target had been emitted |
| VersionWait.ReachedWaiterReturns | pkg/indexer/views/notifier.go:78-92 | A blocked waiter whose version was emitted returns true without any further emit |
| MemoryProjection.MemoryStore.constructor | pkg/indexer/views/memory.go:18-22 | A new store is empty at version 0 |
| MemoryProjection.MemoryStore.Persist | pkg/indexer/views/memory.go:54-93 | Keys are validated first; upserts are written until one cannot be encoded, which leaves those before it; otherwise deletes and the version follow |
| MemoryProjection.MemoryStore.WriteUpserts | pkg/indexer/views/memory.go:66-78 | Writes the upserts before the first whose value cannot be encoded |
| MemoryProjection.AllOrNothingIff | pkg/indexer/views/memory.go:66-78 | Whatever the store holds, a reduction is persisted wholly or not at all if and only if no value fails after another was written |
| MemoryProjection.StoresAgreeIff | pkg/indexer/views/memory.go:54-93 | Stores that answer alike still do after a reduction, whatever they hold, if and only if it does not fail halfway |
| MemoryProjection.ValidateReduceResult | pkg/indexer/views/memory.go:95-110 | Accepts exactly the reductions all of whose keys have one or two parts |
| MemoryProjection.ReductionsAgree | pkg/indexer/views/memory.go:66-89 | The in-memory and the PostgreSQL store, answering alike, still do after any reduction both accept |
| VersionedReads.AlwaysRightIff | pkg/indexer/views/memory_reader.go:22-92 | Every answer of every run is right if and only if no persist of any run fails halfway: read from the fold of the handlers; OK exactly with an entity and not found without one, both after every event up to the version asked for; a time-out only if no such version had been emitted |
| VersionedReads.HalfwayMisleads | pkg/indexer/views/memory_reader.go:53-57 | After a persist that fails halfway a reader asking for the event's version is told the half-applied entity as up to date |
| VersionedReads.EncodingNeverHalfway | pkg/indexer/views/memory.go:66-78 | With handlers whose values all encode, no persist fails halfway and every answer is right |
| VersionedReads.ReadIncludesVersion | pkg/indexer/views/memory_reader.go:22-92 | As long as no persist has failed halfway, every answer to UntilVersion is right in that sense |
| VersionedReads.TimeoutsAreJust | pkg/indexer/views/memory_reader.go:60-81 | In every run, whatever the handlers, StatusTimeout is told only to a reader whose wait ended with no version at or above the one asked for emitted |
| VersionedReads.PumpKeepsInv | pkg/indexer/views/indexer.go:52-77 | A persist that succeeds, before its emit, keeps every emitted and every stored version behind the events taken in |
| VersionedReads.ReaderKeepsInv | pkg/indexer/views/memory_reader.go:53-92 | Looking, waiting, giving up and fetching keep every answer tied to the store state it was read from |
| Queries.BuildQueryOps | internal/service/grpc.go:146-193 | The operations of a query, clause by clause in order, and whether there are none |
| Queries.OpsSelectIff | internal/service/grpc.go:146-193 | The operations of a query select an event, under an op, if and only if one of its clauses asks for it under that op |
| Queries.BuildKindOps | internal/service/grpc.go:154-174 | One kind clause adds its each-operation, then its subset operations, with the query's cursor |
| Queries.UnionRowSound | internal/service/storage/repository.go:51-62 | A row of the union is a stored event under an operation that selects it |
| Queries.UnionRowComplete | internal/service/storage/repository.go:51-62 | Every operation that selects a stored event yields its row |
| BatchTranslation.TranslateBatchR2 | internal/service/storage/batchr2.go:10-52 | The operations the HTTP path builds |
| BatchTranslation.TranslateKind | internal/service/storage/batchr2.go:19-39 | One kind clause adds its each-operation, then its subset operations |
| BatchTranslation.BuildBatchR2Request | pkg/v1/grpcAdapter.go:359-402 | The gRPC request for a batch, and none for an empty one |
| BatchTranslation.TranslatorsAgree | pkg/v1/grpcAdapter.go:359-402 | A batch sent over gRPC becomes the operations it becomes over HTTP |
| BatchTranslation.QueryBatchR2 | pkg/v1/memory.go:423-441 | The in-memory interpreter's dispatches, event by event |
| BatchTranslation.ProcessKinds | pkg/v1/memory.go:443-481 | The dispatches of an event's kind clauses |
| BatchTranslation.ProcessIDs | pkg/v1/memory.go:483-499 | The dispatches of an event's ID clauses |
| BatchTranslation.BatchMeaningIff | internal/service/storage/batchr2.go:10-52 | From ID 1 up the stored operations return the interpreter's dispatches, with multiplicity, if and only if no ID clause names a stored event at or before the cursor |
| HandlerDispatch.Registry.Register | pkg/v1/query2/query.go:51-55 | Appends a handler and returns its index |
| HandlerDispatch.Registry.PrepareMatches | pkg/v1/query2/kind.go:85-98 | Subset clauses with a handler get consecutive ops that resolve to their handlers |
| HandlerDispatch.Registry.PrepareKind | pkg/v1/query2/kind.go:33-47 | A kind clause's ops are consecutive and resolve, for every event, to its own calls |
| HandlerDispatch.Registry.PrepareKinds | pkg/v1/query2/query.go:86-104 | All kind clauses together keep ops dense and resolving |
| HandlerDispatch.Registry.PrepareIds | pkg/v1/query2/query.go:86-104 | ID clauses continue the numbering and resolve to their handlers |
| HandlerDispatch.BuildBatchRequest | pkg/v1/query2/query.go:86-104 | Op numbers are distinct and dense and resolve to the clauses' handlers |
| HandlerDispatch.ProcessBatchResults | pkg/v1/query2/query.go:106-117 | Calls the handler each result names; fails exactly when one names none |
| HandlerDispatch.StreamBatch | pkg/v1/query2/query.go:69-84 | Succeeds, and calls the clauses' handlers event by event in the order of the clauses |
| HandlerDispatch.CallsPerClauseAndEvent | pkg/v1/query2/query.go:69-117 | With distinct handlers, a clause's handler is called with an event as often as it occurs if the clause asks for it past the cursor, and not at all otherwise |
| HandlerDispatch.NoOtherCalls | pkg/v1/query2/query.go:106-117 | A handler of no clause is never called |
| SqlText.SQLQuery.Append | internal/service/storage/sqlquery.go:13-21 | Adds text |
| SqlText.SQLQuery.Hole | internal/service/storage/sqlquery.go:23-27 | Binds an argument and numbers its hole |
| SqlText.HolesInOrder | internal/service/storage/sqlquery.go:23-27 | Read left to right, the holes of a text are numbered 1 to n, one per argument |
| SqlText.FillRestores | internal/service/storage/sqlquery.go:13-27 | Each hole binds the argument its own clause supplied |
| V1Query.TranslateQuery | internal/service/storage/queryBuilder.go:10-40 | Writes exactly the described text with its arguments, holes in order |
| V1Query.TranslateKindConstraint | internal/service/storage/queryBuilder.go:42-60 | Writes one constraint: kind, equality matchers, subset |
| V1Query.TranslateConstraints | internal/service/storage/queryBuilder.go:29-37 | The constraints are opened by AND, joined by OR and closed, and nothing is written for none |
| V1Query.TranslateEq | internal/service/storage/queryBuilder.go:42-60 | One matcher writes its path and its list of values, each with its own hole |
| V1Reading.GeneratedTextReads | internal/service/storage/queryBuilder.go:42-60 | The text parses, as the intended condition, if and only if every matcher has exactly one value |
| V1Reading.ConditionIsFilter | pkg/v1/filter.go:16-66 | The condition selects the stream's events that pass the local filter |
| V1Reading.TranslationSelectsFiltered | internal/service/storage/queryBuilder.go:10-60 | Text and arguments, filled and parsed, select what the local filter selects |
| V1OverFetch.BuildQueryRequest | pkg/v1/grpcAdapter.go:222-267 | The over-fetching request, and whether it is already exact |
| V1OverFetch.Perform | pkg/v1/query.go:45-76 | Filters locally what was fetched unless it was exact |
| V1OverFetch.OverFetchIff | pkg/v1/query.go:45-49 | A query gets over gRPC what its filter passes if and only if it names a kind; without one it is refused |
| V1OverFetch.NoKindsPassAll | pkg/v1/filter.go:20-22 | The filter of a query without kinds passes every event |
| BatchSql.Statement | internal/service/storage/repository.go:44-62 | Writes one SELECT per operation joined by UNION ALL, and refuses an empty list |
| BatchSql.AppendOperation | internal/service/storage/matchsubset.go:24-37 | Writes an operation's own SELECT, with a cursor comparison only for a positive cursor |
| BatchSql.OpCondSelects | internal/service/storage/eachKind.go:19-33 | A branch's condition is its operation's selection |
| BatchSql.StatementReads | internal/service/storage/repository.go:51-62 | The filled statement parses as one branch per operation, in order, with its number and selection |

## Left out

- JSON containment, property paths and PostgreSQL's matching operators: one uninterpreted predicate stands for each.
- PostgreSQL's isolation levels, failed statements beyond those named, and transactions that interleave: each transaction is one step at one instant. The release's separate check and delete are one step.
- Numeric consumer, stream, kind and projection identifiers, and legacy position rows without a consumer id: names are used throughout, and a position is keyed by its consumer's name.
- String encodings of composite keys in the in-memory maps: keys are tuples, so names containing the separators are not confused here.
- Rounding of nine tenths of a TTL in floating point: truncated integer arithmetic on nanoseconds.
- Release subscribers that fail, and releasing callers cut off between removing a lock and announcing it: announcements are assumed to be made eventually.
- A watch channel that overflows its 128 slots, and a watch cancelled between receiving an ID and processing it, both of which lose events by design.
- Two pumps at work on one projection at once: the store does not check the lock, so exactness is for one active pump, whose open transaction is decided before its successor starts.
- Handlers that depend on more than the event and the projection's entities.
- The After option of a read, reads from the remote store, and the projection's remote change stream: classification only.
- The clients' idle time-outs, state reporting, back-off, metrics, spans and error texts.
- HTTP routes, the REST client, generated gRPC code, migrations, configuration, TLS and command line: plumbing.
- ServiceAgreement.SameVerdictThroughout: does not compare the kind of error of refused commands, nor the deadlines reported with a denied acquire, because the two services report different ones; releases carry no empty names and acquisitions and set positions name an existing stream.
- V1OverFetch.OverFetchIff: takes distinct kinds and no cursor, because the query builder of the first API keeps its kinds in a map and sets no cursor, and no empty document sent as a subset, because the builder always sets an equality list, so that every kind it names is fetched whole.
- VersionedReads.ReadIncludesVersion: events before the pump began are not in the store, because an in-memory store starts empty while the stored position may not.
