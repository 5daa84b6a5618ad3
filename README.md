# Service Fabric actors and remoting: a verified model

This project models, in Dafny, the core of the Service Fabric Reliable Actors runtime and its service remoting layer, and proves properties of that model. The modelled parts are:

- **The volatile actor state table.** It holds a replicated store keyed by (state type, key), with a chain of versions per key. Updates are prepared under a sequence number and become visible only when every earlier number has committed. Snapshot enumerators are bounded by a sequence number (modules `StateTableSpec`, `VolatileActorStateTables`, `StateTableScenarios`).
- **Reminders.** The remaining due time of a persisted reminder (`ActorReminderStates`, over `TimeSpans`). The argument checks and timer-handle life cycle of a live reminder (`ActorReminders`).
- **Garbage-collection settings** and their validation (`ActorGarbageCollection`).
- **Diagnostics.** The 64-bit interface/method key. The pending lock-call bookkeeping. The per-call stopwatch stack of reentrant actor methods (`DiagnosticsEvents`).
- **The event-source provider.** Its method-info table and its role-change classification (`EventSources`).
- **Remoted method descriptions.** The cancellation-token placement check and the id selection (`MethodDescriptions`).
- **Client-side event subscriptions** (remoting V1). Three dictionaries are kept in step, and incoming events pass through a filter (`ActorEventSubscriptions`).
- **The V1 runtime's interface-id to dispatcher map** (`ActorMethodDispatcherMaps`).
- **Request routing in the V2 actor service remoting dispatcher** (`ActorServiceRemotingDispatchers`).
- **The service proxy factory.** Its lazy choice between the V1 and V2 remoting stacks (`ServiceProxyFactories`).
- **The remoting-version flag predicates** (`RemotingVersions`).

Where the source mutates an object, the model is a class whose methods state their new state. The state table's methods do this as a pure function of the old state (`ensures State() == Commit(old(State()), sn)`). The properties the tests assert are lemmas about those functions. Pure rules are functions whose contracts state what the result means. Where a rule also has a separate reference definition, a lemma connects the two. The pairs are: `ComputeRemainingTime` and `RemainingSpec`; `ActorMethodDispatcherMap.Create` and `Index`; `AddInterfaceMethodInfos` and `StoreAll`; `NewSettings` and `Admissible`; `HasFlag` and its bit view `Contains`. Event delivery (`OneWayMessage`) is tied to registration by the contracts of `RegisterSubscriber` and `TryUnregisterSubscriber` and by `DeliveredExactlyToRegistered`.

Foreign pieces become data passed in. These are:
- ids computed by the id utility;
- the dispatcher or provider found for an interface;
- enum flag values;
- clock readings;
- the outcome of a dispatch.

GUIDs become numbers from a counter, which keeps the one property the code relies on: a new id is distinct from every id issued before.

### Points where the source's behaviour is easy to misread

- **Snapshots with a ceiling.** The table's tests count uncommitted versions too. A snapshot bounded by `long.MaxValue` is expected to hold one entry per prepared sequence number, committed or not, while one bounded by the committed number holds the committed entries only (VolatileActorStateTableTests.cs:807-821). `StateTableSpec.Snapshot` follows this. It yields each key's latest committed version at or below both the ceiling and the committed number, plus every uncommitted version at or below the ceiling. With a ceiling at or below the committed number it holds committed entries only (`StateTableSpec.SnapshotBelowFloor`).
- **Out-of-order commits.** Committing a number does not make the numbers below it visible. The tests commit 9 and then 8 ahead of 7, and nothing becomes readable until 7 commits (VolatileActorStateTableTests.cs:234-305). So the committed number advances only over a contiguous run of commits at the head of the pending list.
- **Remaining due time.** `ComputeRemainingTime` (ActorReminderState.cs:41-68) subtracts the start time from the clock at l.48-51, before the negative-due check at l.53-58. A negative due time therefore gives `InfiniteTimeSpan` only when that subtraction does not overflow; otherwise the subtraction throws first. When the clock has not passed the start, nothing has elapsed: the result is the due time itself if it is non-negative, and `InfiniteTimeSpan` if it is negative.
- **GC settings error.** The ratio check at ActorGarbageCollectionSettings.cs:52 throws `ArgumentOutOfRangeException(SR.ActorGCSettingsNotValid)`. Its single argument is the parameter-name position, so the message resource ends up there (`ActorGarbageCollection.NotValidError`). The two range errors at l.37 and l.42 carry the names with the stray closing parenthesis the source writes.
- **Retry settings.** The explicit-stack constructors at ServiceProxyFactory.cs:56-61 and 76-82 hand their retry settings to that stack only and leave the factory's own `retrySettings` unset. A V2 stack created later by `CreateNonIServiceProxy` therefore gets none (`ServiceProxyFactories.ExplicitV1Stack`).

## Model

| member | source | states |
|---|---|---|
| StateTableSpec.Empty | test/unittests/Microsoft.ServiceFabric.Actors.Tests/Runtime/Volatile/VolatileActorStateTableTests.cs:151-160 | a new table is valid: nothing prepared or committed, both sequence numbers zero |
| StateTableSpec.Latest | test/unittests/Microsoft.ServiceFabric.Actors.Tests/Runtime/Volatile/VolatileActorStateTableTests.cs:151-184 | the version read for a chain and a floor is the last version at or below the floor, and none exactly when every version is above it |
| StateTableSpec.ReadIsLatestCommitted | test/unittests/Microsoft.ServiceFabric.Actors.Tests/Runtime/Volatile/VolatileActorStateTableTests.cs:151-184 | a read returns the value of the last version at or below the committed number, and only when that version is not a delete; a key with no such version reads nothing |
| StateTableSpec.VersionsFor | test/unittests/Microsoft.ServiceFabric.Actors.Tests/Runtime/Volatile/VolatileActorStateTableTests.cs:151-184 | the versions one replication unit adds to a key all carry the unit's sequence number and each comes from an update of that key; there are none exactly when no update targets the key |
| StateTableSpec.LastUpdateFor | test/unittests/Microsoft.ServiceFabric.Actors.Tests/Runtime/Volatile/VolatileActorStateTableTests.cs:636-675 | the last update of a unit for a key is an update for that key that no later update of the unit overrides, and none exactly when no update targets the key |
| StateTableSpec.Advance | test/unittests/Microsoft.ServiceFabric.Actors.Tests/Runtime/Volatile/VolatileActorStateTableTests.cs:234-305 | releasing the floor stops at the first pending number not yet committed |
| StateTableSpec.PrepareChainsAt | test/unittests/Microsoft.ServiceFabric.Actors.Tests/Runtime/Volatile/VolatileActorStateTableTests.cs:151-184 | preparing appends, to each key's chain, exactly the versions the unit has for that key |
| StateTableSpec.PrepareChainsKeys | test/unittests/Microsoft.ServiceFabric.Actors.Tests/Runtime/Volatile/VolatileActorStateTableTests.cs:151-184 | after preparing, the keys with chains are the old ones plus the unit's targets |
| StateTableSpec.Prepare | test/unittests/Microsoft.ServiceFabric.Actors.Tests/Runtime/Volatile/VolatileActorStateTableTests.cs:151-184 | preparing appends the number to the pending list and makes it the highest known, and leaves the committed number and the commits as they were, so nothing prepared is released |
| StateTableSpec.Commit | test/unittests/Microsoft.ServiceFabric.Actors.Tests/Runtime/Volatile/VolatileActorStateTableTests.cs:234-305 | a commit changes neither chains nor the known number; a number not pending changes nothing; a pending one is recorded, and what stays pending starts with an uncommitted number |
| StateTableSpec.Apply | test/unittests/Microsoft.ServiceFabric.Actors.Tests/Runtime/Volatile/VolatileActorStateTableTests.cs:423-490 | applying a unit appends its versions, makes its number the highest known and records it as committed |
| StateTableSpec.LatestIgnoresLater | test/unittests/Microsoft.ServiceFabric.Actors.Tests/Runtime/Volatile/VolatileActorStateTableTests.cs:636-675 | versions above the floor do not change what is read |
| StateTableSpec.LatestOfCovered | test/unittests/Microsoft.ServiceFabric.Actors.Tests/Runtime/Volatile/VolatileActorStateTableTests.cs:636-675 | when the newest version is at or below the floor, it is the one read |
| StateTableSpec.VersionsForLast | test/unittests/Microsoft.ServiceFabric.Actors.Tests/Runtime/Volatile/VolatileActorStateTableTests.cs:636-675 | the newest version a unit adds to a key is its last update for that key |
| StateTableSpec.PrepareChainsValid | test/unittests/Microsoft.ServiceFabric.Actors.Tests/Runtime/Volatile/VolatileActorStateTableTests.cs:151-184 | preparing keeps every chain ordered by sequence number and bounded by the prepared number |
| StateTableSpec.PendingAppend | test/unittests/Microsoft.ServiceFabric.Actors.Tests/Runtime/Volatile/VolatileActorStateTableTests.cs:234-305 | appending a higher number keeps the pending list strictly ascending above the floor |
| StateTableSpec.AdvanceKeepsPending | test/unittests/Microsoft.ServiceFabric.Actors.Tests/Runtime/Volatile/VolatileActorStateTableTests.cs:234-305 | releasing keeps the floor between its old value and the highest known number, and the rest of the list valid |
| StateTableSpec.PrepareHidesUpdate | test/unittests/Microsoft.ServiceFabric.Actors.Tests/Runtime/Volatile/VolatileActorStateTableTests.cs:151-184 | a prepared update is not readable: every read is unchanged, the committed number stays, and the known number becomes the prepared one |
| StateTableSpec.CommitKeepsValid | test/unittests/Microsoft.ServiceFabric.Actors.Tests/Runtime/Volatile/VolatileActorStateTableTests.cs:151-184 | a commit keeps the table valid, never lowers the committed number, never changes chains or the known number, and a number not pending changes nothing |
| StateTableSpec.AdvanceReleases | test/unittests/Microsoft.ServiceFabric.Actors.Tests/Runtime/Volatile/VolatileActorStateTableTests.cs:234-305 | the floor rises exactly when the head of the pending list is committed, and every released number was committed |
| StateTableSpec.CommitAdvancesFloor | test/unittests/Microsoft.ServiceFabric.Actors.Tests/Runtime/Volatile/VolatileActorStateTableTests.cs:234-305 | a commit raises the committed number exactly when it commits the head of the pending list, and only committed numbers are passed |
| StateTableSpec.CommitHead | test/unittests/Microsoft.ServiceFabric.Actors.Tests/Runtime/Volatile/VolatileActorStateTableTests.cs:773-813 | committing the head, when the next number is not yet committed, moves the floor to exactly that number |
| StateTableSpec.OutOfOrderCommitHidden | test/unittests/Microsoft.ServiceFabric.Actors.Tests/Runtime/Volatile/VolatileActorStateTableTests.cs:234-305 | committing a number behind an outstanding one leaves the committed number and every read unchanged |
| StateTableSpec.AdvancePassesRun | test/unittests/Microsoft.ServiceFabric.Actors.Tests/Runtime/Volatile/VolatileActorStateTableTests.cs:234-305 | a run of committed numbers at the head is released as a whole |
| StateTableSpec.ClosingCommitPublishes | test/unittests/Microsoft.ServiceFabric.Actors.Tests/Runtime/Volatile/VolatileActorStateTableTests.cs:234-305 | committing the number that closes a gap releases every committed number behind it |
| StateTableSpec.ApplyPublishes | test/unittests/Microsoft.ServiceFabric.Actors.Tests/Runtime/Volatile/VolatileActorStateTableTests.cs:423-490 | apply makes a unit readable at once: committed and known numbers both become its number, and each key reads its last update, or nothing for a delete |
| StateTableSpec.AscendingTail | test/unittests/Microsoft.ServiceFabric.Actors.Tests/Runtime/Volatile/VolatileActorStateTableTests.cs:423-490 | the rest of an ascending batch is ascending above its first number |
| StateTableSpec.LastWrite | test/unittests/Microsoft.ServiceFabric.Actors.Tests/Runtime/Volatile/VolatileActorStateTableTests.cs:423-490 | the last write of a batch for a key targets that key |
| StateTableSpec.ApplyAll | test/unittests/Microsoft.ServiceFabric.Actors.Tests/Runtime/Volatile/VolatileActorStateTableTests.cs:423-490 | applying a batch leaves the highest known number at the batch's last number, and an empty batch changes nothing |
| StateTableSpec.ApplyAllPublishes | test/unittests/Microsoft.ServiceFabric.Actors.Tests/Runtime/Volatile/VolatileActorStateTableTests.cs:423-490 | applying an ascending batch ends with committed = known = the last number applied, and each key reads its last write in the batch |
| StateTableSpec.PrepareLeavesOtherKeys | test/unittests/Microsoft.ServiceFabric.Actors.Tests/Runtime/Volatile/VolatileActorStateTableTests.cs:1100-1227 | preparing leaves the chain of every key the unit does not touch unchanged |
| StateTableSpec.PrepareSingle | test/unittests/Microsoft.ServiceFabric.Actors.Tests/Runtime/Volatile/VolatileActorStateTableTests.cs:1100-1227 | a single-write unit extends only its key's chain and hides the write from reads |
| StateTableSpec.ChainEntriesGenuine | test/unittests/Microsoft.ServiceFabric.Actors.Tests/Runtime/Volatile/VolatileActorStateTableTests.cs:773-813 | every entry for one chain is a version of that chain at or below the ceiling, flagged committed exactly when it is at or below the floor |
| StateTableSpec.SnapshotEntriesGenuine | test/unittests/Microsoft.ServiceFabric.Actors.Tests/Runtime/Volatile/VolatileActorStateTableTests.cs:773-813 | every entry a bounded enumerator yields is a stored version at or below the ceiling, flagged committed exactly when at or below the committed number |
| StateTableSpec.TypeSnapshot | test/unittests/Microsoft.ServiceFabric.Actors.Tests/Runtime/Volatile/VolatileActorStateTableTests.cs:1229-1339 | the type-scoped enumerator yields only committed entries of that state type |
| StateTableSpec.ChainEntriesStable | test/unittests/Microsoft.ServiceFabric.Actors.Tests/Runtime/Volatile/VolatileActorStateTableTests.cs:773-813 | a chain's snapshot entries at a ceiling ignore later versions and any rise of the floor |
| StateTableSpec.SnapshotOfInsert | test/unittests/Microsoft.ServiceFabric.Actors.Tests/Runtime/Volatile/VolatileActorStateTableTests.cs:773-813 | covering one more key adds exactly that key's entries to a snapshot |
| StateTableSpec.SnapshotsAgree | test/unittests/Microsoft.ServiceFabric.Actors.Tests/Runtime/Volatile/VolatileActorStateTableTests.cs:773-813 | tables whose chains yield the same entries key by key have the same snapshot |
| StateTableSpec.SnapshotStableUnderPrepare | test/unittests/Microsoft.ServiceFabric.Actors.Tests/Runtime/Volatile/VolatileActorStateTableTests.cs:773-813 | preparing above the committed number leaves a snapshot bounded at or below it unchanged |
| StateTableSpec.SnapshotStableUnderCommit | test/unittests/Microsoft.ServiceFabric.Actors.Tests/Runtime/Volatile/VolatileActorStateTableTests.cs:773-813 | any commit leaves a snapshot bounded at or below the committed number unchanged |
| StateTableSpec.SnapshotBelowFloor | test/unittests/Microsoft.ServiceFabric.Actors.Tests/Runtime/Volatile/VolatileActorStateTableTests.cs:1229-1339 | a snapshot bounded at or below the committed number holds exactly the latest committed version of each key at or below the ceiling |
| VolatileActorStateTables.VolatileActorStateTable.constructor | test/unittests/Microsoft.ServiceFabric.Actors.Tests/Runtime/Volatile/VolatileActorStateTableTests.cs:151-160 | a new table is empty and valid |
| VolatileActorStateTables.VolatileActorStateTable.GetCommittedSequenceNumber | test/unittests/Microsoft.ServiceFabric.Actors.Tests/Runtime/Volatile/VolatileActorStateTableTests.cs:151-184 | the committed number lies between zero and the highest known number |
| VolatileActorStateTables.VolatileActorStateTable.GetHighestKnownSequenceNumber | test/unittests/Microsoft.ServiceFabric.Actors.Tests/Runtime/Volatile/VolatileActorStateTableTests.cs:151-184 | the highest known number is never below the committed number |
| VolatileActorStateTables.VolatileActorStateTable.PrepareUpdate | test/unittests/Microsoft.ServiceFabric.Actors.Tests/Runtime/Volatile/VolatileActorStateTableTests.cs:151-184 | the new state is the old state with the unit prepared |
| VolatileActorStateTables.VolatileActorStateTable.CommitUpdate | test/unittests/Microsoft.ServiceFabric.Actors.Tests/Runtime/Volatile/VolatileActorStateTableTests.cs:234-305 | the new state is the old state with the number committed and the floor released over the committed head of the pending list |
| VolatileActorStateTables.VolatileActorStateTable.ApplyUpdates | test/unittests/Microsoft.ServiceFabric.Actors.Tests/Runtime/Volatile/VolatileActorStateTableTests.cs:423-490 | the new state is the old state with the unit prepared and committed |
| VolatileActorStateTables.VolatileActorStateTable.ApplyBatch | test/unittests/Microsoft.ServiceFabric.Actors.Tests/Runtime/Volatile/VolatileActorStateTableTests.cs:423-490 | the new state is the old state with every unit of the batch applied in order |
| VolatileActorStateTables.VolatileActorStateTable.TryGetValue | test/unittests/Microsoft.ServiceFabric.Actors.Tests/Runtime/Volatile/VolatileActorStateTableTests.cs:151-184 | the value read is the latest version at or below the committed number, or nothing for a tombstone or a missing key |
| VolatileActorStateTables.VolatileActorStateTable.CopyChain | test/unittests/Microsoft.ServiceFabric.Actors.Tests/Runtime/Volatile/VolatileActorStateTableTests.cs:773-813 | one chain's entries are its latest committed version at or below the ceiling plus its uncommitted versions at or below it |
| VolatileActorStateTables.VolatileActorStateTable.CopyChains | test/unittests/Microsoft.ServiceFabric.Actors.Tests/Runtime/Volatile/VolatileActorStateTableTests.cs:773-813 | collecting chain by chain yields exactly the snapshot of the table state at the ceiling |
| VolatileActorStateTables.VolatileActorStateTable.GetShallowCopiesEnumerator | test/unittests/Microsoft.ServiceFabric.Actors.Tests/Runtime/Volatile/VolatileActorStateTableTests.cs:773-813 | the enumerator yields exactly the snapshot of the current state bounded by the ceiling |
| VolatileActorStateTables.VolatileActorStateTable.GetShallowCopiesEnumeratorForType | test/unittests/Microsoft.ServiceFabric.Actors.Tests/Runtime/Volatile/VolatileActorStateTableTests.cs:1229-1339 | the type-scoped enumerator yields exactly the committed entries of that state type |
| StateTableScenarios.Observe | test/unittests/Microsoft.ServiceFabric.Actors.Tests/Runtime/Volatile/VolatileActorStateTableTests.cs:151-184 | an observation is the read value together with the committed and highest known numbers |
| StateTableScenarios.Replicate | test/unittests/Microsoft.ServiceFabric.Actors.Tests/Runtime/Volatile/VolatileActorStateTableTests.cs:151-184 | prepare then commit on a fully committed table: before the commit the key reads its old value at the old committed number; afterwards it reads the update at the new one |
| StateTableScenarios.PrepareWrite | test/unittests/Microsoft.ServiceFabric.Actors.Tests/Runtime/Volatile/VolatileActorStateTableTests.cs:773-813 | preparing one write extends only that key's chain and leaves the committed number unchanged |
| StateTableScenarios.InOrderPrepareCommit | test/unittests/Microsoft.ServiceFabric.Actors.Tests/Runtime/Volatile/VolatileActorStateTableTests.cs:151-184 | in-order prepare and commit: each key is unreadable after prepare and readable after commit, with the numbers the test expects |
| StateTableScenarios.UpdateCommit | test/unittests/Microsoft.ServiceFabric.Actors.Tests/Runtime/Volatile/VolatileActorStateTableTests.cs:636-675 | an update of an existing key reads the old value until it commits and the new value afterwards |
| StateTableScenarios.CreateDeleteRecreate | test/unittests/Microsoft.ServiceFabric.Actors.Tests/Runtime/Volatile/VolatileActorStateTableTests.cs:1367-1481 | a committed delete makes a key unreadable and a later create makes it readable again |
| StateTableScenarios.DeleteMissingKey | test/unittests/Microsoft.ServiceFabric.Actors.Tests/Runtime/Volatile/VolatileActorStateTableTests.cs:1652-1784 | a delete of a key never written commits and leaves other keys readable |
| StateTableScenarios.WriteAllTypes | test/unittests/Microsoft.ServiceFabric.Actors.Tests/Runtime/Volatile/VolatileActorStateTableTests.cs:1100-1227 | the same key under the three state types holds three independent values |
| StateTableScenarios.DeleteAcrossTypes | test/unittests/Microsoft.ServiceFabric.Actors.Tests/Runtime/Volatile/VolatileActorStateTableTests.cs:1877-1959 | deleting the key under one state type leaves the other types' values readable |
| StateTableScenarios.PrepareG | test/unittests/Microsoft.ServiceFabric.Actors.Tests/Runtime/Volatile/VolatileActorStateTableTests.cs:234-305 | g prepared at 7 over a committed number of 6 |
| StateTableScenarios.PrepareGhi | test/unittests/Microsoft.ServiceFabric.Actors.Tests/Runtime/Volatile/VolatileActorStateTableTests.cs:234-305 | g, h and i prepared at 7, 8 and 9 over a committed number of 6 |
| StateTableScenarios.OutOfOrderCommits | test/unittests/Microsoft.ServiceFabric.Actors.Tests/Runtime/Volatile/VolatileActorStateTableTests.cs:234-305 | after committing 9 then 8, g, h and i stay unreadable at committed number 6; committing 7 makes all three readable at 9 |
| StateTableScenarios.CommitTwo | test/unittests/Microsoft.ServiceFabric.Actors.Tests/Runtime/Volatile/VolatileActorStateTableTests.cs:773-813 | two keys committed at 1 and 2 and nothing else in the table |
| StateTableScenarios.CommitFour | test/unittests/Microsoft.ServiceFabric.Actors.Tests/Runtime/Volatile/VolatileActorStateTableTests.cs:773-813 | four keys committed at 1 to 4 and nothing else in the table |
| StateTableScenarios.PrepareWY | test/unittests/Microsoft.ServiceFabric.Actors.Tests/Runtime/Volatile/VolatileActorStateTableTests.cs:773-813 | two keys updated and prepared at 5 and 6 above the committed number 4 |
| StateTableScenarios.PrepareA | test/unittests/Microsoft.ServiceFabric.Actors.Tests/Runtime/Volatile/VolatileActorStateTableTests.cs:773-813 | a further key prepared at 7 above the committed number 4 |
| StateTableScenarios.SnapshotFixture | test/unittests/Microsoft.ServiceFabric.Actors.Tests/Runtime/Volatile/VolatileActorStateTableTests.cs:773-813 | two more keys prepared at 8 and 9 above the committed number 4 |
| StateTableScenarios.SnapshotsOfFixture | test/unittests/Microsoft.ServiceFabric.Actors.Tests/Runtime/Volatile/VolatileActorStateTableTests.cs:773-813 | the snapshot bounded by 4 holds only entries committed at or below 4; the one bounded by the known number also holds the uncommitted versions |
| StateTableScenarios.CommitFiveToSeven | test/unittests/Microsoft.ServiceFabric.Actors.Tests/Runtime/Volatile/VolatileActorStateTableTests.cs:773-813 | committing 5, 6 and 7 in order raises the committed number to 7 and leaves the snapshot bounded by 4 as it was |
| StateTableScenarios.SnapshotIsolation | test/unittests/Microsoft.ServiceFabric.Actors.Tests/Runtime/Volatile/VolatileActorStateTableTests.cs:773-813 | a snapshot bounded by 4 is the same before and after later commits, while reads see the commits up to 7 and not the uncommitted 8 and 9 |
| TimeSpans.Subtract | src/Microsoft.ServiceFabric.Actors/Runtime/ActorReminderState.cs:48-51 | `TimeSpan` subtraction succeeds exactly when the difference fits in 64 bits, and is then the exact difference |
| TimeSpans.WholeMilliseconds | src/Microsoft.ServiceFabric.Actors/Runtime/ActorReminder.cs:76-83 | a `TimeSpan`'s whole milliseconds, truncated toward zero |
| ActorReminderStates.ElapsedTime | src/Microsoft.ServiceFabric.Actors/Runtime/ActorReminderState.cs:46-51 | elapsed time is max(0, current − start), and fails only when that overflows |
| ActorReminderStates.ComputeRemainingTime | src/Microsoft.ServiceFabric.Actors/Runtime/ActorReminderState.cs:41-68 | fails exactly when the elapsed time overflows; otherwise a negative due time gives the infinite value, and a non-negative one gives a result between zero and the due time |
| ActorReminderStates.NewActorReminderState | src/Microsoft.ServiceFabric.Actors/Runtime/ActorReminderState.cs:16-38 | with a completion record the remaining time runs from the completion time and the period, otherwise from the creation time and the due time; it equals the closed form, and name, due time, period and state pass through |
| ActorReminderStates.RemainingMatchesSpec | src/Microsoft.ServiceFabric.Actors/Runtime/ActorReminderState.cs:46-67 | the branching computation equals infinite for a negative due time, else max(0, due − max(0, current − start)) |
| ActorReminderStates.NotYetStarted | src/Microsoft.ServiceFabric.Actors/Runtime/ActorReminderState.cs:46-67 | before the clock passes the start, the result is the due time itself, or the infinite value for a negative one |
| ActorReminderStates.ElapsedPlusRemaining | src/Microsoft.ServiceFabric.Actors/Runtime/ActorReminderState.cs:60-67 | until the due time runs out, elapsed plus remaining equals the due time |
| ActorReminderStates.RemainingNeverGrows | src/Microsoft.ServiceFabric.Actors/Runtime/ActorReminderState.cs:46-67 | as the clock advances the remaining time never grows |
| ActorReminders.ValidateDueTime | src/Microsoft.ServiceFabric.Actors/Runtime/ActorReminder.cs:112-124 | a due time is rejected exactly when it is negative, naming the argument |
| ActorReminders.ValidatePeriod | src/Microsoft.ServiceFabric.Actors/Runtime/ActorReminder.cs:126-138 | a period is rejected exactly when it is below minus one millisecond, naming the argument |
| ActorReminders.ValidateArguments | src/Microsoft.ServiceFabric.Actors/Runtime/ActorReminder.cs:41-42 | the due time is checked before the period, and both pass exactly when neither is rejected |
| ActorReminders.TimerAccepts | src/Microsoft.ServiceFabric.Actors/Runtime/ActorReminder.cs:76-95 | the timer takes a due time exactly when it lies strictly between −2 ms and the largest supported timeout plus 1 ms, in ticks, which is the whole-millisecond range −1 to 0xFFFFFFFE |
| ActorReminders.PeriodBoundary | src/Microsoft.ServiceFabric.Actors/Runtime/ActorReminder.cs:112-138 | minus one millisecond and a zero due time pass, one tick less fails |
| ActorReminders.ActorReminder.constructor | src/Microsoft.ServiceFabric.Actors/Runtime/ActorReminder.cs:33-52 | the fields hold the arguments and the timer is a fresh disarmed one |
| ActorReminders.ActorReminder.Create | src/Microsoft.ServiceFabric.Actors/Runtime/ActorReminder.cs:33-52 | the reminder is rejected exactly when validation fails, before any field is set; otherwise it holds the arguments and a live timer |
| ActorReminders.ActorReminder.CreateFrom | src/Microsoft.ServiceFabric.Actors/Runtime/ActorReminder.cs:22-31 | the copying constructor takes name, state, due time and period from the given reminder, under the same validation |
| ActorReminders.ActorReminder.IsValid | src/Microsoft.ServiceFabric.Actors/Runtime/ActorReminder.cs:62-65 | a reminder is valid exactly while it holds a timer handle |
| ActorReminders.ActorReminder.CancelTimer | src/Microsoft.ServiceFabric.Actors/Runtime/ActorReminder.cs:62-74 | afterwards there is no timer and the reminder is not valid, whatever it was before |
| ActorReminders.ActorReminder.ArmTimer | src/Microsoft.ServiceFabric.Actors/Runtime/ActorReminder.cs:76-95 | a cancelled reminder ignores the call; a live timer is re-armed to fire once after the new due time, or is left unchanged with the failure traced |
| ActorReminders.ActorReminder.Dispose | src/Microsoft.ServiceFabric.Actors/Runtime/ActorReminder.cs:56-60 | disposal cancels the timer |
| ActorReminders.ActorReminder.DisposeCore | src/Microsoft.ServiceFabric.Actors/Runtime/ActorReminder.cs:97-105 | only an explicit disposal cancels the timer |
| ActorReminders.ActorReminder.Finalize | src/Microsoft.ServiceFabric.Actors/Runtime/ActorReminder.cs:140-143 | the finalizer leaves the timer as it is |
| ActorGarbageCollection.DefaultSettings | src/Microsoft.ServiceFabric.Actors/Runtime/ActorGarbageCollectionSettings.cs:66-76 | the defaults are a 60 s scan interval and a 3600 s idle timeout, which are admissible |
| ActorGarbageCollection.NewSettings | src/Microsoft.ServiceFabric.Actors/Runtime/ActorGarbageCollectionSettings.cs:32-54 | a non-positive idle timeout is rejected first, then a non-positive scan interval; with both positive the settings are accepted exactly when idle ≥ scan, and then hold the arguments |
| ActorGarbageCollection.RatioIsAtLeastOne | src/Microsoft.ServiceFabric.Actors/Runtime/ActorGarbageCollectionSettings.cs:45 | for positive operands the integer quotient is at least one exactly when idle ≥ scan |
| ActorGarbageCollection.AcceptedIsAdmissible | src/Microsoft.ServiceFabric.Actors/Runtime/ActorGarbageCollectionSettings.cs:45-48 | every accepted value has 0 < scan interval ≤ idle timeout |
| ActorGarbageCollection.AdmissibleIsAccepted | src/Microsoft.ServiceFabric.Actors/Runtime/ActorGarbageCollectionSettings.cs:32-54 | every admissible value passes validation and comes back unchanged |
| ActorGarbageCollection.CopySettings | src/Microsoft.ServiceFabric.Actors/Runtime/ActorGarbageCollectionSettings.cs:60-64 | the copy has both values of the original |
| DiagnosticsEvents.AsUnsigned | src/Microsoft.ServiceFabric.Actors/Diagnostics/DiagnosticsEventManager.cs:47 | a 64-bit key read as unsigned lies in [0, 2^64) |
| DiagnosticsEvents.GetInterfaceMethodKey | src/Microsoft.ServiceFabric.Actors/Diagnostics/DiagnosticsEventManager.cs:43-48 | the key is a signed 64-bit value whose upper 32 bits are the interface id and whose lower 32 bits are the method id |
| DiagnosticsEvents.KeyRoundTrip | src/Microsoft.ServiceFabric.Actors/Diagnostics/DiagnosticsEventManager.cs:43-48 | splitting a key gives back the interface and method ids |
| DiagnosticsEvents.KeyInjective | src/Microsoft.ServiceFabric.Actors/Diagnostics/DiagnosticsEventManager.cs:43-48 | different id pairs give different keys |
| DiagnosticsEvents.KeySurjective | src/Microsoft.ServiceFabric.Actors/Diagnostics/DiagnosticsEventManager.cs:43-48 | every signed 64-bit value is the key of the pair its halves form |
| DiagnosticsEvents.SubscriberView | src/Microsoft.ServiceFabric.Actors/Diagnostics/DiagnosticsEventManager.cs:229-242 | a subscriber that sums the pending-call deltas reported for an actor arrives at zero when no event reports for that actor |
| DiagnosticsEvents.SubscriberViewAppend | src/Microsoft.ServiceFabric.Actors/Diagnostics/DiagnosticsEventManager.cs:229-242 | an appended event adds its pending-call delta, if it has one for the actor, to what a subscriber has summed |
| DiagnosticsEvents.ReportView | src/Microsoft.ServiceFabric.Actors/Diagnostics/DiagnosticsEventManager.cs:229-242 | a report of the new count with delta = new − last reported brings a subscriber's sum to the new count |
| DiagnosticsEvents.DiagnosticsManagerActorContext.constructor | src/Microsoft.ServiceFabric.Actors/Diagnostics/DiagnosticsEventManager.cs:208-236 | a new actor's context has no pending calls, nothing reported and no stopwatches |
| DiagnosticsEvents.DiagnosticsEventManager.constructor | src/Microsoft.ServiceFabric.Actors/Diagnostics/DiagnosticsEventManager.cs:36-39 | a new manager has the given callbacks attached and has emitted nothing |
| DiagnosticsEvents.DiagnosticsEventManager.AcquireActorLockStart | src/Microsoft.ServiceFabric.Actors/Diagnostics/DiagnosticsEventManager.cs:208-215 | the pending-call count goes up by one and the start time is the clock reading |
| DiagnosticsEvents.DiagnosticsEventManager.AcquireActorLockFailed | src/Microsoft.ServiceFabric.Actors/Diagnostics/DiagnosticsEventManager.cs:217-220 | the pending-call count goes down by one, undoing the start |
| DiagnosticsEvents.DiagnosticsEventManager.AcquireActorLockFinish | src/Microsoft.ServiceFabric.Actors/Diagnostics/DiagnosticsEventManager.cs:222-245 | the count goes down by one, the last reported count becomes the count, and a subscriber's running sum of deltas stays equal to the reported count |
| DiagnosticsEvents.DiagnosticsEventManager.ActorMethodStart | src/Microsoft.ServiceFabric.Actors/Diagnostics/DiagnosticsEventManager.cs:110-130 | a restarted stopwatch is pushed on the actor's stack |
| DiagnosticsEvents.DiagnosticsEventManager.ActorMethodFinish | src/Microsoft.ServiceFabric.Actors/Diagnostics/DiagnosticsEventManager.cs:132-153 | the most recent stopwatch is popped and timed, so reentrant calls are timed last in, first out; an empty stack fails |
| DiagnosticsEvents.ReentrantTiming | src/Microsoft.ServiceFabric.Actors/Diagnostics/DiagnosticsEventManager.cs:127-138 | an inner call started at 25 and an outer one started at 10 are timed 15 and 60, leaving an empty stack |
| DiagnosticsEvents.LockBookkeeping | src/Microsoft.ServiceFabric.Actors/Diagnostics/DiagnosticsEventManager.cs:208-236 | two waiting calls, one failing and one acquiring, bring the count back to zero, with one report of delta 0 |
| EventSources.ToUInt32 | src/Microsoft.ServiceFabric.Actors/Diagnostics/EventSourceProvider.cs:81-82 | the `(uint)` cast keeps the low 32 bits |
| EventSources.MethodInfoFor | src/Microsoft.ServiceFabric.Actors/Diagnostics/EventSourceProvider.cs:73-77 | the stored name is the declaring type's name, a dot, and the method's name; the signature is the method's |
| EventSources.Entries | src/Microsoft.ServiceFabric.Actors/Diagnostics/EventSourceProvider.cs:70-84 | one (key, info) pair per description, in order, keyed by interface id and method id |
| EventSources.LastUnder | src/Microsoft.ServiceFabric.Actors/Diagnostics/EventSourceProvider.cs:83 | the last value assigned under a key, and none exactly when no pair assigns it |
| EventSources.StoreAll | src/Microsoft.ServiceFabric.Actors/Diagnostics/EventSourceProvider.cs:83 | indexer assignments keep the old keys and add every key assigned |
| EventSources.StoreAllAt | src/Microsoft.ServiceFabric.Actors/Diagnostics/EventSourceProvider.cs:83 | after indexer assignments a key is present exactly when it was before or is assigned, and holds the last value assigned |
| EventSources.AddMethodInfos | src/Microsoft.ServiceFabric.Actors/Diagnostics/EventSourceProvider.cs:66-85 | storing an interface's descriptions keeps the old keys and adds the key of every description |
| EventSources.AllMethodInfos | src/Microsoft.ServiceFabric.Actors/Diagnostics/EventSourceProvider.cs:50-64 | the table built from the listed interfaces holds the key of every method of every listed interface |
| EventSources.LastUnderUnshadowed | src/Microsoft.ServiceFabric.Actors/Diagnostics/EventSourceProvider.cs:83 | a pair that no later pair overwrites is the one that remains |
| EventSources.StoredUnderOwnKey | src/Microsoft.ServiceFabric.Actors/Diagnostics/EventSourceProvider.cs:79-83 | every description's info is found under its own key unless a later description has the same key |
| EventSources.UntouchedKey | src/Microsoft.ServiceFabric.Actors/Diagnostics/EventSourceProvider.cs:66-85 | a key no description maps to keeps what it held |
| EventSources.OnActorChangeRole | src/Microsoft.ServiceFabric.Actors/Diagnostics/EventSourceProvider.cs:93-103 | becoming primary is reported even from primary, leaving primary is reported otherwise, and anything else reports nothing |
| EventSources.EventSourceProvider.constructor | src/Microsoft.ServiceFabric.Actors/Diagnostics/EventSourceProvider.cs:50-52 | a new provider has an empty method-info table |
| EventSources.EventSourceProvider.AddInterfaceMethodInfos | src/Microsoft.ServiceFabric.Actors/Diagnostics/EventSourceProvider.cs:66-85 | the table is the given one with every description of the interface stored under its key, in order |
| EventSources.EventSourceProvider.InitializeActorMethodInfo | src/Microsoft.ServiceFabric.Actors/Diagnostics/EventSourceProvider.cs:50-64 | the table is replaced by a fresh one filled from every actor interface in turn |
| EventSources.EventSourceProvider.GetActorMethodInfo | src/Microsoft.ServiceFabric.Actors/Diagnostics/EventSourceProvider.cs:87-91 | the stored info for a known key; an unknown key fails |
| EventSources.LookupAfterInitialize | src/Microsoft.ServiceFabric.Actors/Diagnostics/EventSourceProvider.cs:50-91 | a registered method is found with its friendly name, and re-initialization drops the methods of interfaces no longer listed |
| MethodDescriptions.NonTokenArguments | src/Microsoft.ServiceFabric.Services.Remoting/Description/MethodDescription.cs:80-87 | the arguments are the non-token parameters, never more than the parameters |
| MethodDescriptions.FirstToken | src/Microsoft.ServiceFabric.Services.Remoting/Description/MethodDescription.cs:61-83 | the position of the first cancellation token, and none exactly when there is no token |
| MethodDescriptions.NoTokenKeepsAll | src/Microsoft.ServiceFabric.Services.Remoting/Description/MethodDescription.cs:80-87 | with no tokens every parameter becomes an argument, in order |
| MethodDescriptions.ArgumentCount | src/Microsoft.ServiceFabric.Services.Remoting/Description/MethodDescription.cs:58-94 | with well-placed tokens, \|arguments\| = \|parameters\| − (1 if the last parameter is a token, else 0) |
| MethodDescriptions.NewMethodDescription | src/Microsoft.ServiceFabric.Services.Remoting/Description/MethodDescription.cs:19-47 | with CRC ids the id is the CRC id and the V1 id the legacy one; without, the id is the legacy id and the V1 id stays unset; name and return type come from the method |
| MethodDescriptions.Create | src/Microsoft.ServiceFabric.Services.Remoting/Description/MethodDescription.cs:55-95 | fails exactly when a parameter follows a cancellation token, naming that parameter and "InterfaceType" after the interface kind; on success the arguments are the non-token parameters in order, and the token flag holds exactly when the last parameter is a token |
| ActorEventSubscriptions.SubscriptionInfo.constructor | src/Microsoft.ServiceFabric.Actors/Remoting/V1/Client/ActorEventSubscriberManager.cs:91-94 | a new subscription is active and has its subscriber and a new id |
| ActorEventSubscriptions.FirstFor | src/Microsoft.ServiceFabric.Actors/Remoting/V1/Client/ActorEventSubscriberManager.cs:74-85 | the first dispatcher offered for an interface id, and none exactly when none is |
| ActorEventSubscriptions.FirstForPrefix | src/Microsoft.ServiceFabric.Actors/Remoting/V1/Client/ActorEventSubscriberManager.cs:74-85 | extending the offered dispatchers keeps an earlier first |
| ActorEventSubscriptions.AddDispatchers | src/Microsoft.ServiceFabric.Actors/Remoting/V1/Client/ActorEventSubscriberManager.cs:74-85 | registration never replaces a dispatcher already held and leaves the id of every dispatcher offered registered |
| ActorEventSubscriptions.AddDispatchersAt | src/Microsoft.ServiceFabric.Actors/Remoting/V1/Client/ActorEventSubscriberManager.cs:74-85 | after registration an interface id keeps a dispatcher already registered, and otherwise gets the first one offered |
| ActorEventSubscriptions.ActorEventSubscriberManager.constructor | src/Microsoft.ServiceFabric.Actors/Remoting/V1/Client/ActorEventSubscriberManager.cs:17-35 | a new manager has three empty maps, which are in step |
| ActorEventSubscriptions.ActorEventSubscriberManager.RegisterEventDispatchers | src/Microsoft.ServiceFabric.Actors/Remoting/V1/Client/ActorEventSubscriberManager.cs:74-85 | a null sequence changes nothing; otherwise each dispatcher is added unless its interface id is present |
| ActorEventSubscriptions.ActorEventSubscriberManager.GetAndEnsureEventId | src/Microsoft.ServiceFabric.Actors/Remoting/V1/Client/ActorEventSubscriberManager.cs:115-127 | the interface's event id when a dispatcher serves it, else an argument error |
| ActorEventSubscriptions.ActorEventSubscriberManager.RegisterSubscriber | src/Microsoft.ServiceFabric.Actors/Remoting/V1/Client/ActorEventSubscriberManager.cs:87-96 | fails without change when no dispatcher serves the interface; a known subscriber gets its existing subscription with nothing changed; a new one gets a fresh active subscription, entered in both maps; the maps stay in step; afterwards every message for that interface carrying the subscription id is dispatched to the subscriber's instance |
| ActorEventSubscriptions.ActorEventSubscriberManager.TryUnregisterSubscriber | src/Microsoft.ServiceFabric.Actors/Remoting/V1/Client/ActorEventSubscriberManager.cs:98-113 | a registered subscriber is removed from both maps, marked inactive and reported true, and no later message carrying its subscription id is dispatched; an unknown one is reported false with nothing changed; no dispatcher is an argument error |
| ActorEventSubscriptions.ActorEventSubscriberManager.OneWayMessage | src/Microsoft.ServiceFabric.Actors/Remoting/V1/Client/ActorEventSubscriberManager.cs:37-71 | a message is dispatched exactly when its headers parse, a dispatcher serves its interface, its subscription is registered, and that subscription is to the same interface; the dispatch goes to that dispatcher and subscriber |
| ActorEventSubscriptions.DeliveredExactlyToRegistered | src/Microsoft.ServiceFabric.Actors/Remoting/V1/Client/ActorEventSubscriberManager.cs:37-71 | in a consistent manager a message is dispatched exactly when a dispatcher serves its interface and a subscriber registered for that interface holds its subscription id, and then it goes to that subscriber's instance |
| ActorEventSubscriptions.SubscriptionLifecycle | src/Microsoft.ServiceFabric.Actors/Remoting/V1/Client/ActorEventSubscriberManager.cs:74-113 | registering twice gives the same subscription; events reach it until it is unregistered; a second unregister reports false |
| ActorMethodDispatcherMaps.Ids | src/Microsoft.ServiceFabric.Actors/Remoting/V1/Runtime/ActorMethodDispatcherMap.cs:22-26 | the interface ids of the dispatchers offered |
| ActorMethodDispatcherMaps.DistinctSnoc | src/Microsoft.ServiceFabric.Actors/Remoting/V1/Runtime/ActorMethodDispatcherMap.cs:22-26 | adding one dispatcher keeps the ids distinct exactly when its id is new |
| ActorMethodDispatcherMaps.IndexSucceedsIffDistinct | src/Microsoft.ServiceFabric.Actors/Remoting/V1/Runtime/ActorMethodDispatcherMap.cs:18-27 | building the map succeeds exactly when no interface id repeats |
| ActorMethodDispatcherMaps.IndexKeys | src/Microsoft.ServiceFabric.Actors/Remoting/V1/Runtime/ActorMethodDispatcherMap.cs:18-27 | the keys of a built map are exactly the interface ids of the dispatchers |
| ActorMethodDispatcherMaps.IndexValues | src/Microsoft.ServiceFabric.Actors/Remoting/V1/Runtime/ActorMethodDispatcherMap.cs:18-27 | a built map holds every dispatcher under its own interface id |
| ActorMethodDispatcherMaps.IndexContents | src/Microsoft.ServiceFabric.Actors/Remoting/V1/Runtime/ActorMethodDispatcherMap.cs:18-27 | a built map holds each dispatcher under its own interface id and nothing else |
| ActorMethodDispatcherMaps.IndexFailureNamesRepeat | src/Microsoft.ServiceFabric.Actors/Remoting/V1/Runtime/ActorMethodDispatcherMap.cs:25 | a failed build names the first interface id that occurs a second time |
| ActorMethodDispatcherMaps.IndexFailurePersists | src/Microsoft.ServiceFabric.Actors/Remoting/V1/Runtime/ActorMethodDispatcherMap.cs:22-26 | once an `Add` has thrown, the rest of the interfaces do not change the outcome |
| ActorMethodDispatcherMaps.ActorMethodDispatcherMap.FromMap | src/Microsoft.ServiceFabric.Actors/Remoting/V1/Runtime/ActorMethodDispatcherMap.cs:16-20 | the map is fixed at construction |
| ActorMethodDispatcherMaps.ActorMethodDispatcherMap.Create | src/Microsoft.ServiceFabric.Actors/Remoting/V1/Runtime/ActorMethodDispatcherMap.cs:18-27 | the loop adds each dispatcher and fails on the first repeated id, with the same outcome as the indexing function |
| ActorMethodDispatcherMaps.ActorMethodDispatcherMap.GetDispatcher | src/Microsoft.ServiceFabric.Actors/Remoting/V1/Runtime/ActorMethodDispatcherMap.cs:29-42 | the mapped dispatcher for a known interface id whatever the method id; an unknown id is a key-not-found error |
| ActorMethodDispatcherMaps.LookupAfterCreate | src/Microsoft.ServiceFabric.Actors/Remoting/V1/Runtime/ActorMethodDispatcherMap.cs:18-42 | in a map built from distinct ids, a lookup succeeds exactly for those ids and returns the dispatcher supplied for it |
| ActorServiceRemotingDispatchers.HandleRequestResponse | src/Microsoft.ServiceFabric.Actors/Remoting/V2/Runtime/ActorServiceRemotingDispatcher.cs:56-80 | a null message or header is rejected by name; actor headers on the subscription interface go to subscription handling, other actor headers to actor dispatch, anything else to the service dispatcher |
| ActorServiceRemotingDispatchers.CreateActorHeader | src/Microsoft.ServiceFabric.Actors/Remoting/V2/Runtime/ActorServiceRemotingDispatcher.cs:189-218 | an unknown interface name or method name is not supported, with the source's messages; otherwise the actor id is copied, the ids are looked up, and a non-empty call context is kept, a generated one is used otherwise |
| ActorServiceRemotingDispatchers.HandleDispatchHeaders | src/Microsoft.ServiceFabric.Actors/Remoting/V2/Runtime/ActorServiceRemotingDispatcher.cs:91-108 | a service interface name goes to the service path without lookup; otherwise the created actor headers go to actor dispatch, or its error is raised |
| ActorServiceRemotingDispatchers.HandleSubscriptionRequests | src/Microsoft.ServiceFabric.Actors/Remoting/V2/Runtime/ActorServiceRemotingDispatcher.cs:220-268 | the subscribe id subscribes and the unsubscribe id unsubscribes, with the actor id and the body's interface and subscription ids; any other method id is a missing method |
| ActorServiceRemotingDispatchers.ServicePathIgnoresKnownTypes | src/Microsoft.ServiceFabric.Actors/Remoting/V2/Runtime/ActorServiceRemotingDispatcher.cs:97-103 | the service path does not depend on the known-interface table or the generated call context |
| ActorServiceRemotingDispatchers.ActorServiceRemotingDispatcher.constructor | src/Microsoft.ServiceFabric.Actors/Remoting/V2/Runtime/ActorServiceRemotingDispatcher.cs:37-47 | no diagnostics have been raised yet |
| ActorServiceRemotingDispatchers.ActorServiceRemotingDispatcher.HandleActorMethodDispatch | src/Microsoft.ServiceFabric.Actors/Remoting/V2/Runtime/ActorServiceRemotingDispatcher.cs:116-136 | the dispatch outcome, exception or not, is returned unchanged, and a finish event always follows the start event |
| ActorServiceRemotingDispatchers.ActorServiceRemotingDispatcher.HandleActorMessageDispatch | src/Microsoft.ServiceFabric.Actors/Remoting/V2/Runtime/ActorServiceRemotingDispatcher.cs:138-170 | a cancellation request gets no response and no diagnostics; otherwise start and finish bracket the dispatch and its outcome is returned |
| ServiceProxyFactories.ServiceProxyFactory.constructor | src/Microsoft.ServiceFabric.Services.Remoting/Client/ServiceProxyFactory.cs:31-39 | the default constructor leaves both stacks unset and the override off |
| ServiceProxyFactories.ServiceProxyFactory.WithV1 | src/Microsoft.ServiceFabric.Services.Remoting/Client/ServiceProxyFactory.cs:56-61 | the explicit V1 constructor sets only the V1 stack and leaves the override off |
| ServiceProxyFactories.ServiceProxyFactory.WithV2 | src/Microsoft.ServiceFabric.Services.Remoting/Client/ServiceProxyFactory.cs:76-82 | the explicit V2 constructor sets only the V2 stack and leaves the override off |
| ServiceProxyFactories.ServiceProxyFactory.CreateServiceProxy | src/Microsoft.ServiceFabric.Services.Remoting/Client/ServiceProxyFactory.cs:109-158 | with no stack, a V2 provider creates the V2 stack and turns the override on, and any other provider creates V1; an existing stack is kept; V1 serves with the listener name unchanged; V2 substitutes the default listener name for a missing one when the override is on |
| ServiceProxyFactories.ServiceProxyFactory.CreateNonIServiceProxy | src/Microsoft.ServiceFabric.Services.Remoting/Client/ServiceProxyFactory.cs:210-229 | always the V2 stack, created from the provider when absent, with the listener name unchanged and the override untouched |
| ServiceProxyFactories.ChoiceIsMadeOnce | src/Microsoft.ServiceFabric.Services.Remoting/Client/ServiceProxyFactory.cs:120-158 | after a V2 provider has chosen, a later request whose provider says V1 still gets the same V2 stack and the default listener name |
| ServiceProxyFactories.ExplicitV1Stack | src/Microsoft.ServiceFabric.Services.Remoting/Client/ServiceProxyFactory.cs:210-229 | an explicit V1 stack serves whatever the provider says, and a later non-service proxy builds V2 without the constructor's retry settings |
| RemotingVersions.Pow2 | src/Microsoft.ServiceFabric.Services.Remoting/Helper.cs:26-54 | powers of two are positive |
| RemotingVersions.ZeroHasNoBits | src/Microsoft.ServiceFabric.Services.Remoting/Helper.cs:26-54 | zero has no bit set |
| RemotingVersions.NonzeroHasBit | src/Microsoft.ServiceFabric.Services.Remoting/Helper.cs:26-54 | a positive value has some bit set |
| RemotingVersions.HasFlagIffBits | src/Microsoft.ServiceFabric.Services.Remoting/Helper.cs:26-54 | `HasFlag` holds exactly when every bit of the flag is set in the value |
| RemotingVersions.PowBits | src/Microsoft.ServiceFabric.Services.Remoting/Helper.cs:26-54 | a power of two has exactly one bit set |
| RemotingVersions.SingleBitFlag | src/Microsoft.ServiceFabric.Services.Remoting/Helper.cs:26-54 | a single-bit flag is present exactly when that bit is set |
| RemotingVersions.FlagHasItself | src/Microsoft.ServiceFabric.Services.Remoting/Helper.cs:26-54 | a flag value has its own flag |
| RemotingVersions.IsRemotingV1 | src/Microsoft.ServiceFabric.Services.Remoting/Helper.cs:46-54 | holds exactly when the version contains every bit of the V1 flag |
| RemotingVersions.IsRemotingV2 | src/Microsoft.ServiceFabric.Services.Remoting/Helper.cs:26-33 | holds exactly when the version contains every bit of the V2 flag |
| RemotingVersions.IsRemotingV2InterfaceCompatibleVersion | src/Microsoft.ServiceFabric.Services.Remoting/Helper.cs:35-43 | holds exactly when the version contains every bit of the interface-compatible V2 flag |
| RemotingVersions.IsEitherRemotingV2 | src/Microsoft.ServiceFabric.Services.Remoting/Helper.cs:16-24 | holds exactly when the version contains the V2 flag or the interface-compatible V2 flag |

## Left out

- VolatileActorStateTables.VolatileActorStateTable.PrepareUpdate, ApplyUpdates and ApplyBatch require sequence numbers above the highest known one (ascending, for a batch). The table treats a non-increasing number as a fatal caller error, so the model states it as a precondition and does not model that failure.
- VolatileActorStateTables.VolatileActorStateTable.GetShallowCopiesEnumerator and GetShallowCopiesEnumeratorForType return sets of entries. The enumerators' order is not modelled. Neither is their multiplicity: two identical updates of one key in one unit give one entry. The tests only count and look up entries.
- The state table's own implementation file is not part of this model. The table is specified here by what its tests assert.
- The blocking of out-of-order state-table commits on background tasks is not modelled. Only the sequential bookkeeping of the committed number is.
- The entry counts the tests check (the helper that verifies reads and the replication-unit builder are not part of this model) are not modelled, and neither are snapshot-scale timing tests.
- The secondary pump, the copy enumerator's batching by serialized size, and the state table's replication stream are out of scope: they are concurrency and serialization.
- ActorReminder: the framework timer is a handle holding its due time and period. Its range check is `ActorReminders.TimerAccepts`, the whole-millisecond range of `System.Threading.Timer`. Firing the reminder is not modelled.
- ActorReminders.ActorReminder.ArmTimer: the trace written on failure is reduced to the `traced` flag.
- Reminder validation messages: the resource message formatted from the minimum and maximum periods is not modelled; only the parameter name is.
- Clock readings (`DateTime.UtcNow`, stopwatch elapsed times) are parameters. Stopwatch pooling and the reuse of one event-args object per actor are not modelled.
- DiagnosticsEvents: `Interlocked` atomicity and 64-bit wrap-around of the pending-call counter are not modelled. The model is sequential over unbounded integers.
- DiagnosticsEvents: the other diagnostics hooks are not modelled (state save and load, activation, request processing durations). ETW event writing is not modelled either; only what a subscriber to the pending-call event sees is.
- EventSources: the id utility's method ids and the friendly-name builder's per-interface descriptions are inputs. A method's signature string is data.
- MethodDescriptions.Create: the per-argument validation of the argument-description factory is not part of this model.
- IdUtil ids (`ComputeId`, `ComputeIdWithCRC`) are given as fields of the method and interface data.
- ActorEventSubscriptions: GUIDs are numbers drawn from a counter. Header parsing and the subscription id an actor id carries are given as parsed data. Deserialization and the dispatch call are not modelled; any exception they throw is swallowed, so it has no effect on state.
- ActorEventSubscriptions: `SubscriptionInfo`'s source is not part of this model. A new subscription is taken to start active.
- ActorServiceRemotingDispatchers: the base class's cancellation-request test is an input. The actor manager's invoke, subscribe and unsubscribe calls are represented by what they are handed. The base service dispatcher's own routing is not modelled.
- ActorServiceRemotingDispatchers: the event-subscription interface id and method ids are inputs, as are the code builder's known-interface table and the generated call context. Null interface names and method names, which make the dictionary lookups throw, are not modelled.
- ServiceProxyFactories: the remoting provider attribute found for an interface and the default V2 listener name are inputs. Only the non-`DotNetCoreClr` build is modelled. The stacks' own proxy creation is represented by the proxy's arguments.
- RemotingVersions: the numeric values of the version enumerations are not part of this model; they are given as a table. The client and listener overloads share one definition.
- ActorIds: only string-kind actor ids are modelled; the long and GUID kinds are not.
- Runtime code generation, serialization, transports, async plumbing and the other files outside the modelled core are not part of this model.
