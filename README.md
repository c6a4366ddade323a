# Event store adapter: a verified model

This project models the core of `event-store-adapter-js`, an event-sourcing storage engine. Each aggregate is a user account in the example domain. Its history is a journal of events, and its state is kept as a snapshot with a version used for optimistic locking. The model has four parts.

- **Key resolution** (`DefaultKeyResolver`).
  - `HashString` is the source's loop, with JavaScript's 32-bit operators written out (`<<`, `&`, `>>>`). It is proved to compute the left fold `h' = (31 h + unit) mod 2^32` over the UTF-16 code units.
  - Partition keys are `user-account-<hash mod shardCount>`. Sort keys are `user-account-<value>-<sequence number>`.
  - The lemmas show the shard is in range, and that both keys separate what they should.
- **The in-memory store** (`MemoryStore`).
  - A class with the two maps as fields: events per aggregate and snapshot per aggregate.
  - Each method is proved against a step function on the maps' contents. That function has the source's error conditions, in the source's order.
  - Lemmas cover the optimistic lock, read-after-write, isolation between aggregates, and the invariant the writes keep.
- **The DynamoDB store** (`DynamoDBTables`, `DynamoDBStore`, `DynamoDBStoreProperties`).
  - The journal and snapshot tables are maps from `(pkey, skey)` to record.
  - `TransactWriteItems` checks every condition on the tables as they are, then applies every item, or none. A cancellation reports one reason per item.
  - Modelled operations: the request builders, the two write paths, the reads, the purge of excess snapshots, and the `withX` reconfigurations.
  - Lemmas state exactly when each write path commits, what it leaves in the tables, that a conflict is an `OptimisticLockError`, and what reading back gives.
- **The example domain** (`UserAccountIds`, `UserAccountEvents`, `UserAccounts`, `Repository`).
  - The account's immutable updates, its events and their JSON converters.
  - `replay` as a loop, proved against a fold.
  - The repository, whose `findById` is the latest snapshot with the later events replayed onto it.
  - The scenario of the repository's test is proved on the model with the in-memory store: create Alice, rename her to Bob, and find Bob at sequence number 2 and version 2. The same steps on the DynamoDB store are proved directly against the store (`DynamoDBRenameScenario`).

Modelling choices:

- **Type parameters.** The store's type parameters are instantiated with the example domain.
- **Payloads.** A serialized payload is modelled as the JSON value its bytes encode. That value is the `{type, data}` envelope the JSON serializers write.
- **Event times.** A freshly built event holds a `Date`, modelled as its time value in milliseconds (`Instant`). `JSON.stringify` writes a `Date` as its `toISOString()` string, and the converters copy that string back without parsing it. So a decoded event holds a string (`IsoText`). `IsoDates` models `toISOString` and proves that the string determines the time. Writing a decoded event again fails with a `TypeError`, because a string has no `getUTCMilliseconds` (`ReadBackEventIsRefused`).
- **Collaborators.** The key resolver, serializers, converters and logger are small classes with constant function fields. So, as in JavaScript, a store holds them by reference.
- **Parameters.**
  - The event ids (`ulid()`) and times (`new Date()`) that `create` and `rename` use are parameters.
  - So is the current time the purge reads.
  - So is a transport `fault` on each transaction.
- **Memory-store keys.** The memory store is keyed by the id string `id.asString()`. As written, the source reads `key.asString` without calling it (see Findings).
- **DynamoDB queries.** Each query is a method whose result is specified by predicates over the table: which items match, each once, in `seq_nr` order.

Two behaviours of the DynamoDB store are modelled as the code has them:

- **TTL of excess snapshots.** It is `moment().add(deleteTtl).seconds()`, the seconds component of the time (0 to 59). `TtlSecondsComponentIsInThePast` shows that such a TTL lies before the current time.
- **The hard-delete branch of the purge.** It is guarded by `deleteTtl` being set, but only runs when `deleteTtl` is unset, so it never deletes anything (`PurgeWithoutDeleteTtlChangesNothing`).

Neither is listed under Findings. The store only ever writes snapshots at `seq_nr = 0`, so neither behaviour can affect the tables it writes itself (`PurgeWithoutHistoryChangesNothing`).

## Model

| member | source | states |
|---|---|---|
| NumberFormat.NatToString | src/internal/default-key-resolver.ts:23 | `${n}` of a natural: at least one character, all decimal digits, a single digit exactly when `n < 10` |
| NumberFormat.IntToString | src/internal/default-key-resolver.ts:27 | `${i}` of an integer: a leading `-` exactly for negatives, digits otherwise |
| NumberFormat.NatToStringInjective | src/internal/default-key-resolver.ts:23 | two naturals print the same exactly when they are equal |
| NumberFormat.IntToStringInjective | src/internal/default-key-resolver.ts:27 | two integers print the same exactly when they are equal |
| IsoDates.DaysBetweenYears | src/internal/default-serializer.ts:23-26 | the days between two New Year's Days are at least 365 per year |
| IsoDates.YearOf | src/internal/default-serializer.ts:23-26 | a day count splits into a year and a day within that year, the two adding back up to the count |
| IsoDates.MonthsFillYear | src/internal/default-serializer.ts:23-26 | the twelve months together have the days of the year |
| IsoDates.MonthFrom | src/internal/default-serializer.ts:23-26 | a day of the year lies in exactly the month returned |
| IsoDates.ToDateTime | src/internal/default-serializer.ts:23-26 | the UTC date and time of a valid time value: year from 1970 and below 1000000, and month, day, hour, minute, second and millisecond in range |
| IsoDates.TimeOfToDateTime | src/internal/default-serializer.ts:23-26 | the date and time determine the time value they were computed from |
| IsoDates.PaddedValue | src/internal/default-serializer.ts:23-26 | a number with at most `width` digits reads back from its zero-padded digits |
| IsoDates.YearStringRead | src/internal/default-serializer.ts:23-26 | the year field (four digits, or `+` and six digits past 9999) reads back as the year |
| IsoDates.DatePartRead | src/internal/default-serializer.ts:23-26 | the `-MM-DD` field reads back as the month and day |
| IsoDates.TimePartRead | src/internal/default-serializer.ts:23-26 | the `THH:mm:ss.sssZ` field reads back as the hour, minute, second and millisecond |
| IsoDates.IsoString | src/internal/default-serializer.ts:23-26 | `toISOString` gives 24 characters, or 27 past year 9999, ending in `Z`, with `T` and `.` in their places |
| IsoDates.IsoStringRoundTrip | src/internal/default-serializer.ts:23-26 | reading the fields of the ISO string gives back the time value |
| IsoDates.IsoStringInjective | src/internal/default-serializer.ts:23-26 | two time values have the same ISO string exactly when they are equal |
| IsoDates.EpochIsoString | src/internal/default-serializer.ts:23-26 | time 0 is written `1970-01-01T00:00:00.000Z` |
| UserAccountIds.UserAccountId.AsString | src/internal/test/user-account-id.ts:7-9 | the id string is `user-account-` followed by the value |
| UserAccountIds.ConvertJsonToUserAccountId | src/internal/test/user-account-id.ts:13-15 | the rebuilt id has the JSON's value, and it is the id whose JSON was read |
| UserAccountIds.AsStringInjective | src/internal/test/user-account-id.ts:7-9 | two ids have the same string form exactly when they are equal |
| DefaultKeyResolver.CharCodeUnits | src/internal/default-key-resolver.ts:10 | a character is one or two UTF-16 code units, each below 2^16 |
| DefaultKeyResolver.CodeUnits | src/internal/default-key-resolver.ts:9-10 | a string has at least as many code units as characters |
| DefaultKeyResolver.HashOfUnits | src/internal/default-key-resolver.ts:8-14 | the left fold of `31 h + unit` stays in `[0, 2^32)` |
| DefaultKeyResolver.Hash | src/internal/default-key-resolver.ts:8-14 | the hash of a string lies in `[0, 2^32)`, and the empty string hashes to 0 |
| DefaultKeyResolver.ToInt32 | src/internal/default-key-resolver.ts:11-12 | the ECMAScript ToInt32 result is in the signed 32-bit range and congruent to its input mod 2^32 |
| DefaultKeyResolver.ToUint32 | src/internal/default-key-resolver.ts:14 | `x >>> 0` lies in `[0, 2^32)` |
| DefaultKeyResolver.StepCongruent | src/internal/default-key-resolver.ts:11-12 | `(hash << 5) - hash + char` followed by `& hash`, read unsigned, is `(31 hash + char) mod 2^32` |
| DefaultKeyResolver.HashString | src/internal/default-key-resolver.ts:4-15 | the loop of `hashString` returns exactly the fold `Hash` of the string |
| DefaultKeyResolver.CodeUnitsAppend | src/internal/default-key-resolver.ts:9-10 | the code units of a concatenation are the concatenated code units |
| DefaultKeyResolver.HashAppend | src/internal/default-key-resolver.ts:9-13 | appending one BMP character is one step of the recurrence |
| DefaultKeyResolver.Shard | src/internal/default-key-resolver.ts:22 | JavaScript's `hash % shardCount`: NaN exactly for a zero count, the Euclidean remainder for a positive count, and below the count's magnitude |
| DefaultKeyResolver.ResolvePartitionKey | src/internal/default-key-resolver.ts:17-24 | the key is the type name and `-`, followed by `NaN` for a zero shard count and otherwise by the hash modulo the count's magnitude. What that means is proved in `PartitionKeyNamesShard` and `SamePartitionIffSameShard` |
| DefaultKeyResolver.ResolveSortKey | src/internal/default-key-resolver.ts:26-28 | the key is the type name, `-`, the id value and `-`, followed by the printed sequence number. What that means is proved in `SortKeyInjective` and `SortKeyDeterminesIdAndSequence` |
| DefaultKeyResolver.PartitionKeyNamesShard | src/internal/default-key-resolver.ts:17-24 | for a count `n >= 1` the partition key is `user-account-` followed by a shard number below `n` |
| DefaultKeyResolver.SamePartitionIffSameShard | src/internal/default-key-resolver.ts:21-23 | two ids share a partition key exactly when their hashes agree mod the shard count |
| DefaultKeyResolver.SortKeyInjective | src/internal/default-key-resolver.ts:26-28 | for one id, two sequence numbers give the same sort key exactly when they are equal |
| DefaultKeyResolver.SortKeyDeterminesIdAndSequence | src/internal/default-key-resolver.ts:26-28 | for non-negative sequence numbers, equal sort keys mean the same id and sequence number, and conversely |
| UserAccountEvents.TimeToJson | src/internal/default-serializer.ts:23-26 | a `Date` is written as a string that reads back as its time value; a string is written as it is |
| UserAccountEvents.EventToJson | src/internal/default-serializer.ts:22-28 | the envelope's tag is the event's type name. The data holds every field of the event: the type name, `isCreated`, the id, the aggregate id's JSON (which converts back to that id), the name and the sequence number. A `Date` is written as its ISO string, and a string time as it is |
| UserAccountEvents.ConvertJsonToUserAccountEvent | src/internal/test/user-account-event.ts:35-56 | it succeeds exactly for the two known tags, giving the event of that tag with every data field copied and the id rebuilt; any other tag is `Unknown type: <tag>` |
| UserAccountEvents.ReadBack | src/internal/test/user-account-event.ts:35-53 | the event a converter builds from an event's JSON keeps its kind, id, aggregate id, name and sequence number. Its time is a string, which reads back as the original `Date`'s time value; an event whose time is already a string comes back unchanged |
| UserAccountEvents.EventJsonRoundTrip | src/internal/test/user-account-event.ts:35-53 | converting the envelope of an event gives `ReadBack` of the event. For an event holding a `Date`, that is not the event itself. Serializing it again gives the same JSON |
| UserAccounts.UserAccount.IncrementSequenceNumber | src/internal/test/user-account.ts:19-26 | the sequence number is one higher and nothing else changes |
| UserAccounts.UserAccount.WithVersion | src/internal/test/user-account.ts:28-30 | the version is the given one and nothing else changes |
| UserAccounts.UserAccount.UpdateVersion | src/internal/test/user-account.ts:32-39 | the version is `f(version)` and nothing else changes |
| UserAccounts.UserAccount.Rename | src/internal/test/user-account.ts:41-57 | the new name, the sequence number one higher, the same id and version; the rename event carries the new name and sequence number |
| UserAccounts.UserAccount.ApplyEvent | src/internal/test/user-account.ts:86-93 | it succeeds exactly on a rename event, renaming and advancing the sequence number; any other event is `Unknown event type` |
| UserAccounts.Create | src/internal/test/user-account.ts:59-73 | the new account is at sequence number 1 and version 1, and the creation event has the same id, name and sequence number |
| UserAccounts.ReplayFold | src/internal/test/user-account.ts:75-93 | replay succeeds exactly when every event is a rename; it then keeps id and version, raises the sequence number by the number of events, and ends with the last event's name (the snapshot itself for no events) |
| UserAccounts.Replay | src/internal/test/user-account.ts:75-84 | the loop of `replay` computes `ReplayFold` |
| UserAccounts.ReplayFoldAppend | src/internal/test/user-account.ts:79-83 | replaying one more event is replaying the prefix and then applying that event |
| UserAccounts.ReplayFoldWithVersion | src/internal/test/user-account.ts:79-93 | replay never reads the version: replaying onto the snapshot at another version gives the result at that version |
| UserAccounts.RenameEventReplays | src/internal/test/user-account.ts:86-89 | replaying the event `rename` emits onto the original account gives the renamed account |
| UserAccounts.ReplayRefusesCreation | src/internal/test/user-account.ts:86-93 | a history holding a creation event is refused with `Unknown event type` |
| UserAccounts.UpdateVersionIsWithVersion | src/internal/test/user-account.ts:28-39 | `updateVersion(f)` is `withVersion(f(version))` |
| UserAccounts.AccountToJson | src/internal/default-serializer.ts:45-51 | the snapshot envelope's tag is `UserAccount` |
| UserAccounts.ConvertJsonToUserAccount | src/internal/test/user-account.ts:97-105 | the account is rebuilt from the data's id, name, sequence number and version |
| UserAccounts.AccountJsonRoundTrip | src/internal/test/user-account.ts:97-105 | converting the envelope of an account gives the account back |
| MemoryStore.Rekey | src/internal/event-store-for-memory.ts:17-26 | the re-keyed map has a key for exactly the ids of the original, holding the same value |
| MemoryStore.PersistEventStep | src/internal/event-store-for-memory.ts:29-58 | the errors in source order: creation event, no snapshot, id mismatch, version mismatch, no event list. Otherwise the event is appended to its aggregate's list and the snapshot moves to `version + 1`; nothing else changes |
| MemoryStore.PersistEventAndSnapshotStep | src/internal/event-store-for-memory.ts:60-82 | an id mismatch fails first. A creation event needs no version check; any other event needs the stored (or else the given) snapshot's version to equal the aggregate's. On success the event is appended (to an empty list if none), and the stored snapshot's fields are kept at version 1, or one higher |
| MemoryStore.SinceSequenceNumberMembers | src/internal/event-store-for-memory.ts:93 | the filter keeps exactly the stored events whose sequence number is at least `n` |
| MemoryStore.SinceAppend | src/internal/event-store-for-memory.ts:93 | the filter distributes over concatenation, so it keeps the stored order |
| MemoryStore.QueryEventsSince | src/internal/event-store-for-memory.ts:84-94 | the read succeeds exactly when the aggregate has an event list; otherwise it fails with `events is undefined` |
| MemoryStore.QueryLatestSnapshot | src/internal/event-store-for-memory.ts:96-99 | the stored snapshot when there is one, and nothing otherwise |
| MemoryStore.InitialConsistent | src/internal/event-store-for-memory.ts:13-27 | initial maps whose snapshots sit under their own ids, each with an event list, give a consistent store |
| MemoryStore.PersistPreservesConsistent | src/internal/event-store-for-memory.ts:29-82 | both writes keep every snapshot under its own id's key with an event list beside it |
| MemoryStore.PersistEventOnConsistent | src/internal/event-store-for-memory.ts:29-58 | in a consistent store, `persistEvent` succeeds exactly for a non-creation event whose aggregate has a snapshot at the given version |
| MemoryStore.ReadAfterPersistEvent | src/internal/event-store-for-memory.ts:53-57 | after `persistEvent`, the read gives the old filtered history followed by the event (when it is recent enough), and the snapshot one version on |
| MemoryStore.PersistEventAtStaleVersionFails | src/internal/event-store-for-memory.ts:46-48 | a second event at the version just used is refused with `version mismatch` |
| MemoryStore.PersistSnapshotAtStaleVersionFails | src/internal/event-store-for-memory.ts:71-75 | the update path of `persistEventAndSnapshot` refuses an aggregate at the superseded version |
| MemoryStore.CreationStoresVersionOne | src/internal/event-store-for-memory.ts:67-81 | persisting a creation event always succeeds and leaves a snapshot at version 1 |
| MemoryStore.OtherAggregatesUnaffected | src/internal/event-store-for-memory.ts:53-57 | writes for one aggregate leave another aggregate's reads as they were |
| MemoryStore.EventStoreForMemory.constructor | src/internal/event-store-for-memory.ts:13-27 | the fields are the two initial maps re-keyed by id string |
| MemoryStore.EventStoreForMemory.PersistEvent | src/internal/event-store-for-memory.ts:29-58 | the outcome and the new maps are those of `PersistEventStep`; a failure leaves the maps unchanged |
| MemoryStore.EventStoreForMemory.PersistEventAndSnapshot | src/internal/event-store-for-memory.ts:60-82 | the outcome and the new maps are those of `PersistEventAndSnapshotStep`; a failure leaves the maps unchanged |
| MemoryStore.EventStoreForMemory.GetEventsByIdSinceSequenceNumber | src/internal/event-store-for-memory.ts:84-94 | the result is `QueryEventsSince` on the fields |
| MemoryStore.EventStoreForMemory.GetLatestSnapshotById | src/internal/event-store-for-memory.ts:96-99 | the result is `QueryLatestSnapshot` on the fields |
| MemoryStore.RenameScenarioReplaysRename | src/internal/event-store-for-memory.test.ts:55-85 | create Alice, persist the rename to Bob at version 1, then replay after the latest snapshot: Bob at sequence number 2 and version 2 |
| MemoryStore.MethodObjectKeyMixesAggregates | src/internal/event-store-for-memory.ts:33-34 | keyed as written, the two scenarios sharing one store replay to an account with id "1" in the second scenario |
| MemoryStore.StoreKeySeparatesAggregates | src/internal/event-store-for-memory.test.ts:35-88 | keyed by id string, the second scenario on the shared store finds its own account: id "2", Bob, 2, 2 |
| Repository.FindByIdOn | src/internal/test/user-account-repository.ts:23-33 | nothing exactly when no snapshot is stored; otherwise the replay onto the snapshot of the events from its sequence number + 1 on |
| Repository.ReplayOneMoreRename | src/internal/test/user-account.ts:79-83 | replaying a rename's event after a history gives the renamed account, at whatever version the snapshot is replayed |
| Repository.FindByIdOnStored | src/internal/test/user-account-repository.ts:23-33 | with a snapshot and an event list stored, `findById` is that replay's result or its error |
| Repository.FindByIdOnAppended | src/internal/test/user-account-repository.ts:28-32 | after one more recent event and a version change, `findById` replays that event too |
| Repository.FindByIdAfterRename | src/internal/test/user-account-repository.ts:23-33 | load, rename, `storeEvent` at the loaded version, load: the renamed account one version on |
| Repository.UserAccountRepository.constructor | src/internal/test/user-account-repository.ts:7-13 | the repository holds the given store |
| Repository.UserAccountRepository.StoreEvent | src/internal/test/user-account-repository.ts:15-17 | exactly the store's `persistEvent` with the same arguments |
| Repository.UserAccountRepository.StoreEventAndSnapshot | src/internal/test/user-account-repository.ts:19-21 | exactly the store's `persistEventAndSnapshot` with the same arguments |
| Repository.UserAccountRepository.FindById | src/internal/test/user-account-repository.ts:23-33 | the result is `FindByIdOn` of the store's contents |
| Repository.StoreAndFindFindsBob | src/internal/test/user-account-repository.test.ts:94-120 | on the in-memory store, for an id not yet stored: store Alice, store the rename at version 1, find Bob at sequence number 2 and version 2 |
| DynamoDBTables.CancellationReasons | src/internal/event-store-for-dynamodb.ts:341-343 | one reason per item, in order: `ConditionalCheckFailed` where the item's condition fails, `None` elsewhere |
| DynamoDBTables.TransactWrite | src/internal/event-store-for-dynamodb.ts:335-339 | the transaction commits exactly when every item is addressed, the targets are distinct and every condition holds, and then it applies all items. A failed condition cancels it, listing the reasons |
| DynamoDBTables.CancelledExactlyOnFailedCondition | src/internal/event-store-for-dynamodb.ts:341-343 | a cancellation carrying `ConditionalCheckFailed` occurs exactly when some condition fails |
| DynamoDBTables.TransactTwo | src/internal/event-store-for-dynamodb.ts:327-334 | a two-item transaction, spelled out: its addressing, distinctness, conditions, and the two items applied in order |
| DynamoDBTables.InsertByRank | src/internal/event-store-for-dynamodb.ts:570 | insertion keeps the keys as a multiset plus the new one, and keeps them ordered |
| DynamoDBTables.SortKeys | src/internal/event-store-for-dynamodb.ts:85-87 | the query result order: each key of the set exactly once, in rank order |
| DynamoDBTables.LimitThenFilter | src/internal/event-store-for-dynamodb.ts:564-583 | at most `limit` keys, all from the first `limit`, all with `ttl = 0` when the filter is on |
| DynamoDBTables.SetTtl | src/internal/event-store-for-dynamodb.ts:615-633 | the same keys; exactly the listed items have the new TTL, and the rest are unchanged |
| DynamoDBTables.DynamoDBClient.TransactWriteItems | src/internal/event-store-for-dynamodb.ts:338-339 | a fault fails and changes nothing; otherwise the tables become the committed transaction's result, or stay as they were |
| DynamoDBTables.DynamoDBClient.QueryJournal | src/internal/event-store-for-dynamodb.ts:72-87 | the journal items of the aid with `seq_nr >= from`: each once, ascending by `seq_nr` |
| DynamoDBTables.DynamoDBClient.QueryLatestSnapshot | src/internal/event-store-for-dynamodb.ts:115-131 | a snapshot item of the aid at `seq_nr = 0` if any exists, and none only when none exists |
| DynamoDBTables.DynamoDBClient.CountSnapshots | src/internal/event-store-for-dynamodb.ts:537-552 | the number of snapshot items of the aid |
| DynamoDBTables.DynamoDBClient.QueryHistoricalSnapshotKeys | src/internal/event-store-for-dynamodb.ts:555-586 | the aid's items above `seq_nr = 0`, newest first, limited and then filtered |
| DynamoDBTables.DynamoDBClient.UpdateTtl | src/internal/event-store-for-dynamodb.ts:616-632 | the TTL of that one item is set; nothing else changes |
| DynamoDBTables.DynamoDBClient.BatchDelete | src/internal/event-store-for-dynamodb.ts:664-672 | the listed snapshot items are removed; nothing else changes |
| DynamoDBStore.NewDefaultKeyResolver | src/internal/event-store-for-dynamodb.ts:50 | the default resolver's two functions are `resolvePartitionKey` and `resolveSortKey` |
| DynamoDBStore.NewJsonEventSerializer | src/internal/default-serializer.ts:9-29 | it writes the event envelope, with a `Date` as its ISO string, and hands the parsed value to the converter |
| DynamoDBStore.NewJsonSnapshotSerializer | src/internal/default-serializer.ts:31-52 | it writes the account envelope and hands the parsed value to the converter |
| DynamoDBStore.JsonSerializersRoundTrip | src/internal/default-serializer.ts:16-28 | with the domain's converters, deserializing a serialized event gives its `ReadBack`, with the time as a string, and deserializing a serialized aggregate gives the aggregate back |
| DynamoDBStore.UtcMilliseconds | src/internal/event-store-for-dynamodb.ts:410 | `getUTCMilliseconds()` is below 1000 and congruent to the time mod 1000 |
| DynamoDBStore.TtlSecondsComponent | src/internal/event-store-for-dynamodb.ts:614-627 | the TTL written is a seconds component, below 60 |
| DynamoDBStore.TtlSecondsComponentIsInThePast | src/internal/event-store-for-dynamodb.ts:614-627 | once the clock is past the first minute of the epoch, that TTL lies before now |
| DynamoDBStore.TranslateTransactionError | src/internal/event-store-for-dynamodb.ts:340-348 | an `OptimisticLockError` exactly for a cancellation with some `ConditionalCheckFailed` reason; any other error is rethrown unchanged |
| DynamoDBStore.SendTransaction | src/internal/event-store-for-dynamodb.ts:338-348 | a fault is translated; otherwise it succeeds exactly when DynamoDB commits, and then with all items applied |
| DynamoDBStore.FailedConditionIsOptimisticLock | src/internal/event-store-for-dynamodb.ts:376-387 | for addressed, distinct items, sending fails exactly when a condition fails, and then with an `OptimisticLockError` carrying the reasons |
| DynamoDBStore.ExpectedVersionAsWritten | src/internal/event-store-for-dynamodb.ts:183-187 | as written, the expected version is the aggregate's sequence number |
| DynamoDBStore.ExpectedVersion | src/internal/event-store-for-dynamodb.ts:183-187 | corrected: the expected version is the aggregate's version |
| DynamoDBStore.EventStoreForDynamoDB.WithDeleteTtl | src/internal/event-store-for-dynamodb.ts:197-214 | the same store with only `deleteTtl` set |
| DynamoDBStore.EventStoreForDynamoDB.WithEventSerializer | src/internal/event-store-for-dynamodb.ts:216-235 | the same store with only the event serializer replaced |
| DynamoDBStore.EventStoreForDynamoDB.WithKeepSnapshotCount | src/internal/event-store-for-dynamodb.ts:237-256 | the same store with only `keepSnapshotCount` set |
| DynamoDBStore.EventStoreForDynamoDB.WithKeyResolver | src/internal/event-store-for-dynamodb.ts:258-277 | the same store with only the key resolver replaced |
| DynamoDBStore.EventStoreForDynamoDB.WithSnapshotSerializer | src/internal/event-store-for-dynamodb.ts:279-298 | the same store with only the snapshot serializer replaced |
| DynamoDBStore.EventStoreForDynamoDB.WithLogger | src/internal/event-store-for-dynamodb.ts:300-317 | the same store with only the logger set |
| DynamoDBStore.EventStoreForDynamoDB.PutJournalItem | src/internal/event-store-for-dynamodb.ts:391-417 | a guarded put on the journal, at the resolver's key for the event's sequence number, with aid, `seq_nr` and millisecond `occurred_at`. With the JSON serializers its payload decodes to `ReadBack` of the event |
| DynamoDBStore.EventStoreForDynamoDB.PutSnapshotItem | src/internal/event-store-for-dynamodb.ts:419-454 | a guarded put on the snapshot table at the given sequence number, with version 1 and TTL 0; with round-tripping serializers it decodes to the aggregate at version 1 |
| DynamoDBStore.EventStoreForDynamoDB.UpdateSnapshotItem | src/internal/event-store-for-dynamodb.ts:456-524 | an update guarded by `version = before`, setting `before + 1` and `last_updated_at`; payload and `seq_nr` are replaced exactly when an aggregate is given |
| DynamoDBStore.EventStoreForDynamoDB.DecodeEvent | src/internal/event-store-for-dynamodb.ts:92-97 | an item without payload is `Payload is undefined`; otherwise the serializer's result through the converter |
| DynamoDBStore.EventStoreForDynamoDB.DecodeEvents | src/internal/event-store-for-dynamodb.ts:89-99 | it succeeds exactly when every item decodes, giving the events in item order; otherwise it fails with the first failing item's error |
| DynamoDBStore.EventStoreForDynamoDB.DecodeSnapshot | src/internal/event-store-for-dynamodb.ts:132-152 | no item gives none; a missing version or payload is an error; otherwise the decoded aggregate at the stored version |
| DynamoDBStore.EventStoreForDynamoDB.CreateTransaction | src/internal/event-store-for-dynamodb.ts:319-351 | an event whose time is a string fails with the `TypeError` of `getUTCMilliseconds`, before anything is sent; otherwise the snapshot and journal puts are sent as one transaction |
| DynamoDBStore.EventStoreForDynamoDB.UpdateTransaction | src/internal/event-store-for-dynamodb.ts:353-389 | the same `TypeError` for a string time; otherwise the version-checked update and the journal put are sent as one transaction |
| DynamoDBStore.EventStoreForDynamoDB.PersistEventTransaction | src/internal/event-store-for-dynamodb.ts:155-167 | a creation event is refused before any write; otherwise the version-checked update plus journal put is sent |
| DynamoDBStore.EventStoreForDynamoDB.PersistEventAndSnapshotWith | src/internal/event-store-for-dynamodb.ts:169-195 | an id mismatch is refused before any write; a creation event sends the two puts; any other sends the update with the aggregate at the expected version |
| DynamoDBStore.EventStoreForDynamoDB.GetEventsByIdSinceSequenceNumber | src/internal/event-store-for-dynamodb.ts:62-106 | the aggregate's journal items with `seq_nr >= n`, ascending and decoded; a missing table is the client's error |
| DynamoDBStore.EventStoreForDynamoDB.GetLatestSnapshotById | src/internal/event-store-for-dynamodb.ts:108-153 | none exactly when there is no `seq_nr = 0` item of the aggregate; otherwise that item decoded |
| DynamoDBStore.EventStoreForDynamoDB.CreateEventAndSnapshot | src/internal/event-store-for-dynamodb.ts:319-351 | the outcome is `CreateTransaction`'s: the tables become the committed transaction's result; on failure, including the `TypeError` of a string time, they are unchanged |
| DynamoDBStore.EventStoreForDynamoDB.UpdateEventAndSnapshotOpt | src/internal/event-store-for-dynamodb.ts:353-389 | the outcome is `UpdateTransaction`'s: the tables become the committed transaction's result; on failure, including the `TypeError` of a string time, they are unchanged |
| DynamoDBStore.EventStoreForDynamoDB.GetSnapshotCount | src/internal/event-store-for-dynamodb.ts:536-553 | the count of the aggregate's snapshot items |
| DynamoDBStore.EventStoreForDynamoDB.GetLastSnapshotKeys | src/internal/event-store-for-dynamodb.ts:555-599 | the newest `limit` historical keys, filtered by `ttl = 0` when `deleteTtl` is set; none when that is empty |
| DynamoDBStore.EventStoreForDynamoDB.UpdateTtlOfExcessSnapshots | src/internal/event-store-for-dynamodb.ts:601-638 | it does nothing unless both options are set. Then, with `excess = count - 1 - keepSnapshotCount > 0`, the newest `excess` historical snapshots without a TTL get one; otherwise nothing changes |
| DynamoDBStore.EventStoreForDynamoDB.SendTtlUpdates | src/internal/event-store-for-dynamodb.ts:614-634 | after the sequence of `UpdateItem` calls, exactly the listed items carry the TTL |
| DynamoDBStore.EventStoreForDynamoDB.DeleteExcessSnapshots | src/internal/event-store-for-dynamodb.ts:640-676 | under the same guard and arithmetic, the same excess snapshots are deleted |
| DynamoDBStore.EventStoreForDynamoDB.TryPurgeExcessSnapshots | src/internal/event-store-for-dynamodb.ts:526-534 | on the store's own table it succeeds, and it changes at most the TTLs of the aggregate's historical snapshots |
| DynamoDBStore.EventStoreForDynamoDB.PersistEvent | src/internal/event-store-for-dynamodb.ts:155-167 | a failure (creation event or transaction) changes nothing; a commit is followed by a purge |
| DynamoDBStore.EventStoreForDynamoDB.PersistEventAndSnapshot | src/internal/event-store-for-dynamodb.ts:169-195 | a failure changes nothing; the create path commits without a purge; the update path commits, at the aggregate's version, and then purges |
| DynamoDBStore.MarkingIsPurge | src/internal/event-store-for-dynamodb.ts:601-638 | what the TTL update leaves is an allowed purge result |
| DynamoDBStore.TtlOnHistoricalOnly | src/internal/event-store-for-dynamodb.ts:564-583 | every key the TTL update marks is a historical snapshot of the aggregate |
| DynamoDBStoreProperties.ReconfigurationCommutes | src/internal/event-store-for-dynamodb.ts:197-317 | the options are independent of each other, and the last setting wins |
| DynamoDBStoreProperties.LoggerDoesNotChangeRequests | src/internal/event-store-for-dynamodb.ts:300-317 | setting a logger changes no request and no outcome of `CreateTransaction` or `UpdateTransaction` |
| DynamoDBStoreProperties.ReadBackEventIsRefused | src/internal/event-store-for-dynamodb.ts:319-410 | an event read back from the store, whose time is a string, cannot be persisted again: both write paths fail with the `TypeError` of `getUTCMilliseconds` |
| DynamoDBStoreProperties.CreateCommitsIffKeysFree | src/internal/event-store-for-dynamodb.ts:319-351 | the create path commits exactly when neither the snapshot key at 0 nor the event's journal key exists, and then adds both records; a conflict is an `OptimisticLockError` |
| DynamoDBStoreProperties.UpdateCommitsIffVersionMatches | src/internal/event-store-for-dynamodb.ts:353-389 | the update path commits exactly when the snapshot at 0 exists at the expected version and the journal key is free. It then sets the next version and adds the event, replacing payload and `seq_nr` only with an aggregate; a conflict is an `OptimisticLockError` |
| DynamoDBStoreProperties.PersistKeepsOnlyLatestSnapshots | src/internal/event-store-for-dynamodb.ts:319-389 | both persist paths keep every snapshot item at `seq_nr = 0` |
| DynamoDBStoreProperties.PurgeWithoutHistoryChangesNothing | src/internal/event-store-for-dynamodb.ts:526-638 | on tables with only latest snapshots, the purge changes nothing |
| DynamoDBStoreProperties.PurgeWithoutDeleteTtlChangesNothing | src/internal/event-store-for-dynamodb.ts:526-676 | with `deleteTtl` unset, the hard-delete branch changes nothing |
| DynamoDBStoreProperties.ReadBackAfterCreate | src/internal/event-store-for-dynamodb.test.ts:95-113 | after the create path on untouched tables, the latest snapshot is the one at key 0 and decodes to the aggregate at version 1, and the journal read from the event's sequence number is `ReadBack` of the event alone |
| DynamoDBStoreProperties.CreatedThenRenamed | src/internal/event-store-for-dynamodb.ts:169-189 | after create and `rename`, the snapshot at 0 has version 1 and the renamed account has sequence number 2 and version 1 |
| DynamoDBStoreProperties.AsWrittenRenameSnapshotLocksOut | src/internal/event-store-for-dynamodb.ts:183-187 | as written, `persistEventAndSnapshot` of the renamed account after a create fails with an `OptimisticLockError` |
| DynamoDBStoreProperties.RenameSnapshotCommits | src/internal/event-store-for-dynamodb.ts:183-187 | corrected, the same call commits, and the snapshot reads back as the renamed account at version 2 |
| DynamoDBStoreProperties.AliceRenamedToBob | src/internal/event-store-for-dynamodb.test.ts:115-126 | after creating Alice and the rename at version 1, the only latest snapshot is at key 0 with version 2 and Alice's payload, and the only journal item from 2 on is the rename |
| DynamoDBStoreProperties.DynamoDBRenameScenario | src/internal/event-store-for-dynamodb.test.ts:115-148 | the latest snapshot decodes to Alice at sequence number 1 and version 2, the events after it are the read-back rename alone, and replaying them gives Bob at sequence number 2 and version 2 |

## Left out

- AWS SDK plumbing: the `send` calls, the command objects and the `{S}/{N}/{B}` attribute wrappers. Index names are not modelled: queries select by `aid` directly.
- Query pagination, the 1 MB page limit and the 25-item limit of `BatchWriteItem`: the model returns every match in one page.
- Failures of the network or the service on reads and purge requests. Only the transactions take a `fault` parameter; reads fail only for a missing table. `Count` is therefore always defined, and the `snapshotCount === undefined` branch is not modelled.
- `pkey or skey is undefined` in `getLastSnapshotKeys`: every item in the model has both keys.
- The journal and snapshot tables are assumed to be two distinct tables.
- `Promise.all` in the TTL update is modelled as a sequential loop. An `UpdateItem` on a key deleted in the meantime is skipped rather than creating an item.
- The text and byte encoding of payloads (`TextEncoder`, `JSON.stringify`): a payload is the JSON value it encodes.
- Logger output, and `src/internal/logger-factory.ts`.
- `ulid()`, `new Date()` and `moment()`: the ids and times are parameters.
- The null and undefined checks of `DefaultKeyResolver`: the model's types have no null id or string.
- Generic type parameters: they are instantiated with the example domain.
- `MemoryStore.EventStoreForMemory.PersistEvent`: does not model that `push` mutates, in place, the array the caller handed to the constructor. Event lists are values, so that aliasing is not visible.
- `MemoryStore.EventStoreForMemory.PersistEventAndSnapshot`: does not model that `push` (lines 76-77) appends the event, in place, to the array the caller handed to the constructor. Event lists are values, so that aliasing is not visible.
- `Repository.UserAccountRepository.constructor`: takes the in-memory store only, where the source accepts any `EventStore`. The repository is modelled over the in-memory store only.
- `Repository.StoreAndFindFindsBob`: proves on the in-memory store the scenario that the repository's test runs on the DynamoDB store. That DynamoDB run corresponds to `DynamoDBRenameScenario`, which calls the store directly rather than through the repository.
- `NumberFormat.NatToString`, `NumberFormat.IntToString`: model `${n}` on unbounded integers. JavaScript numbers are doubles, which print in exponent form from 1e21 and lose precision above 2^53. So these functions, and `NatToStringInjective`, `IntToStringInjective` and `SortKeyInjective`, match the source only below those bounds.
- `DynamoDBStore.EventStoreForDynamoDB.WithDeleteTtl`: `deleteTtl` is a `moment.Duration`, modelled as a whole number of milliseconds.
- `IsoDates.TimeValue`: invalid `Date`s and times before 1970 are not modelled. `toISOString` throws a `RangeError` on an invalid `Date`.
- `UserAccountEvents.ConvertJsonToUserAccountEvent`: the `occurredAt` of a decoded event is the string the converter copies, modelled as `IsoText`. A string that is not an ISO date is not distinguished.
- `MemoryStore.EventStoreForMemory.GetEventsByIdSinceSequenceNumber`: follows the code, which throws `events is undefined` for an unknown id, rather than returning an empty list.
- `DynamoDBStore.UtcMilliseconds`: follows the code, so `occurred_at` and `last_updated_at` hold only the millisecond component of the time.
- `DynamoDBStore.TtlSecondsComponent`: follows the code, so the TTL is only the seconds component of `now + deleteTtl`.
- Async scheduling: every operation runs to completion before the next. Races between concurrent writers are decided by DynamoDB's conditions, which the model has.
- `src/types.ts`, `src/event-store.ts` and the options and async interfaces: they hold no behaviour.

## Findings

| source | as written | input that shows it | evidently intended | confidence | as-written member | corrected member |
|---|---|---|---|---|---|---|
| src/internal/event-store-for-memory.ts:33 | the maps are keyed by `key.asString`, the method object, which is one and the same object for every id | the two scenarios of `event-store-for-memory.test.ts` share one store: ids "1" and "2" land under the same key, and the second replay returns an account with id "1" | key by `id.asString()`, the id string | not executed | MemoryStore.MethodObjectKeyMixesAggregates | MemoryStore.StoreKeySeparatesAggregates |
| src/internal/event-store-for-dynamodb.ts:185 | `persistEventAndSnapshot` passes `aggregate.sequenceNumber` as the expected snapshot version | create Alice with `persistEventAndSnapshot`, rename her, then `persistEventAndSnapshot(renamed, renamedAccount)`: it expects version 2, finds 1, and throws `OptimisticLockError` | pass `aggregate.version`, as the in-memory store compares it (`event-store-for-memory.ts:73`) | not executed | DynamoDBStoreProperties.AsWrittenRenameSnapshotLocksOut | DynamoDBStoreProperties.RenameSnapshotCommits |
