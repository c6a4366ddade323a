/** The DynamoDB event store: the requests it builds, the transactions it sends,
    how it reads events and snapshots back, and the purge of excess snapshots. */
module DynamoDBStore {
  import opened Types
  import opened UserAccountIds
  import opened UserAccountEvents
  import opened UserAccounts
  import opened IsoDates
  import opened DynamoDBTables
  import DefaultKeyResolver

  /** A key resolver: the partition key of an aggregate and the sort key of one
      of its records. */
  class KeyResolver {
    const resolvePartitionKey: (UserAccountId, int) -> string
    const resolveSortKey: (UserAccountId, int) -> string

    constructor(resolvePartitionKey: (UserAccountId, int) -> string, resolveSortKey: (UserAccountId, int) -> string)
      ensures this.resolvePartitionKey == resolvePartitionKey && this.resolveSortKey == resolveSortKey
    {
      this.resolvePartitionKey := resolvePartitionKey;
      this.resolveSortKey := resolveSortKey;
    }
  }

  /** The function that rebuilds an event from its decoded JSON. */
  class EventConverter {
    const convert: EventJson -> Result<UserAccountEvent, Error>

    constructor(convert: EventJson -> Result<UserAccountEvent, Error>)
      ensures this.convert == convert
    {
      this.convert := convert;
    }
  }

  /** The function that rebuilds an aggregate from its decoded JSON. */
  class SnapshotConverter {
    const convert: AccountJson -> UserAccount

    constructor(convert: AccountJson -> UserAccount)
      ensures this.convert == convert
    {
      this.convert := convert;
    }
  }

  /** An event serializer. A payload is modelled as the JSON value its bytes
      encode; `deserialize` hands the decoded value to a converter. */
  class EventSerializer {
    const serialize: UserAccountEvent -> EventJson
    const deserialize: (EventJson, EventJson -> Result<UserAccountEvent, Error>) -> Result<UserAccountEvent, Error>

    constructor(serialize: UserAccountEvent -> EventJson,
                deserialize: (EventJson, EventJson -> Result<UserAccountEvent, Error>) -> Result<UserAccountEvent, Error>)
      ensures this.serialize == serialize && this.deserialize == deserialize
    {
      this.serialize := serialize;
      this.deserialize := deserialize;
    }
  }

  /** A snapshot serializer, in the same terms. */
  class SnapshotSerializer {
    const serialize: UserAccount -> AccountJson
    const deserialize: (AccountJson, AccountJson -> UserAccount) -> UserAccount

    constructor(serialize: UserAccount -> AccountJson, deserialize: (AccountJson, AccountJson -> UserAccount) -> UserAccount)
      ensures this.serialize == serialize && this.deserialize == deserialize
    {
      this.serialize := serialize;
      this.deserialize := deserialize;
    }
  }

  /** A logger; the store only writes debug lines to it. */
  class Logger {
    constructor() {}
  }

  /** `new DefaultKeyResolver()`. */
  method NewDefaultKeyResolver() returns (k: KeyResolver)
    ensures fresh(k)
    ensures k.resolvePartitionKey == DefaultKeyResolver.ResolvePartitionKey
    ensures k.resolveSortKey == DefaultKeyResolver.ResolveSortKey
  {
    k := new KeyResolver(DefaultKeyResolver.ResolvePartitionKey, DefaultKeyResolver.ResolveSortKey);
  }

  /** `new JsonEventSerializer()`: the `{type, data}` envelope, handed to the converter as parsed. */
  method NewJsonEventSerializer() returns (s: EventSerializer)
    ensures fresh(s)
    ensures s.serialize == EventToJson
    ensures forall p, c :: s.deserialize(p, c) == c(p)
  {
    s := new EventSerializer(EventToJson, (p: EventJson, c: EventJson -> Result<UserAccountEvent, Error>) => c(p));
  }

  /** `new JsonSnapshotSerializer()`. */
  method NewJsonSnapshotSerializer() returns (s: SnapshotSerializer)
    ensures fresh(s)
    ensures s.serialize == AccountToJson
    ensures forall p, c :: s.deserialize(p, c) == c(p)
  {
    s := new SnapshotSerializer(AccountToJson, (p: AccountJson, c: AccountJson -> UserAccount) => c(p));
  }

  /** Deserializing what the serializer wrote, through the converter, gives the event
      back as JSON does: with its time as the ISO string that was written. */
  ghost predicate EventsReadBack(serializer: EventSerializer, converter: EventConverter) {
    forall e :: serializer.deserialize(serializer.serialize(e), converter.convert) == Success(ReadBack(e))
  }

  ghost predicate SnapshotsRoundTrip(serializer: SnapshotSerializer, converter: SnapshotConverter) {
    forall a :: serializer.deserialize(serializer.serialize(a), converter.convert) == a
  }

  /** The JSON serializers with the example domain's converters read an event back
      with its time as a string, and an aggregate back unchanged. */
  lemma JsonSerializersRoundTrip(es: EventSerializer, ec: EventConverter, ss: SnapshotSerializer, sc: SnapshotConverter)
    requires es.serialize == EventToJson && forall p, c :: es.deserialize(p, c) == c(p)
    requires ec.convert == ConvertJsonToUserAccountEvent
    requires ss.serialize == AccountToJson && forall p, c :: ss.deserialize(p, c) == c(p)
    requires sc.convert == ConvertJsonToUserAccount
    ensures EventsReadBack(es, ec) && SnapshotsRoundTrip(ss, sc)
  {
    forall e ensures es.deserialize(es.serialize(e), ec.convert) == Success(ReadBack(e)) {
      EventJsonRoundTrip(e);
    }
    forall a ensures ss.deserialize(ss.serialize(a), sc.convert) == a {
      AccountJsonRoundTrip(a);
    }
  }

  // ----- clock values -----

  /** `occurredAt.getUTCMilliseconds()`: the millisecond component of the time,
      which is what `occurred_at` and `last_updated_at` receive. */
  function UtcMilliseconds(t: nat): (ms: nat)
    ensures ms < 1000 && (t - ms) % 1000 == 0
  {
    t % 1000
  }

  /** `moment().add(deleteTtl).seconds()`: the seconds component (0..59) of the
      time `deleteTtl` milliseconds after `now`, as the source computes the TTL. */
  function TtlSecondsComponent(now: nat, deleteTtl: int): (s: nat)
    ensures s < 60
  {
    ((now + deleteTtl) / 1000) % 60
  }

  /** The TTL as written is a second of the first minute of 1970: once the clock is
      past that minute it lies before `now`, whatever `deleteTtl` says, so DynamoDB
      treats a marked snapshot as already expired. */
  lemma TtlSecondsComponentIsInThePast(now: nat, deleteTtl: int)
    requires now >= 60_000
    ensures TtlSecondsComponent(now, deleteTtl) < now / 1000
  {
  }

  /** What `occurredAt.getUTCMilliseconds()` throws when `occurredAt` is the string a
      decoded event holds rather than a `Date`. */
  const NOT_A_DATE: Error := TypeError("event.occurredAt.getUTCMilliseconds is not a function")

  // ----- the error a failed transaction becomes -----

  /** The `catch` of both transactions: a cancellation with some
      `ConditionalCheckFailed` reason becomes an optimistic-lock error; any other
      client error is rethrown. */
  function TranslateTransactionError(e: ClientError): (r: Error)
    ensures r.OptimisticLockError? <==> e.TransactionCanceledException? && CONDITIONAL_CHECK_FAILED in e.cancellationReasons
    ensures r.OptimisticLockError? ==> r == OptimisticLockError("Optimistic locking failed", e)
    ensures !r.OptimisticLockError? ==> r == ClientFailure(e)
  {
    if e.TransactionCanceledException? && CONDITIONAL_CHECK_FAILED in e.cancellationReasons then
      OptimisticLockError("Optimistic locking failed", e)
    else ClientFailure(e)
  }

  /** Sending a transaction: a transport `fault`, or what DynamoDB decides, with
      failures translated. */
  function SendTransaction(t: Tables, items: seq<TransactItem>, fault: Option<ClientError>): (r: Result<Tables, Error>)
    ensures fault.Some? ==> r == Failure(TranslateTransactionError(fault.value))
    ensures fault.None? ==> (r.Success? <==> TransactWrite(t, items).Success?)
    ensures fault.None? && r.Success? ==> r.value == ApplyAll(t, items)
  {
    if fault.Some? then Failure(TranslateTransactionError(fault.value))
    else match TransactWrite(t, items)
      case Success(t') => Success(t')
      case Failure(e) => Failure(TranslateTransactionError(e))
  }

  /** A transaction whose items are addressed and distinct fails with an
      optimistic-lock error exactly when some item's condition fails. */
  lemma FailedConditionIsOptimisticLock(t: Tables, items: seq<TransactItem>)
    requires AllAddressed(t, items) && DistinctTargets(items)
    ensures SendTransaction(t, items, None).Failure? <==> !AllConditionsHold(t, items)
    ensures !AllConditionsHold(t, items) ==>
      SendTransaction(t, items, None) == Failure(OptimisticLockError("Optimistic locking failed",
        TransactionCanceledException(CancellationReasons(t, items))))
  {
    CancelledExactlyOnFailedCondition(t, items);
  }

  // ----- the expected version of persistEventAndSnapshot's update -----

  /** As written: the update path of `persistEventAndSnapshot` expects the stored
      snapshot's version to equal the aggregate's sequence number. */
  function ExpectedVersionAsWritten(aggregate: UserAccount): (v: int)
    ensures v == aggregate.sequenceNumber
  {
    aggregate.sequenceNumber
  }

  /** The evidently intended expected version: the version the aggregate was read
      at, as the in-memory store and `persistEvent`'s callers use it. */
  function ExpectedVersion(aggregate: UserAccount): (v: int)
    ensures v == aggregate.version
  {
    aggregate.version
  }

  /** The store. Every `withX` builds a new store that differs in that field. */
  datatype EventStoreForDynamoDB = EventStoreForDynamoDB(
    client: DynamoDBClient,
    journalTableName: string, snapshotTableName: string,
    journalAidIndexName: string, snapshotAidIndexName: string,
    shardCount: int,
    eventConverter: EventConverter, snapshotConverter: SnapshotConverter,
    keepSnapshotCount: Option<int>, deleteTtl: Option<int>,
    keyResolver: KeyResolver, eventSerializer: EventSerializer, snapshotSerializer: SnapshotSerializer,
    logger: Option<Logger>)
  {
    // ----- configuration -----

    function WithDeleteTtl(deleteTtl: int): (s: EventStoreForDynamoDB)
      ensures s == this.(deleteTtl := Some(deleteTtl))
    {
      EventStoreForDynamoDB(client, journalTableName, snapshotTableName, journalAidIndexName, snapshotAidIndexName,
        shardCount, eventConverter, snapshotConverter, keepSnapshotCount, Some(deleteTtl), keyResolver,
        eventSerializer, snapshotSerializer, logger)
    }

    function WithEventSerializer(eventSerializer: EventSerializer): (s: EventStoreForDynamoDB)
      ensures s == this.(eventSerializer := eventSerializer)
    {
      EventStoreForDynamoDB(client, journalTableName, snapshotTableName, journalAidIndexName, snapshotAidIndexName,
        shardCount, eventConverter, snapshotConverter, keepSnapshotCount, deleteTtl, keyResolver,
        eventSerializer, snapshotSerializer, logger)
    }

    function WithKeepSnapshotCount(keepSnapshotCount: int): (s: EventStoreForDynamoDB)
      ensures s == this.(keepSnapshotCount := Some(keepSnapshotCount))
    {
      EventStoreForDynamoDB(client, journalTableName, snapshotTableName, journalAidIndexName, snapshotAidIndexName,
        shardCount, eventConverter, snapshotConverter, Some(keepSnapshotCount), deleteTtl, keyResolver,
        eventSerializer, snapshotSerializer, logger)
    }

    function WithKeyResolver(keyResolver: KeyResolver): (s: EventStoreForDynamoDB)
      ensures s == this.(keyResolver := keyResolver)
    {
      EventStoreForDynamoDB(client, journalTableName, snapshotTableName, journalAidIndexName, snapshotAidIndexName,
        shardCount, eventConverter, snapshotConverter, keepSnapshotCount, deleteTtl, keyResolver,
        eventSerializer, snapshotSerializer, logger)
    }

    function WithSnapshotSerializer(snapshotSerializer: SnapshotSerializer): (s: EventStoreForDynamoDB)
      ensures s == this.(snapshotSerializer := snapshotSerializer)
    {
      EventStoreForDynamoDB(client, journalTableName, snapshotTableName, journalAidIndexName, snapshotAidIndexName,
        shardCount, eventConverter, snapshotConverter, keepSnapshotCount, deleteTtl, keyResolver,
        eventSerializer, snapshotSerializer, logger)
    }

    function WithLogger(logger: Logger): (s: EventStoreForDynamoDB)
      ensures s == this.(logger := Some(logger))
    {
      EventStoreForDynamoDB(client, journalTableName, snapshotTableName, journalAidIndexName, snapshotAidIndexName,
        shardCount, eventConverter, snapshotConverter, keepSnapshotCount, deleteTtl, keyResolver,
        eventSerializer, snapshotSerializer, Some(logger))
    }

    // ----- keys and requests -----

    /** The key of an aggregate's record at a sequence number. */
    function RecordKey(id: UserAccountId, sequenceNumber: int): Key {
      Key(keyResolver.resolvePartitionKey(id, shardCount), keyResolver.resolveSortKey(id, sequenceNumber))
    }

    /** `putJournal`: the event at its own sequence number, keyed by the resolver,
        guarded so that it never overwrites. */
    function PutJournalItem(event: UserAccountEvent): (item: TransactItem)
      requires event.occurredAt.Instant?
      ensures item.PutJournal? && item.tableName == journalTableName
      ensures item.key == RecordKey(event.aggregateId, event.sequenceNumber)
      ensures item.journalRecord.aid == event.aggregateId.AsString()
      ensures item.journalRecord.seqNr == event.sequenceNumber
      ensures item.journalRecord.occurredAt < 1000
      ensures EventsReadBack(eventSerializer, eventConverter) ==> DecodeEvent(item.journalRecord) == Success(ReadBack(event))
    {
      PutJournal(journalTableName, RecordKey(event.aggregateId, event.sequenceNumber),
        JournalRecord(event.aggregateId.AsString(), event.sequenceNumber,
          Some(eventSerializer.serialize(event)), UtcMilliseconds(event.occurredAt.millis)))
    }

    /** `putSnapshot`: the aggregate at `sequenceNumber`, at version 1 and no TTL,
        guarded so that it never overwrites. */
    function PutSnapshotItem(event: UserAccountEvent, sequenceNumber: int, aggregate: UserAccount): (item: TransactItem)
      requires event.occurredAt.Instant?
      ensures item.PutSnapshot? && item.tableName == snapshotTableName
      ensures item.key == RecordKey(event.aggregateId, sequenceNumber)
      ensures item.snapshotRecord.aid == event.aggregateId.AsString() && item.snapshotRecord.seqNr == sequenceNumber
      ensures item.snapshotRecord.version == Some(1) && item.snapshotRecord.ttl == 0
      ensures SnapshotsRoundTrip(snapshotSerializer, snapshotConverter) ==>
        DecodeSnapshot(Some(item.snapshotRecord)) == Success(Some(aggregate.WithVersion(1)))
    {
      PutSnapshot(snapshotTableName, RecordKey(event.aggregateId, sequenceNumber),
        SnapshotRecord(event.aggregateId.AsString(), sequenceNumber, Some(snapshotSerializer.serialize(aggregate)),
          Some(1), 0, UtcMilliseconds(event.occurredAt.millis)))
    }

    /** `updateSnapshot`: guarded by the expected `version`, it moves the version one
        on; given an aggregate it also replaces the payload and `seq_nr`. */
    function UpdateSnapshotItem(event: UserAccountEvent, sequenceNumber: int, version: int, aggregate: Option<UserAccount>): (item: TransactItem)
      requires event.occurredAt.Instant?
      ensures item.UpdateSnapshot? && item.tableName == snapshotTableName
      ensures item.key == RecordKey(event.aggregateId, sequenceNumber)
      ensures item.beforeVersion == version && item.afterVersion == version + 1
      ensures item.lastUpdatedAt < 1000
      ensures item.replacement.None? <==> aggregate.None?
      ensures aggregate.Some? ==> item.replacement == Some((snapshotSerializer.serialize(aggregate.value), sequenceNumber))
    {
      UpdateSnapshot(snapshotTableName, RecordKey(event.aggregateId, sequenceNumber), version, version + 1,
        UtcMilliseconds(event.occurredAt.millis),
        if aggregate.None? then None else Some((snapshotSerializer.serialize(aggregate.value), sequenceNumber)))
    }

    /** `createEventAndSnapshot`'s transaction: the snapshot at sequence number 0, then the event. */
    function CreateItems(event: UserAccountEvent, aggregate: UserAccount): seq<TransactItem>
      requires event.occurredAt.Instant?
    {
      [PutSnapshotItem(event, 0, aggregate), PutJournalItem(event)]
    }

    /** `updateEventAndSnapshotOpt`'s transaction: the snapshot at sequence number 0, then the event. */
    function UpdateItems(event: UserAccountEvent, version: int, aggregate: Option<UserAccount>): seq<TransactItem>
      requires event.occurredAt.Instant?
    {
      [UpdateSnapshotItem(event, 0, version, aggregate), PutJournalItem(event)]
    }

    /** `createEventAndSnapshot`: building the items throws for an event whose time
        is not a `Date`, before anything is sent; otherwise the transaction is sent. */
    function CreateTransaction(t: Tables, event: UserAccountEvent, aggregate: UserAccount, fault: Option<ClientError>): (r: Result<Tables, Error>)
      ensures event.occurredAt.IsoText? ==> r == Failure(NOT_A_DATE)
      ensures event.occurredAt.Instant? ==> r == SendTransaction(t, CreateItems(event, aggregate), fault)
    {
      if event.occurredAt.IsoText? then Failure(NOT_A_DATE) else SendTransaction(t, CreateItems(event, aggregate), fault)
    }

    /** `updateEventAndSnapshotOpt`, in the same terms. */
    function UpdateTransaction(t: Tables, event: UserAccountEvent, version: int, aggregate: Option<UserAccount>, fault: Option<ClientError>): (r: Result<Tables, Error>)
      ensures event.occurredAt.IsoText? ==> r == Failure(NOT_A_DATE)
      ensures event.occurredAt.Instant? ==> r == SendTransaction(t, UpdateItems(event, version, aggregate), fault)
    {
      if event.occurredAt.IsoText? then Failure(NOT_A_DATE) else SendTransaction(t, UpdateItems(event, version, aggregate), fault)
    }

    // ----- decoding -----

    /** One journal item back to its event; an item without payload is an error. */
    function DecodeEvent(record: JournalRecord): (r: Result<UserAccountEvent, Error>)
      ensures record.payload.None? ==> r == Failure(Error("Payload is undefined"))
      ensures record.payload.Some? ==> r == eventSerializer.deserialize(record.payload.value, eventConverter.convert)
    {
      if record.payload.None? then Failure(Error("Payload is undefined"))
      else eventSerializer.deserialize(record.payload.value, eventConverter.convert)
    }

    /** Items back to events in order; the first item that fails decides the error. */
    function DecodeEvents(records: seq<JournalRecord>): (r: Result<seq<UserAccountEvent>, Error>)
      ensures r.Success? <==> forall i :: 0 <= i < |records| ==> DecodeEvent(records[i]).Success?
      ensures r.Success? ==>
        && |r.value| == |records|
        && forall i :: 0 <= i < |records| ==> DecodeEvent(records[i]) == Success(r.value[i])
      ensures r.Failure? ==>
        exists i :: 0 <= i < |records| && DecodeEvent(records[i]) == Failure(r.error)
          && forall j :: 0 <= j < i ==> DecodeEvent(records[j]).Success?
      decreases |records|
    {
      if records == [] then Success([])
      else
        var first := DecodeEvent(records[0]);
        if first.Failure? then Failure(first.error)
        else
          var rest := DecodeEvents(records[1..]);
          assert forall i :: 0 < i < |records| ==> records[i] == records[1..][i - 1];
          if rest.Failure? then
            var i :| 0 <= i < |records[1..]| && DecodeEvent(records[1..][i]) == Failure(rest.error) &&
              forall j :: 0 <= j < i ==> DecodeEvent(records[1..][j]).Success?;
            assert DecodeEvent(records[i + 1]) == Failure(rest.error);
            Failure(rest.error)
          else Success([first.value] + rest.value)
    }

    /** The latest snapshot item back to the aggregate at the item's version. */
    function DecodeSnapshot(record: Option<SnapshotRecord>): (r: Result<Option<UserAccount>, Error>)
      ensures record.None? ==> r == Success(None)
      ensures record.Some? && record.value.version.None? ==> r == Failure(Error("Version is undefined"))
      ensures record.Some? && record.value.version.Some? && record.value.payload.None? ==> r == Failure(Error("Payload is undefined"))
      ensures record.Some? && record.value.version.Some? && record.value.payload.Some? ==>
        r == Success(Some(snapshotSerializer.deserialize(record.value.payload.value, snapshotConverter.convert)
                           .WithVersion(record.value.version.value)))
    {
      if record.None? then Success(None)
      else if record.value.version.None? then Failure(Error("Version is undefined"))
      else if record.value.payload.None? then Failure(Error("Payload is undefined"))
      else Success(Some(snapshotSerializer.deserialize(record.value.payload.value, snapshotConverter.convert)
                         .WithVersion(record.value.version.value)))
    }

    // ----- what the persist operations decide -----

    /** `persistEvent` up to the purge: a creation event is refused; otherwise the
        snapshot's version is checked against `version` and moved on, and the event
        is added. */
    function PersistEventTransaction(t: Tables, event: UserAccountEvent, version: int, fault: Option<ClientError>): (r: Result<Tables, Error>)
      ensures event.isCreated ==> r == Failure(Error("Cannot persist created event"))
      ensures !event.isCreated ==> r == UpdateTransaction(t, event, version, None, fault)
    {
      if event.isCreated then Failure(Error("Cannot persist created event"))
      else UpdateTransaction(t, event, version, None, fault)
    }

    /** `persistEventAndSnapshot` up to the purge: the ids must agree; a creation
        event puts the snapshot and the event; any other event updates the snapshot,
        payload included, at the version the aggregate was read at (`expected`). */
    function PersistEventAndSnapshotWith(expected: UserAccount -> int, t: Tables, event: UserAccountEvent, aggregate: UserAccount, fault: Option<ClientError>): (r: Result<Tables, Error>)
      ensures event.aggregateId.AsString() != aggregate.id.AsString() ==>
        r == Failure(Error("aggregateId mismatch: expected " + event.aggregateId.AsString() + ", got " + aggregate.id.AsString()))
      ensures event.aggregateId.AsString() == aggregate.id.AsString() && event.isCreated ==>
        r == CreateTransaction(t, event, aggregate, fault)
      ensures event.aggregateId.AsString() == aggregate.id.AsString() && !event.isCreated ==>
        r == UpdateTransaction(t, event, expected(aggregate), Some(aggregate), fault)
    {
      if event.aggregateId.AsString() != aggregate.id.AsString() then
        Failure(Error("aggregateId mismatch: expected " + event.aggregateId.AsString() + ", got " + aggregate.id.AsString()))
      else if event.isCreated then CreateTransaction(t, event, aggregate, fault)
      else UpdateTransaction(t, event, expected(aggregate), Some(aggregate), fault)
    }

    // ----- the purge -----

    /** The TTL the purge writes. */
    function PurgeTtl(now: nat): int
      requires deleteTtl.Some?
    {
      TtlSecondsComponent(now, deleteTtl.value)
    }

    /** What a purge may do: with both `keepSnapshotCount` and `deleteTtl`
        configured, set the TTL of some of the aggregate's snapshots above sequence
        number 0; otherwise nothing. The journal is never touched. */
    ghost predicate PurgedFrom(before: Tables, after: Tables, aid: string, now: nat) {
      if keepSnapshotCount.None? || deleteTtl.None? then after == before
      else
        && after == before.(snapshot := after.snapshot)
        && after.snapshot.Keys == before.snapshot.Keys
        && forall k :: k in before.snapshot ==>
             after.snapshot[k] == before.snapshot[k]
             || (k in HistoricalSnapshots(before.snapshot, aid) && after.snapshot[k] == before.snapshot[k].(ttl := PurgeTtl(now)))
    }

    // ----- operations -----

    /** `getEventsByIdSinceSequenceNumber`: the aggregate's journal items from
        `sequenceNumber` on, in ascending order, decoded. */
    method GetEventsByIdSinceSequenceNumber(id: UserAccountId, sequenceNumber: int)
      returns (r: Result<seq<UserAccountEvent>, Error>, ghost keys: seq<Key>)
      ensures journalTableName != client.tables.journalName ==> r == Failure(ClientFailure(ServiceException("ResourceNotFoundException")))
      ensures journalTableName == client.tables.journalName ==>
        && (forall i :: 0 <= i < |keys| ==> keys[i] in client.tables.journal)
        && JournalQueryKeys(client.tables.journal, id.AsString(), sequenceNumber, keys)
        && r == DecodeEvents(JournalRecordsAt(client.tables.journal, keys))
    {
      var q;
      q, keys := client.QueryJournal(journalTableName, id.AsString(), sequenceNumber);
      if q.Failure? {
        return Failure(ClientFailure(q.error)), keys;
      }
      r := DecodeEvents(q.value);
    }

    /** `getLatestSnapshotById`: the aggregate's snapshot item at sequence number 0,
        decoded at its stored version, or none. */
    method GetLatestSnapshotById(id: UserAccountId) returns (r: Result<Option<UserAccount>, Error>, ghost key: Option<Key>)
      ensures snapshotTableName != client.tables.snapshotName ==> r == Failure(ClientFailure(ServiceException("ResourceNotFoundException")))
      ensures snapshotTableName == client.tables.snapshotName ==>
        && (key.None? <==> forall k :: !IsLatestSnapshot(client.tables.snapshot, id.AsString(), k))
        && (key.Some? ==> IsLatestSnapshot(client.tables.snapshot, id.AsString(), key.value)
                          && r == DecodeSnapshot(Some(client.tables.snapshot[key.value])))
        && (key.None? ==> r == Success(None))
    {
      var q;
      q, key := client.QueryLatestSnapshot(snapshotTableName, id.AsString());
      if q.Failure? {
        return Failure(ClientFailure(q.error)), key;
      }
      r := DecodeSnapshot(q.value);
    }

    /** `createEventAndSnapshot`. */
    method CreateEventAndSnapshot(event: UserAccountEvent, aggregate: UserAccount, fault: Option<ClientError>) returns (r: Outcome<Error>)
      modifies client
      ensures var s := CreateTransaction(old(client.tables), event, aggregate, fault);
        if s.Success? then r == Pass && client.tables == s.value
        else r == Fail(s.error) && client.tables == old(client.tables)
    {
      if event.occurredAt.IsoText? {
        return Fail(NOT_A_DATE);
      }
      var o := client.TransactWriteItems(CreateItems(event, aggregate), fault);
      if o.Fail? {
        return Fail(TranslateTransactionError(o.error));
      }
      r := Pass;
    }

    /** `updateEventAndSnapshotOpt`. */
    method UpdateEventAndSnapshotOpt(event: UserAccountEvent, version: int, aggregate: Option<UserAccount>, fault: Option<ClientError>)
      returns (r: Outcome<Error>)
      modifies client
      ensures var s := UpdateTransaction(old(client.tables), event, version, aggregate, fault);
        if s.Success? then r == Pass && client.tables == s.value
        else r == Fail(s.error) && client.tables == old(client.tables)
    {
      if event.occurredAt.IsoText? {
        return Fail(NOT_A_DATE);
      }
      var o := client.TransactWriteItems(UpdateItems(event, version, aggregate), fault);
      if o.Fail? {
        return Fail(TranslateTransactionError(o.error));
      }
      r := Pass;
    }

    /** `getSnapshotCount`: how many snapshot items the aggregate has. */
    method GetSnapshotCount(id: UserAccountId) returns (r: Result<nat, ClientError>)
      ensures snapshotTableName != client.tables.snapshotName ==> r == Failure(ServiceException("ResourceNotFoundException"))
      ensures snapshotTableName == client.tables.snapshotName ==> r == Success(|SnapshotsOf(client.tables.snapshot, id.AsString())|)
    {
      r := client.CountSnapshots(snapshotTableName, id.AsString());
    }

    /** `getLastSnapshotKeys`: the keys of the aggregate's snapshots above sequence
        number 0, newest first, at most `limit` of them, then only those without a
        TTL when `deleteTtl` is configured; none found is `None`. */
    method GetLastSnapshotKeys(id: UserAccountId, limit: nat) returns (r: Result<Option<seq<Key>>, ClientError>, ghost ordered: seq<Key>)
      ensures snapshotTableName != client.tables.snapshotName ==> r == Failure(ServiceException("ResourceNotFoundException"))
      ensures snapshotTableName == client.tables.snapshotName ==>
        && HistoricalEnumeration(client.tables.snapshot, id.AsString(), ordered)
        && var keys := LimitThenFilter(client.tables.snapshot, ordered, limit, deleteTtl.Some?);
           r == Success(if keys == [] then None else Some(keys))
    {
      var q;
      q, ordered := client.QueryHistoricalSnapshotKeys(snapshotTableName, id.AsString(), limit, deleteTtl.Some?);
      if q.Failure? {
        return Failure(q.error), ordered;
      }
      r := Success(if q.value == [] then None else Some(q.value));
    }

    /** How many snapshots beyond the latest one and `keepSnapshotCount` more the
        aggregate has. */
    ghost function Excess(table: map<Key, SnapshotRecord>, aid: string): int
      requires keepSnapshotCount.Some?
    {
      |SnapshotsOf(table, aid)| - 1 - keepSnapshotCount.value
    }

    /** The outcome of the TTL update: with an excess, the newest `excess` historical
        snapshots, of those without a TTL, have one; without, nothing changes. */
    ghost predicate MarkedExcess(before: Tables, after: Tables, aid: string, ordered: seq<Key>, now: nat)
      requires keepSnapshotCount.Some? && deleteTtl.Some?
    {
      var excess := Excess(before.snapshot, aid);
      && (excess <= 0 ==> after == before)
      && (excess > 0 ==>
           && HistoricalEnumeration(before.snapshot, aid, ordered)
           && after == before.(snapshot := SetTtl(before.snapshot, LimitThenFilter(before.snapshot, ordered, excess, true), PurgeTtl(now))))
    }

    /** The outcome of the delete: the same snapshots, removed. */
    ghost predicate DeletedExcess(before: Tables, after: Tables, aid: string, ordered: seq<Key>)
      requires keepSnapshotCount.Some? && deleteTtl.Some?
    {
      var excess := Excess(before.snapshot, aid);
      && (excess <= 0 ==> after == before)
      && (excess > 0 ==>
           && HistoricalEnumeration(before.snapshot, aid, ordered)
           && var keys := LimitThenFilter(before.snapshot, ordered, excess, true);
              after == before.(snapshot := before.snapshot - set k | k in keys))
    }

    /** `updateTtlOfExcessSnapshots`: with both options configured, counts the
        aggregate's snapshots; beyond the latest one and `keepSnapshotCount` more,
        the excess newest historical snapshots without a TTL get one. */
    method UpdateTtlOfExcessSnapshots(id: UserAccountId, now: nat) returns (r: Outcome<Error>, ghost ordered: seq<Key>)
      modifies client
      ensures keepSnapshotCount.None? || deleteTtl.None? ==> r == Pass && client.tables == old(client.tables)
      ensures r.Fail? ==> client.tables == old(client.tables)
      ensures snapshotTableName != old(client.tables).snapshotName ==> client.tables == old(client.tables)
      ensures keepSnapshotCount.Some? && deleteTtl.Some? && snapshotTableName == old(client.tables).snapshotName ==>
        r == Pass && MarkedExcess(old(client.tables), client.tables, id.AsString(), ordered, now)
    {
      ordered := [];
      r := Pass;
      if keepSnapshotCount.None? || deleteTtl.None? {
        return;
      }
      var count := GetSnapshotCount(id);
      if count.Failure? {
        return Fail(ClientFailure(count.error)), ordered;
      }
      var snapshotCount := count.value as int - 1;
      var excessCount := snapshotCount - keepSnapshotCount.value;
      ghost var before := client.tables;
      assert excessCount == Excess(before.snapshot, id.AsString());
      if excessCount > 0 {
        var found;
        found, ordered := GetLastSnapshotKeys(id, excessCount);
        ghost var marked := LimitThenFilter(before.snapshot, ordered, excessCount, true);
        if found.Failure? {
          assert false;
        } else if found.value.Some? {
          assert found.value.value == marked;
          SendTtlUpdates(found.value.value, PurgeTtl(now));
        } else {
          assert marked == [];
          assert SetTtl(before.snapshot, marked, PurgeTtl(now)) == before.snapshot;
        }
        assert client.tables == before.(snapshot := SetTtl(before.snapshot, marked, PurgeTtl(now)));
      }
    }

    /** One `UpdateItem` per key, all awaited together. */
    method SendTtlUpdates(keys: seq<Key>, ttl: int)
      requires snapshotTableName == client.tables.snapshotName
      modifies client
      ensures client.tables == old(client.tables).(snapshot := SetTtl(old(client.tables).snapshot, keys, ttl))
    {
      for i := 0 to |keys|
        invariant client.tables == old(client.tables).(snapshot := SetTtl(old(client.tables).snapshot, keys[..i], ttl))
      {
        var _ := client.UpdateTtl(snapshotTableName, keys[i], ttl);
        assert keys[..i + 1] == keys[..i] + [keys[i]];
        SetTtlStep(old(client.tables).snapshot, keys[..i], keys[i], ttl);
      }
      assert keys[..|keys|] == keys;
    }

    /** `deleteExcessSnapshots`: under the same guard as the TTL update, deletes the
        excess snapshots. */
    method DeleteExcessSnapshots(id: UserAccountId) returns (r: Outcome<Error>, ghost ordered: seq<Key>)
      modifies client
      ensures keepSnapshotCount.None? || deleteTtl.None? ==> r == Pass && client.tables == old(client.tables)
      ensures r.Fail? ==> client.tables == old(client.tables)
      ensures keepSnapshotCount.Some? && deleteTtl.Some? && snapshotTableName == old(client.tables).snapshotName ==>
        r == Pass && DeletedExcess(old(client.tables), client.tables, id.AsString(), ordered)
    {
      ordered := [];
      r := Pass;
      if keepSnapshotCount.None? || deleteTtl.None? {
        return;
      }
      var count := GetSnapshotCount(id);
      if count.Failure? {
        return Fail(ClientFailure(count.error)), ordered;
      }
      var snapshotCount := count.value as int - 1;
      var excessCount := snapshotCount - keepSnapshotCount.value;
      if excessCount > 0 {
        var found;
        found, ordered := GetLastSnapshotKeys(id, excessCount);
        if found.Failure? {
          assert false;
        } else if found.value.Some? {
          var _ := client.BatchDelete(snapshotTableName, found.value.value);
        }
      }
    }

    /** `tryPurgeExcessSnapshots`: with `keepSnapshotCount` configured, the TTL update
        when `deleteTtl` is configured and the delete otherwise, which its own guard
        then turns into nothing. */
    method TryPurgeExcessSnapshots(id: UserAccountId, now: nat) returns (r: Outcome<Error>)
      modifies client
      ensures snapshotTableName == old(client.tables).snapshotName ==> r == Pass
      ensures r.Fail? ==> client.tables == old(client.tables)
      ensures r == Pass ==> PurgedFrom(old(client.tables), client.tables, id.AsString(), now)
    {
      r := Pass;
      if keepSnapshotCount.Some? {
        if deleteTtl.Some? {
          ghost var ordered;
          r, ordered := UpdateTtlOfExcessSnapshots(id, now);
          if r == Pass && snapshotTableName == old(client.tables).snapshotName {
            MarkingIsPurge(this, old(client.tables), client.tables, ordered, id.AsString(), now);
          } else if r == Pass {
            UnchangedIsPurge(this, client.tables, id.AsString(), now);
          }
        } else {
          ghost var ordered;
          r, ordered := DeleteExcessSnapshots(id);
        }
      }
    }

    /** `persistEvent`: refuses a creation event, sends the version-checked
        transaction, and purges after a commit. */
    method PersistEvent(event: UserAccountEvent, version: int, fault: Option<ClientError>, now: nat) returns (r: Outcome<Error>)
      modifies client
      ensures var c := PersistEventTransaction(old(client.tables), event, version, fault);
        && (c.Failure? ==> r == Fail(c.error) && client.tables == old(client.tables))
        && (c.Success? ==> r == Pass && PurgedFrom(c.value, client.tables, event.aggregateId.AsString(), now))
    {
      if event.isCreated {
        return Fail(Error("Cannot persist created event"));
      }
      r := UpdateEventAndSnapshotOpt(event, version, None, fault);
      if r.Fail? {
        return;
      }
      assert Addressed(old(client.tables), UpdateItems(event, version, None)[0]);
      r := TryPurgeExcessSnapshots(event.aggregateId, now);
    }

    /** `persistEventAndSnapshot`, with the update path at the aggregate's version. */
    method PersistEventAndSnapshot(event: UserAccountEvent, aggregate: UserAccount, fault: Option<ClientError>, now: nat) returns (r: Outcome<Error>)
      modifies client
      ensures var c := PersistEventAndSnapshotWith(ExpectedVersion, old(client.tables), event, aggregate, fault);
        && (c.Failure? ==> r == Fail(c.error) && client.tables == old(client.tables))
        && (c.Success? && event.isCreated ==> r == Pass && client.tables == c.value)
        && (c.Success? && !event.isCreated ==> r == Pass && PurgedFrom(c.value, client.tables, event.aggregateId.AsString(), now))
    {
      if event.aggregateId.AsString() != aggregate.id.AsString() {
        return Fail(Error("aggregateId mismatch: expected " + event.aggregateId.AsString() + ", got " + aggregate.id.AsString()));
      }
      if event.isCreated {
        r := CreateEventAndSnapshot(event, aggregate, fault);
      } else {
        r := UpdateEventAndSnapshotOpt(event, ExpectedVersion(aggregate), Some(aggregate), fault);
        if r.Fail? {
          return;
        }
        assert Addressed(old(client.tables), UpdateItems(event, ExpectedVersion(aggregate), Some(aggregate))[0]);
        r := TryPurgeExcessSnapshots(event.aggregateId, now);
      }
    }
  }

  /** What `updateTtlOfExcessSnapshots` leaves is something a purge may leave. */
  lemma MarkingIsPurge(store: EventStoreForDynamoDB, before: Tables, after: Tables, ordered: seq<Key>, aid: string, now: nat)
    requires store.keepSnapshotCount.Some? && store.deleteTtl.Some?
    requires store.MarkedExcess(before, after, aid, ordered, now)
    ensures store.PurgedFrom(before, after, aid, now)
  {
    var excess := store.Excess(before.snapshot, aid);
    if excess > 0 {
      TtlOnHistoricalOnly(before.snapshot, ordered, excess, aid, store.PurgeTtl(now));
    }
  }

  /** Leaving the tables alone is always a purge. */
  lemma UnchangedIsPurge(store: EventStoreForDynamoDB, t: Tables, aid: string, now: nat)
    ensures store.PurgedFrom(t, t, aid, now)
  {
  }

  /** One more `UpdateItem` of the TTL loop. */
  lemma SetTtlStep(table: map<Key, SnapshotRecord>, keys: seq<Key>, k: Key, ttl: int)
    ensures SetTtl(SetTtl(table, keys, ttl), [k], ttl) == SetTtl(table, keys + [k], ttl)
  {
    var a, b := SetTtl(SetTtl(table, keys, ttl), [k], ttl), SetTtl(table, keys + [k], ttl);
    assert a.Keys == b.Keys;
    forall x | x in a ensures a[x] == b[x] {
      assert x in keys + [k] <==> x in keys || x == k;
    }
  }

  /** The keys the TTL update marks are historical snapshots of the aggregate, so
      marking them is a purge. */
  lemma TtlOnHistoricalOnly(before: map<Key, SnapshotRecord>, ordered: seq<Key>, limit: nat, aid: string, ttl: int)
    requires multiset(ordered) == multiset(HistoricalSnapshots(before, aid))
    requires forall i :: 0 <= i < |ordered| ==> ordered[i] in before
    ensures var after := SetTtl(before, LimitThenFilter(before, ordered, limit, true), ttl);
      forall k :: k in before ==>
        after[k] == before[k] || (k in HistoricalSnapshots(before, aid) && after[k] == before[k].(ttl := ttl))
  {
    var marked := LimitThenFilter(before, ordered, limit, true);
    forall k | k in marked ensures k in HistoricalSnapshots(before, aid) {
      var prefix := ordered[..if limit < |ordered| then limit else |ordered|];
      assert k in prefix;
      assert k in ordered;
      assert k in multiset(ordered);
    }
  }
}

/** What the DynamoDB store's transactions do to the tables, and what reading
    them back gives. */
module DynamoDBStoreProperties {
  import opened Types
  import opened UserAccountIds
  import opened UserAccountEvents
  import opened UserAccounts
  import opened IsoDates
  import opened DynamoDBTables
  import opened DynamoDBStore
  import DefaultKeyResolver

  /** The store writes to the tables `t` holds. */
  predicate Addresses(store: EventStoreForDynamoDB, t: Tables) {
    store.journalTableName == t.journalName && store.snapshotTableName == t.snapshotName
  }

  /** Reconfiguring is independent per option, and the last setting wins. */
  lemma ReconfigurationCommutes(store: EventStoreForDynamoDB, keep: int, keep': int, ttl: int, ttl': int, logger: Logger)
    ensures store.WithKeepSnapshotCount(keep).WithDeleteTtl(ttl) == store.WithDeleteTtl(ttl).WithKeepSnapshotCount(keep)
    ensures store.WithDeleteTtl(ttl).WithDeleteTtl(ttl') == store.WithDeleteTtl(ttl')
    ensures store.WithKeepSnapshotCount(keep).WithKeepSnapshotCount(keep') == store.WithKeepSnapshotCount(keep')
    ensures store.WithLogger(logger).WithDeleteTtl(ttl) == store.WithDeleteTtl(ttl).WithLogger(logger)
  {
  }

  /** The logger never changes what the store sends. */
  lemma LoggerDoesNotChangeRequests(store: EventStoreForDynamoDB, logger: Logger, event: UserAccountEvent, version: int, aggregate: UserAccount, fault: Option<ClientError>, t: Tables)
    ensures store.WithLogger(logger).CreateTransaction(t, event, aggregate, fault) == store.CreateTransaction(t, event, aggregate, fault)
    ensures store.WithLogger(logger).UpdateTransaction(t, event, version, Some(aggregate), fault) == store.UpdateTransaction(t, event, version, Some(aggregate), fault)
    ensures store.WithLogger(logger).PersistEventTransaction(t, event, version, fault) == store.PersistEventTransaction(t, event, version, fault)
  {
  }

  /** The create path commits exactly when neither the snapshot item at sequence
      number 0 nor the event's journal item exists; it then adds both. A conflict
      on either is an optimistic-lock error. */
  lemma CreateCommitsIffKeysFree(store: EventStoreForDynamoDB, t: Tables, event: UserAccountEvent, aggregate: UserAccount)
    requires Addresses(store, t) && event.occurredAt.Instant?
    ensures var snapshotKey, journalKey := store.RecordKey(event.aggregateId, 0), store.RecordKey(event.aggregateId, event.sequenceNumber);
      var r := SendTransaction(t, store.CreateItems(event, aggregate), None);
      && (r.Success? <==> snapshotKey !in t.snapshot && journalKey !in t.journal)
      && (r.Success? ==> r.value == t.(snapshot := t.snapshot[snapshotKey := store.PutSnapshotItem(event, 0, aggregate).snapshotRecord],
                                        journal := t.journal[journalKey := store.PutJournalItem(event).journalRecord]))
      && (r.Failure? ==> r.error.OptimisticLockError?)
  {
    var items := store.CreateItems(event, aggregate);
    TransactTwo(t, items[0], items[1]);
    FailedConditionIsOptimisticLock(t, items);
  }

  /** The update path commits exactly when the snapshot item at sequence number 0
      exists at the expected version and the event's journal item does not; it then
      moves the version on, replaces the payload and `seq_nr` only when given an
      aggregate, and adds the event. A conflict is an optimistic-lock error. */
  lemma UpdateCommitsIffVersionMatches(store: EventStoreForDynamoDB, t: Tables, event: UserAccountEvent, version: int, aggregate: Option<UserAccount>)
    requires Addresses(store, t) && event.occurredAt.Instant?
    ensures var snapshotKey, journalKey := store.RecordKey(event.aggregateId, 0), store.RecordKey(event.aggregateId, event.sequenceNumber);
      var r := SendTransaction(t, store.UpdateItems(event, version, aggregate), None);
      && (r.Success? <==> snapshotKey in t.snapshot && t.snapshot[snapshotKey].version == Some(version) && journalKey !in t.journal)
      && (r.Success? ==> snapshotKey in t.snapshot && snapshotKey in r.value.snapshot)
      && (r.Success? && snapshotKey in t.snapshot && snapshotKey in r.value.snapshot ==>
           var old_ := t.snapshot[snapshotKey];
           var new_ := r.value.snapshot[snapshotKey];
           && r.value.snapshot == t.snapshot[snapshotKey := new_]
           && r.value.journal == t.journal[journalKey := store.PutJournalItem(event).journalRecord]
           && new_.version == Some(version + 1)
           && new_.aid == old_.aid && new_.ttl == old_.ttl
           && (aggregate.None? ==> new_.payload == old_.payload && new_.seqNr == old_.seqNr)
           && (aggregate.Some? ==> new_.payload == Some(store.snapshotSerializer.serialize(aggregate.value)) && new_.seqNr == 0))
      && (r.Failure? ==> r.error.OptimisticLockError?)
  {
    var items := store.UpdateItems(event, version, aggregate);
    TransactTwo(t, items[0], items[1]);
    FailedConditionIsOptimisticLock(t, items);
  }

  /** An event read back from the journal holds its time as a string, so persisting
      it again throws a `TypeError` before anything is sent. */
  lemma ReadBackEventIsRefused(store: EventStoreForDynamoDB, t: Tables, event: UserAccountEvent, version: int, aggregate: UserAccount, fault: Option<ClientError>)
    ensures var e := ReadBack(event);
      && (!e.isCreated ==> store.PersistEventTransaction(t, e, version, fault) == Failure(NOT_A_DATE))
      && (e.aggregateId.AsString() == aggregate.id.AsString() ==>
            store.PersistEventAndSnapshotWith(ExpectedVersion, t, e, aggregate, fault) == Failure(NOT_A_DATE))
  {
  }

  /** Every snapshot item is at sequence number 0, the only one the store writes. */
  predicate OnlyLatestSnapshots(t: Tables) {
    forall k :: k in t.snapshot ==> t.snapshot[k].seqNr == 0
  }

  /** Both persist paths keep every snapshot item at sequence number 0. */
  lemma PersistKeepsOnlyLatestSnapshots(store: EventStoreForDynamoDB, t: Tables, event: UserAccountEvent, version: int, aggregate: UserAccount, fault: Option<ClientError>)
    requires OnlyLatestSnapshots(t)
    ensures var r := store.PersistEventTransaction(t, event, version, fault); r.Success? ==> OnlyLatestSnapshots(r.value)
    ensures var r := store.PersistEventAndSnapshotWith(ExpectedVersion, t, event, aggregate, fault); r.Success? ==> OnlyLatestSnapshots(r.value)
  {
    if event.occurredAt.Instant? {
      UpdateKeepsOnlyLatestSnapshots(store, t, event, version, None, fault);
      CreateKeepsOnlyLatestSnapshots(store, t, event, aggregate, fault);
      UpdateKeepsOnlyLatestSnapshots(store, t, event, ExpectedVersion(aggregate), Some(aggregate), fault);
    }
  }

  lemma CreateKeepsOnlyLatestSnapshots(store: EventStoreForDynamoDB, t: Tables, event: UserAccountEvent, aggregate: UserAccount, fault: Option<ClientError>)
    requires OnlyLatestSnapshots(t) && event.occurredAt.Instant?
    ensures var r := SendTransaction(t, store.CreateItems(event, aggregate), fault); r.Success? ==> OnlyLatestSnapshots(r.value)
  {
    var items := store.CreateItems(event, aggregate);
    TransactTwo(t, items[0], items[1]);
  }

  lemma UpdateKeepsOnlyLatestSnapshots(store: EventStoreForDynamoDB, t: Tables, event: UserAccountEvent, version: int, aggregate: Option<UserAccount>, fault: Option<ClientError>)
    requires OnlyLatestSnapshots(t) && event.occurredAt.Instant?
    ensures var r := SendTransaction(t, store.UpdateItems(event, version, aggregate), fault); r.Success? ==> OnlyLatestSnapshots(r.value)
  {
    var items := store.UpdateItems(event, version, aggregate);
    TransactTwo(t, items[0], items[1]);
  }

  /** Without historical snapshots the purge leaves everything as it was, so in
      tables the store alone has written it never does anything. */
  lemma PurgeWithoutHistoryChangesNothing(store: EventStoreForDynamoDB, before: Tables, after: Tables, aid: string, now: nat)
    requires OnlyLatestSnapshots(before)
    requires store.PurgedFrom(before, after, aid, now)
    ensures after == before
  {
    if store.keepSnapshotCount.Some? && store.deleteTtl.Some? {
      assert HistoricalSnapshots(before.snapshot, aid) == {};
      assert after.snapshot == before.snapshot;
    }
  }

  /** With `deleteTtl` unset, the delete branch the purge takes is guarded by
      `deleteTtl` being set, so it changes nothing: the excess snapshots are never
      deleted. */
  lemma PurgeWithoutDeleteTtlChangesNothing(store: EventStoreForDynamoDB, before: Tables, after: Tables, aid: string, now: nat)
    requires store.deleteTtl.None?
    requires store.PurgedFrom(before, after, aid, now)
    ensures after == before
  {
  }

  /** After the create path commits on tables holding nothing of the aggregate, the
      latest snapshot is the aggregate at version 1 and the journal from the event's
      sequence number on is the event alone. */
  lemma ReadBackAfterCreate(store: EventStoreForDynamoDB, t: Tables, t': Tables, event: UserAccountEvent, aggregate: UserAccount)
    requires Addresses(store, t)
    requires EventsReadBack(store.eventSerializer, store.eventConverter)
    requires SnapshotsRoundTrip(store.snapshotSerializer, store.snapshotConverter)
    requires event.isCreated
    requires forall k :: k in t.snapshot ==> t.snapshot[k].aid != event.aggregateId.AsString()
    requires forall k :: k in t.journal ==> t.journal[k].aid != event.aggregateId.AsString()
    requires store.PersistEventAndSnapshotWith(ExpectedVersion, t, event, aggregate, None) == Success(t')
    ensures var aid, snapshotKey := event.aggregateId.AsString(), store.RecordKey(event.aggregateId, 0);
      && (forall k :: IsLatestSnapshot(t'.snapshot, aid, k) <==> k == snapshotKey)
      && snapshotKey in t'.snapshot
      && store.DecodeSnapshot(Some(t'.snapshot[snapshotKey])) == Success(Some(aggregate.WithVersion(1)))
    ensures var aid, journalKey := event.aggregateId.AsString(), store.RecordKey(event.aggregateId, event.sequenceNumber);
      && JournalMatches(t'.journal, aid, event.sequenceNumber) == {journalKey}
      && store.DecodeEvents(JournalRecordsAt(t'.journal, [journalKey])) == Success([ReadBack(event)])
  {
    assert event.occurredAt.Instant?;
    CreateCommitsIffKeysFree(store, t, event, aggregate);
    var aid := event.aggregateId.AsString();
    var journalKey := store.RecordKey(event.aggregateId, event.sequenceNumber);
    var journalRecord := store.PutJournalItem(event).journalRecord;
    assert t'.journal == t.journal[journalKey := journalRecord];
    assert JournalRecordsAt(t'.journal, [journalKey]) == [journalRecord];
    DecodeOneEvent(store, event);
  }

  /** A journal holding one event's record decodes to that event, read back. */
  lemma DecodeOneEvent(store: EventStoreForDynamoDB, event: UserAccountEvent)
    requires EventsReadBack(store.eventSerializer, store.eventConverter) && event.occurredAt.Instant?
    ensures store.DecodeEvents([store.PutJournalItem(event).journalRecord]) == Success([ReadBack(event)])
  {
    var r := store.DecodeEvents([store.PutJournalItem(event).journalRecord]);
    assert r.value == [ReadBack(event)];
  }

  /** The account and the store after `UserAccount.create` and the create path on
      tables holding nothing of the account, then `rename`. */
  lemma CreatedThenRenamed(store: EventStoreForDynamoDB, t: Tables, id: UserAccountId, name: string, newName: string, createdId: string, renamedId: string, at: TimeValue)
    returns (t1: Tables, renamed: UserAccount, renameEvent: UserAccountEvent)
    requires Addresses(store, t)
    requires store.keyResolver.resolveSortKey == DefaultKeyResolver.ResolveSortKey
    requires store.RecordKey(id, 0) !in t.snapshot
    requires store.RecordKey(id, 1) !in t.journal && store.RecordKey(id, 2) !in t.journal
    ensures var (account, created) := Create(id, name, createdId, at);
      && store.PersistEventAndSnapshotWith(ExpectedVersion, t, created, account, None) == Success(t1)
      && (renamed, renameEvent) == account.Rename(newName, renamedId, at)
    ensures renamed == UserAccount(id, newName, 2, 1) && !renameEvent.isCreated
    ensures Addresses(store, t1)
    ensures store.RecordKey(id, 0) in t1.snapshot && t1.snapshot[store.RecordKey(id, 0)].version == Some(1)
    ensures store.RecordKey(id, 2) !in t1.journal
  {
    var (account, created) := Create(id, name, createdId, at);
    CreateCommitsIffKeysFree(store, t, created, account);
    t1 := store.PersistEventAndSnapshotWith(ExpectedVersion, t, created, account, None).value;
    DefaultKeyResolver.SortKeyInjective(id, 1, 2);
    renamed, renameEvent := account.Rename(newName, renamedId, at).0, account.Rename(newName, renamedId, at).1;
  }

  /** As written, `persistEventAndSnapshot` after a create and one rename expects the
      stored version to be the sequence number 2, finds version 1, and fails with an
      optimistic-lock error although nothing else wrote the aggregate. */
  lemma AsWrittenRenameSnapshotLocksOut(store: EventStoreForDynamoDB, t: Tables, id: UserAccountId, name: string, newName: string, createdId: string, renamedId: string, at: TimeValue)
    requires Addresses(store, t)
    requires store.keyResolver.resolveSortKey == DefaultKeyResolver.ResolveSortKey
    requires store.RecordKey(id, 0) !in t.snapshot
    requires store.RecordKey(id, 1) !in t.journal && store.RecordKey(id, 2) !in t.journal
    ensures var (account, created) := Create(id, name, createdId, at);
      var t1 := store.PersistEventAndSnapshotWith(ExpectedVersion, t, created, account, None);
      var (renamed, renameEvent) := account.Rename(newName, renamedId, at);
      && t1.Success?
      && store.PersistEventAndSnapshotWith(ExpectedVersionAsWritten, t1.value, renameEvent, renamed, None).Failure?
      && store.PersistEventAndSnapshotWith(ExpectedVersionAsWritten, t1.value, renameEvent, renamed, None).error.OptimisticLockError?
  {
    var t1, renamed, renameEvent := CreatedThenRenamed(store, t, id, name, newName, createdId, renamedId, at);
    UpdateCommitsIffVersionMatches(store, t1, renameEvent, ExpectedVersionAsWritten(renamed), Some(renamed));
  }

  /** With the aggregate's version as the expected one, the same sequence commits:
      the snapshot moves to version 2 and reads back as the renamed account. */
  lemma RenameSnapshotCommits(store: EventStoreForDynamoDB, t: Tables, id: UserAccountId, name: string, newName: string, createdId: string, renamedId: string, at: TimeValue)
    requires Addresses(store, t)
    requires SnapshotsRoundTrip(store.snapshotSerializer, store.snapshotConverter)
    requires store.keyResolver.resolveSortKey == DefaultKeyResolver.ResolveSortKey
    requires store.RecordKey(id, 0) !in t.snapshot
    requires store.RecordKey(id, 1) !in t.journal && store.RecordKey(id, 2) !in t.journal
    ensures var (account, created) := Create(id, name, createdId, at);
      var t1 := store.PersistEventAndSnapshotWith(ExpectedVersion, t, created, account, None);
      var (renamed, renameEvent) := account.Rename(newName, renamedId, at);
      && t1.Success?
      && var t2 := store.PersistEventAndSnapshotWith(ExpectedVersion, t1.value, renameEvent, renamed, None);
         && t2.Success?
         && store.RecordKey(id, 0) in t2.value.snapshot
         && store.DecodeSnapshot(Some(t2.value.snapshot[store.RecordKey(id, 0)])) == Success(Some(UserAccount(id, newName, 2, 2)))
  {
    var t1, renamed, renameEvent := CreatedThenRenamed(store, t, id, name, newName, createdId, renamedId, at);
    UpdateCommitsIffVersionMatches(store, t1, renameEvent, ExpectedVersion(renamed), Some(renamed));
    assert store.snapshotSerializer.deserialize(store.snapshotSerializer.serialize(renamed), store.snapshotConverter.convert) == renamed;
  }

  /** Tables holding nothing of the aggregate `aid`. */
  predicate Untouched(t: Tables, aid: string) {
    && (forall k :: k in t.snapshot ==> t.snapshot[k].aid != aid)
    && (forall k :: k in t.journal ==> t.journal[k].aid != aid)
  }

  /** The create step of the rename scenario: the snapshot at 0 and the creation
      event are added, and nothing else changes. */
  lemma AliceCreated(store: EventStoreForDynamoDB, t: Tables, id: UserAccountId, createdId: string, at: TimeValue)
    returns (t1: Tables)
    requires Addresses(store, t)
    requires store.keyResolver.resolveSortKey == DefaultKeyResolver.ResolveSortKey
    requires store.RecordKey(id, 0) !in t.snapshot
    requires store.RecordKey(id, 1) !in t.journal && store.RecordKey(id, 2) !in t.journal
    ensures var (account1, created) := Create(id, "Alice", createdId, at);
      && store.PersistEventAndSnapshotWith(ExpectedVersion, t, created, account1, None) == Success(t1)
      && t1.snapshot == t.snapshot[store.RecordKey(id, 0) := store.PutSnapshotItem(created, 0, account1).snapshotRecord]
      && t1.journal == t.journal[store.RecordKey(id, 1) := store.PutJournalItem(created).journalRecord]
    ensures Addresses(store, t1) && store.RecordKey(id, 2) !in t1.journal
  {
    var (account1, created) := Create(id, "Alice", createdId, at);
    CreateCommitsIffKeysFree(store, t, created, account1);
    t1 := store.PersistEventAndSnapshotWith(ExpectedVersion, t, created, account1, None).value;
    DefaultKeyResolver.SortKeyInjective(id, 1, 2);
  }

  /** The rename step: `persistEvent` at version 1 moves the snapshot at 0 to
      version 2, keeping its payload, and adds the event. */
  lemma BobRenamed(store: EventStoreForDynamoDB, t1: Tables, renamed: UserAccountEvent)
    returns (t2: Tables)
    requires Addresses(store, t1)
    requires !renamed.isCreated && renamed.occurredAt.Instant?
    requires var k := store.RecordKey(renamed.aggregateId, 0); k in t1.snapshot && t1.snapshot[k].version == Some(1)
    requires store.RecordKey(renamed.aggregateId, renamed.sequenceNumber) !in t1.journal
    ensures store.PersistEventTransaction(t1, renamed, 1, None) == Success(t2)
    ensures var k := store.RecordKey(renamed.aggregateId, 0);
      && k in t2.snapshot
      && t2.snapshot == t1.snapshot[k := t2.snapshot[k]]
      && t2.snapshot[k].version == Some(2)
      && t2.snapshot[k].aid == t1.snapshot[k].aid && t2.snapshot[k].seqNr == t1.snapshot[k].seqNr
      && t2.snapshot[k].payload == t1.snapshot[k].payload
    ensures t2.journal == t1.journal[store.RecordKey(renamed.aggregateId, renamed.sequenceNumber) := store.PutJournalItem(renamed).journalRecord]
  {
    UpdateCommitsIffVersionMatches(store, t1, renamed, 1, None);
    t2 := store.PersistEventTransaction(t1, renamed, 1, None).value;
  }

  /** The tables after creating Alice with `persistEventAndSnapshot` and renaming
      her to Bob with `persistEvent` at the account's version. */
  lemma AliceRenamedToBob(store: EventStoreForDynamoDB, t: Tables, id: UserAccountId, createdId: string, renamedId: string, at: TimeValue)
    returns (t2: Tables)
    requires Addresses(store, t) && Untouched(t, id.AsString())
    requires store.keyResolver.resolveSortKey == DefaultKeyResolver.ResolveSortKey
    requires store.RecordKey(id, 0) !in t.snapshot
    requires store.RecordKey(id, 1) !in t.journal && store.RecordKey(id, 2) !in t.journal
    ensures var (account1, created) := Create(id, "Alice", createdId, at);
      var (account2, renamed) := account1.Rename("Bob", renamedId, at);
      var t1 := store.PersistEventAndSnapshotWith(ExpectedVersion, t, created, account1, None);
      && t1.Success?
      && store.PersistEventTransaction(t1.value, renamed, account2.version, None) == Success(t2)
    ensures var snapshotKey := store.RecordKey(id, 0);
      && (forall k :: IsLatestSnapshot(t2.snapshot, id.AsString(), k) <==> k == snapshotKey)
      && snapshotKey in t2.snapshot
      && t2.snapshot[snapshotKey].version == Some(2)
      && t2.snapshot[snapshotKey].payload == Some(store.snapshotSerializer.serialize(UserAccount(id, "Alice", 1, 1)))
    ensures JournalMatches(t2.journal, id.AsString(), 2) == {store.RecordKey(id, 2)}
    ensures store.RecordKey(id, 2) in t2.journal
      && t2.journal[store.RecordKey(id, 2)] == store.PutJournalItem(UserAccountRenamed(renamedId, id, "Bob", 2, Instant(at))).journalRecord
  {
    var aid := id.AsString();
    var (account1, created) := Create(id, "Alice", createdId, at);
    var (account2, renamed) := account1.Rename("Bob", renamedId, at);
    var t1 := AliceCreated(store, t, id, createdId, at);
    t2 := BobRenamed(store, t1, renamed);
    var snapshotKey, k2 := store.RecordKey(id, 0), store.RecordKey(id, 2);
    assert t2.snapshot.Keys == t.snapshot.Keys + {snapshotKey};
    assert k2 in JournalMatches(t2.journal, aid, 2);
  }

  /** The DynamoDB store's rename scenario: after creating Alice and persisting the
      rename to Bob at version 1, the latest snapshot is Alice at version 2, the
      events after its sequence number are the rename alone, and replaying them
      gives Bob at sequence number 2 and version 2. */
  lemma DynamoDBRenameScenario(store: EventStoreForDynamoDB, t: Tables, id: UserAccountId, createdId: string, renamedId: string, at: TimeValue)
    requires Addresses(store, t) && Untouched(t, id.AsString())
    requires EventsReadBack(store.eventSerializer, store.eventConverter)
    requires SnapshotsRoundTrip(store.snapshotSerializer, store.snapshotConverter)
    requires store.keyResolver.resolveSortKey == DefaultKeyResolver.ResolveSortKey
    requires store.RecordKey(id, 0) !in t.snapshot
    requires store.RecordKey(id, 1) !in t.journal && store.RecordKey(id, 2) !in t.journal
    ensures var (account1, created) := Create(id, "Alice", createdId, at);
      var (account2, renamed) := account1.Rename("Bob", renamedId, at);
      var t1 := store.PersistEventAndSnapshotWith(ExpectedVersion, t, created, account1, None);
      && t1.Success?
      && var t2 := store.PersistEventTransaction(t1.value, renamed, account2.version, None);
      && t2.Success?
      && (forall k :: IsLatestSnapshot(t2.value.snapshot, id.AsString(), k) ==>
            store.DecodeSnapshot(Some(t2.value.snapshot[k])) == Success(Some(UserAccount(id, "Alice", 1, 2))))
      && (forall keys :: JournalQueryKeys(t2.value.journal, id.AsString(), 2, keys) ==>
            (forall i :: 0 <= i < |keys| ==> keys[i] in t2.value.journal) &&
            store.DecodeEvents(JournalRecordsAt(t2.value.journal, keys)) == Success([ReadBack(renamed)]))
      && ReplayFold([ReadBack(renamed)], UserAccount(id, "Alice", 1, 2)) == Success(UserAccount(id, "Bob", 2, 2))
  {
    var (account1, created) := Create(id, "Alice", createdId, at);
    var (account2, renamed) := account1.Rename("Bob", renamedId, at);
    var t2 := AliceRenamedToBob(store, t, id, createdId, renamedId, at);
    OnlyLatestSnapshotDecodes(store, t2.snapshot, id.AsString(), store.RecordKey(id, 0), account1, 2);
    OnlyJournalMatchDecodes(store, t2.journal, id.AsString(), 2, store.RecordKey(id, 2), renamed);
    ReadBackRenameReplays(id, renamedId, at);
  }

  /** The rename read back from the journal still replays Alice to Bob. */
  lemma ReadBackRenameReplays(id: UserAccountId, renamedId: string, at: TimeValue)
    ensures ReplayFold([ReadBack(UserAccountRenamed(renamedId, id, "Bob", 2, Instant(at)))], UserAccount(id, "Alice", 1, 2))
      == Success(UserAccount(id, "Bob", 2, 2))
  {
    assert [ReadBack(UserAccountRenamed(renamedId, id, "Bob", 2, Instant(at)))][1..] == [];
  }

  /** When one item is the aggregate's latest snapshot, every latest snapshot read
      decodes to the account it holds, at its stored version. */
  lemma OnlyLatestSnapshotDecodes(store: EventStoreForDynamoDB, snapshot: map<Key, SnapshotRecord>, aid: string, key: Key, account: UserAccount, version: int)
    requires SnapshotsRoundTrip(store.snapshotSerializer, store.snapshotConverter)
    requires forall k :: IsLatestSnapshot(snapshot, aid, k) <==> k == key
    requires key in snapshot && snapshot[key].version == Some(version)
    requires snapshot[key].payload == Some(store.snapshotSerializer.serialize(account))
    ensures forall k :: IsLatestSnapshot(snapshot, aid, k) ==>
      store.DecodeSnapshot(Some(snapshot[k])) == Success(Some(account.WithVersion(version)))
  {
    assert store.snapshotSerializer.deserialize(store.snapshotSerializer.serialize(account), store.snapshotConverter.convert) == account;
  }

  /** When one journal item matches a query, every result of that query decodes to
      the event the item was written from, read back. */
  lemma OnlyJournalMatchDecodes(store: EventStoreForDynamoDB, journal: map<Key, JournalRecord>, aid: string, from: int, key: Key, event: UserAccountEvent)
    requires EventsReadBack(store.eventSerializer, store.eventConverter) && event.occurredAt.Instant?
    requires JournalMatches(journal, aid, from) == {key}
    requires key in journal && journal[key] == store.PutJournalItem(event).journalRecord
    ensures forall keys :: JournalQueryKeys(journal, aid, from, keys) ==>
      (forall i :: 0 <= i < |keys| ==> keys[i] in journal) &&
      store.DecodeEvents(JournalRecordsAt(journal, keys)) == Success([ReadBack(event)])
  {
    forall keys | JournalQueryKeys(journal, aid, from, keys)
      ensures (forall i :: 0 <= i < |keys| ==> keys[i] in journal)
      ensures store.DecodeEvents(JournalRecordsAt(journal, keys)) == Success([ReadBack(event)])
    {
      SingletonEnumeration(keys, key);
      assert JournalRecordsAt(journal, keys) == [journal[key]];
      DecodeOneEvent(store, event);
    }
  }
}
