/** The two DynamoDB tables the store uses (journal and snapshot), the
    transactional write the store issues, and the client's queries. Tables are
    maps from primary key `(pkey, skey)` to record. */
module DynamoDBTables {
  import opened Types
  import opened UserAccountEvents
  import opened UserAccounts

  /** A table's primary key: partition key and sort key. */
  datatype Key = Key(pkey: string, skey: string)

  /** A journal item: the aggregate id string (`aid`), the event's sequence number
      (`seq_nr`), the serialized event (`payload`) and `occurred_at`. */
  datatype JournalRecord = JournalRecord(aid: string, seqNr: int, payload: Option<EventJson>, occurredAt: int)

  /** A snapshot item: `aid`, `seq_nr`, the serialized aggregate, `version`, `ttl`
      and `last_updated_at`. Attributes the store reads but a foreign item may lack
      are optional. */
  datatype SnapshotRecord = SnapshotRecord(
    aid: string, seqNr: int, payload: Option<AccountJson>, version: Option<int>,
    ttl: int, lastUpdatedAt: int)

  /** The two tables, with their names. */
  datatype Tables = Tables(
    journalName: string, snapshotName: string,
    journal: map<Key, JournalRecord>, snapshot: map<Key, SnapshotRecord>)

  /** One item of a `TransactWriteItems` call. Both puts are guarded by
      `attribute_not_exists(pkey) AND attribute_not_exists(skey)`; the update by
      `#version = :before_version`. The update sets the version and
      `last_updated_at`, and with a replacement also the payload and `seq_nr`. */
  datatype TransactItem =
    | PutJournal(tableName: string, key: Key, journalRecord: JournalRecord)
    | PutSnapshot(tableName: string, key: Key, snapshotRecord: SnapshotRecord)
    | UpdateSnapshot(tableName: string, key: Key, beforeVersion: int, afterVersion: int,
                     lastUpdatedAt: int, replacement: Option<(AccountJson, int)>)
  {
    /** Whether the item is addressed to the snapshot table. */
    predicate OnSnapshotTable() {
      !PutJournal?
    }
  }

  const CONDITIONAL_CHECK_FAILED: string := "ConditionalCheckFailed"
  const NO_CANCELLATION: string := "None"

  /** The item names an existing table of the kind it writes. */
  predicate Addressed(t: Tables, item: TransactItem) {
    if item.OnSnapshotTable() then item.tableName == t.snapshotName else item.tableName == t.journalName
  }

  /** The item's condition, evaluated on the tables before the transaction. */
  predicate ConditionHolds(t: Tables, item: TransactItem) {
    match item
    case PutJournal(_, key, _) => key !in t.journal
    case PutSnapshot(_, key, _) => key !in t.snapshot
    case UpdateSnapshot(_, key, before, _, _, _) => key in t.snapshot && t.snapshot[key].version == Some(before)
  }

  /** No two items of a transaction write the same item. */
  predicate DistinctTargets(items: seq<TransactItem>) {
    forall i, j :: 0 <= i < j < |items| ==>
      items[i].OnSnapshotTable() != items[j].OnSnapshotTable() || items[i].key != items[j].key
  }

  predicate AllAddressed(t: Tables, items: seq<TransactItem>) {
    forall i :: 0 <= i < |items| ==> Addressed(t, items[i])
  }

  predicate AllConditionsHold(t: Tables, items: seq<TransactItem>) {
    forall i :: 0 <= i < |items| ==> ConditionHolds(t, items[i])
  }

  /** The cancellation reason codes DynamoDB reports, one per item in item order. */
  function CancellationReasons(t: Tables, items: seq<TransactItem>): (reasons: seq<string>)
    ensures |reasons| == |items|
    ensures forall i :: 0 <= i < |items| ==>
      reasons[i] == (if ConditionHolds(t, items[i]) then NO_CANCELLATION else CONDITIONAL_CHECK_FAILED)
  {
    seq(|items|, i requires 0 <= i < |items| =>
      if ConditionHolds(t, items[i]) then NO_CANCELLATION else CONDITIONAL_CHECK_FAILED)
  }

  /** The snapshot item as an update leaves it. */
  function Updated(r: SnapshotRecord, afterVersion: int, lastUpdatedAt: int, replacement: Option<(AccountJson, int)>): SnapshotRecord {
    var r' := r.(version := Some(afterVersion), lastUpdatedAt := lastUpdatedAt);
    if replacement.Some? then r'.(payload := Some(replacement.value.0), seqNr := replacement.value.1) else r'
  }

  /** The effect of one item whose condition holds. */
  function Apply(t: Tables, item: TransactItem): Tables {
    match item
    case PutJournal(_, key, record) => t.(journal := t.journal[key := record])
    case PutSnapshot(_, key, record) => t.(snapshot := t.snapshot[key := record])
    case UpdateSnapshot(_, key, _, after, at, replacement) =>
      if key in t.snapshot then t.(snapshot := t.snapshot[key := Updated(t.snapshot[key], after, at, replacement)]) else t
  }

  function ApplyAll(t: Tables, items: seq<TransactItem>): (r: Tables)
    ensures r.journalName == t.journalName && r.snapshotName == t.snapshotName
  {
    if items == [] then t else Apply(ApplyAll(t, items[..|items| - 1]), items[|items| - 1])
  }

  /** `TransactWriteItems`: all conditions are checked on the tables as they are,
      then every item is applied, or none is. An item addressed to a missing table or
      two items on one key reject the whole request. */
  function TransactWrite(t: Tables, items: seq<TransactItem>): (r: Result<Tables, ClientError>)
    ensures r.Success? <==> AllAddressed(t, items) && DistinctTargets(items) && AllConditionsHold(t, items)
    ensures r.Success? ==> r.value == ApplyAll(t, items)
    ensures AllAddressed(t, items) && DistinctTargets(items) && !AllConditionsHold(t, items) ==>
      r == Failure(TransactionCanceledException(CancellationReasons(t, items)))
  {
    if !AllAddressed(t, items) then Failure(ServiceException("ResourceNotFoundException"))
    else if !DistinctTargets(items) then Failure(ServiceException("ValidationException"))
    else if !AllConditionsHold(t, items) then Failure(TransactionCanceledException(CancellationReasons(t, items)))
    else Success(ApplyAll(t, items))
  }

  /** A transaction is cancelled with a `ConditionalCheckFailed` reason exactly
      when some item's condition fails. */
  lemma CancelledExactlyOnFailedCondition(t: Tables, items: seq<TransactItem>)
    requires AllAddressed(t, items) && DistinctTargets(items)
    ensures var r := TransactWrite(t, items);
      (r.Failure? && r.error.TransactionCanceledException? && CONDITIONAL_CHECK_FAILED in r.error.cancellationReasons)
        <==> !AllConditionsHold(t, items)
  {
    var reasons := CancellationReasons(t, items);
    if !AllConditionsHold(t, items) {
      var i :| 0 <= i < |items| && !ConditionHolds(t, items[i]);
      assert reasons[i] == CONDITIONAL_CHECK_FAILED;
    }
  }

  /** A transaction of two items, spelled out. */
  lemma TransactTwo(t: Tables, a: TransactItem, b: TransactItem)
    ensures AllAddressed(t, [a, b]) <==> Addressed(t, a) && Addressed(t, b)
    ensures DistinctTargets([a, b]) <==> a.OnSnapshotTable() != b.OnSnapshotTable() || a.key != b.key
    ensures AllConditionsHold(t, [a, b]) <==> ConditionHolds(t, a) && ConditionHolds(t, b)
    ensures ApplyAll(t, [a, b]) == Apply(Apply(t, a), b)
  {
    var items := [a, b];
    assert items[0] == a && items[1] == b;
    assert items[..1] == [a] && [a][..0] == [];
    assert ApplyAll(t, [a]) == Apply(t, a);
    assert ApplyAll(t, items) == Apply(ApplyAll(t, [a]), b);
  }

  // ----- ordering of query results -----

  /** Keys in ascending rank order. */
  ghost predicate SortedBy(keys: seq<Key>, rank: Key -> int) {
    forall i, j :: 0 <= i < j < |keys| ==> rank(keys[i]) <= rank(keys[j])
  }

  /** Inserts a key before the first key of higher rank. */
  function InsertByRank(k: Key, keys: seq<Key>, rank: Key -> int): (r: seq<Key>)
    ensures multiset(r) == multiset(keys) + multiset{k}
    ensures SortedBy(keys, rank) ==> SortedBy(r, rank)
  {
    if keys == [] then [k]
    else if rank(k) <= rank(keys[0]) then [k] + keys
    else
      var rest := InsertByRank(k, keys[1..], rank);
      assert keys == [keys[0]] + keys[1..];
      InsertAfterHeadSorted(k, keys, rest, rank);
      [keys[0]] + rest
  }

  /** The recursive case of `InsertByRank`: a key ranked above the head goes after it,
      and the head stays first. */
  lemma InsertAfterHeadSorted(k: Key, keys: seq<Key>, rest: seq<Key>, rank: Key -> int)
    requires keys != [] && rank(keys[0]) < rank(k)
    requires multiset(rest) == multiset(keys[1..]) + multiset{k}
    requires SortedBy(keys[1..], rank) ==> SortedBy(rest, rank)
    ensures SortedBy(keys, rank) ==> SortedBy([keys[0]] + rest, rank)
  {
    if SortedBy(keys, rank) {
      assert SortedBy(keys[1..], rank);
      forall j | 0 < j < |[keys[0]] + rest| ensures rank(keys[0]) <= rank(([keys[0]] + rest)[j]) {
        var x := rest[j - 1];
        assert x in multiset(rest);
        assert x == k || x in keys[1..];
      }
    }
  }

  /** The keys of `keys` in ascending rank order, each once. */
  method SortKeys(keys: set<Key>, rank: Key -> int) returns (sorted: seq<Key>)
    ensures multiset(sorted) == multiset(keys)
    ensures SortedBy(sorted, rank)
  {
    sorted := [];
    var remaining := keys;
    while remaining != {}
      invariant remaining <= keys
      invariant multiset(sorted) + multiset(remaining) == multiset(keys)
      invariant SortedBy(sorted, rank)
      decreases |remaining|
    {
      var k :| k in remaining;
      assert multiset(remaining) == multiset(remaining - {k}) + multiset{k};
      sorted := InsertByRank(k, sorted, rank);
      remaining := remaining - {k};
    }
  }

  /** A key sequence that holds each key of `s` once and nothing else is the set's
      enumeration; with one key, that key alone. */
  lemma SingletonEnumeration(keys: seq<Key>, k: Key)
    requires multiset(keys) == multiset({k})
    ensures keys == [k]
  {
    assert |keys| == |multiset(keys)| == 1;
    assert keys[0] in multiset(keys);
  }

  // ----- what queries return -----

  /** `#aid = :aid AND #seq_nr >= :seq_nr` on the journal's aid index. */
  ghost function JournalMatches(table: map<Key, JournalRecord>, aid: string, from: int): set<Key> {
    set k | k in table && table[k].aid == aid && table[k].seqNr >= from
  }

  function JournalRank(table: map<Key, JournalRecord>): Key -> int {
    k => if k in table then table[k].seqNr else 0
  }

  /** The query result: every matching item once, in ascending `seq_nr` order. */
  ghost predicate JournalQueryKeys(table: map<Key, JournalRecord>, aid: string, from: int, keys: seq<Key>) {
    multiset(keys) == multiset(JournalMatches(table, aid, from)) && SortedBy(keys, JournalRank(table))
  }

  function JournalRecordsAt(table: map<Key, JournalRecord>, keys: seq<Key>): (records: seq<JournalRecord>)
    requires forall i :: 0 <= i < |keys| ==> keys[i] in table
    ensures |records| == |keys| && forall i :: 0 <= i < |keys| ==> records[i] == table[keys[i]]
  {
    seq(|keys|, i requires 0 <= i < |keys| => table[keys[i]])
  }

  /** `#aid = :aid AND #seq_nr = :seq_nr` with `:seq_nr = 0` on the snapshot's aid index. */
  predicate IsLatestSnapshot(table: map<Key, SnapshotRecord>, aid: string, k: Key) {
    k in table && table[k].aid == aid && table[k].seqNr == 0
  }

  /** The snapshot items of one aggregate. */
  ghost function SnapshotsOf(table: map<Key, SnapshotRecord>, aid: string): set<Key> {
    set k | k in table && table[k].aid == aid
  }

  /** The snapshot items of one aggregate at a sequence number above 0. */
  ghost function HistoricalSnapshots(table: map<Key, SnapshotRecord>, aid: string): set<Key> {
    set k | k in table && table[k].aid == aid && table[k].seqNr > 0
  }

  /** `ordered` lists the aggregate's historical snapshots, each once, newest first. */
  ghost predicate HistoricalEnumeration(table: map<Key, SnapshotRecord>, aid: string, ordered: seq<Key>) {
    && multiset(ordered) == multiset(HistoricalSnapshots(table, aid))
    && SortedBy(ordered, DescendingRank(table))
    && (forall i :: 0 <= i < |ordered| ==> ordered[i] in table)
  }

  /** Descending `seq_nr`, as `ScanIndexForward: false` asks. */
  function DescendingRank(table: map<Key, SnapshotRecord>): Key -> int {
    k => if k in table then -table[k].seqNr else 0
  }

  /** The first `limit` keys, then, when `ttlZeroOnly`, those whose item has `ttl = 0`:
      DynamoDB applies `Limit` before `FilterExpression`. */
  function LimitThenFilter(table: map<Key, SnapshotRecord>, keys: seq<Key>, limit: nat, ttlZeroOnly: bool): (r: seq<Key>)
    requires forall i :: 0 <= i < |keys| ==> keys[i] in table
    ensures |r| <= limit && |r| <= |keys|
    ensures forall k :: k in r ==> k in keys[..if limit < |keys| then limit else |keys|]
    ensures forall k :: k in r ==> k in table && (ttlZeroOnly ==> table[k].ttl == 0)
    decreases |keys|
  {
    if keys == [] || limit == 0 then []
    else
      var rest := LimitThenFilter(table, keys[1..], limit - 1, ttlZeroOnly);
      assert forall k :: k in rest ==> k in keys[..if limit < |keys| then limit else |keys|] by {
        forall k | k in rest ensures k in keys[..if limit < |keys| then limit else |keys|] {
          var i :| 0 <= i < |keys[1..][..if limit - 1 < |keys| - 1 then limit - 1 else |keys| - 1]| && keys[1..][i] == k;
          assert keys[i + 1] == k;
        }
      }
      if !ttlZeroOnly || table[keys[0]].ttl == 0 then [keys[0]] + rest else rest
  }

  /** The items' `ttl` set, one `UpdateItem` per key; a key no longer present is skipped. */
  function SetTtl(table: map<Key, SnapshotRecord>, keys: seq<Key>, ttl: int): (r: map<Key, SnapshotRecord>)
    ensures r.Keys == table.Keys
    ensures forall k :: k in table ==> r[k] == if k in keys then table[k].(ttl := ttl) else table[k]
    decreases |keys|
  {
    if keys == [] then table
    else
      var last := keys[|keys| - 1];
      var prefix := SetTtl(table, keys[..|keys| - 1], ttl);
      assert forall k :: k in keys <==> k in keys[..|keys| - 1] || k == last by {
        assert keys == keys[..|keys| - 1] + [last];
      }
      if last in prefix then prefix[last := prefix[last].(ttl := ttl)] else prefix
  }

  /** A service client over the two tables. */
  class DynamoDBClient {
    var tables: Tables

    constructor(tables: Tables)
      ensures this.tables == tables
    {
      this.tables := tables;
    }

    /** `TransactWriteItems`. A failure of the service or the network is `fault`. */
    method TransactWriteItems(items: seq<TransactItem>, fault: Option<ClientError>) returns (r: Outcome<ClientError>)
      modifies this
      ensures fault.Some? ==> r == Fail(fault.value) && tables == old(tables)
      ensures fault.None? ==>
        var w := TransactWrite(old(tables), items);
        if w.Success? then r == Pass && tables == w.value else r == Fail(w.error) && tables == old(tables)
    {
      if fault.Some? {
        return Fail(fault.value);
      }
      var w := TransactWrite(tables, items);
      if w.Failure? {
        return Fail(w.error);
      }
      tables := w.value;
      r := Pass;
    }

    /** `Query` on the journal's aid index for `seq_nr >= from`, ascending. */
    method QueryJournal(tableName: string, aid: string, from: int) returns (r: Result<seq<JournalRecord>, ClientError>, ghost keys: seq<Key>)
      ensures tableName != tables.journalName ==> r == Failure(ServiceException("ResourceNotFoundException"))
      ensures tableName == tables.journalName ==>
        && (forall i :: 0 <= i < |keys| ==> keys[i] in tables.journal)
        && JournalQueryKeys(tables.journal, aid, from, keys)
        && r == Success(JournalRecordsAt(tables.journal, keys))
    {
      keys := [];
      if tableName != tables.journalName {
        return Failure(ServiceException("ResourceNotFoundException")), keys;
      }
      var table := tables.journal;
      var matching := set k | k in table && table[k].aid == aid && table[k].seqNr >= from;
      var sorted := SortKeys(matching, JournalRank(table));
      forall i | 0 <= i < |sorted| ensures sorted[i] in table {
        assert sorted[i] in multiset(sorted);
      }
      keys := sorted;
      r := Success(JournalRecordsAt(table, sorted));
    }

    /** `Query` on the snapshot's aid index for `seq_nr = 0` with `Limit: 1`. */
    method QueryLatestSnapshot(tableName: string, aid: string) returns (r: Result<Option<SnapshotRecord>, ClientError>, ghost key: Option<Key>)
      ensures tableName != tables.snapshotName ==> r == Failure(ServiceException("ResourceNotFoundException"))
      ensures tableName == tables.snapshotName ==>
        && r.Success?
        && (key.None? <==> forall k :: !IsLatestSnapshot(tables.snapshot, aid, k))
        && (key.Some? ==> IsLatestSnapshot(tables.snapshot, aid, key.value) && r.value == Some(tables.snapshot[key.value]))
        && (key.None? ==> r.value == None)
    {
      key := None;
      if tableName != tables.snapshotName {
        return Failure(ServiceException("ResourceNotFoundException")), key;
      }
      var table := tables.snapshot;
      if k :| k in table && table[k].aid == aid && table[k].seqNr == 0 {
        assert IsLatestSnapshot(table, aid, k);
        key := Some(k);
        r := Success(Some(table[k]));
      } else {
        r := Success(None);
      }
    }

    /** `Query` with `Select: COUNT` on the snapshot's aid index. */
    method CountSnapshots(tableName: string, aid: string) returns (r: Result<nat, ClientError>)
      ensures tableName != tables.snapshotName ==> r == Failure(ServiceException("ResourceNotFoundException"))
      ensures tableName == tables.snapshotName ==> r == Success(|SnapshotsOf(tables.snapshot, aid)|)
    {
      if tableName != tables.snapshotName {
        return Failure(ServiceException("ResourceNotFoundException"));
      }
      var table := tables.snapshot;
      var keys := set k | k in table && table[k].aid == aid;
      r := Success(|keys|);
    }

    /** `Query` on the snapshot's aid index for `seq_nr > 0`, descending, with a
        `Limit`, and the filter `ttl = 0` when `ttlZeroOnly`. */
    method QueryHistoricalSnapshotKeys(tableName: string, aid: string, limit: nat, ttlZeroOnly: bool)
      returns (r: Result<seq<Key>, ClientError>, ghost ordered: seq<Key>)
      ensures tableName != tables.snapshotName ==> r == Failure(ServiceException("ResourceNotFoundException"))
      ensures tableName == tables.snapshotName ==>
        && HistoricalEnumeration(tables.snapshot, aid, ordered)
        && r == Success(LimitThenFilter(tables.snapshot, ordered, limit, ttlZeroOnly))
    {
      ordered := [];
      if tableName != tables.snapshotName {
        return Failure(ServiceException("ResourceNotFoundException")), ordered;
      }
      var table := tables.snapshot;
      var matching := set k | k in table && table[k].aid == aid && table[k].seqNr > 0;
      var sorted := SortKeys(matching, DescendingRank(table));
      forall i | 0 <= i < |sorted| ensures sorted[i] in table {
        assert sorted[i] in multiset(sorted);
      }
      ordered := sorted;
      r := Success(LimitThenFilter(table, sorted, limit, ttlZeroOnly));
    }

    /** `UpdateItem` with `SET #ttl = :ttl` on one snapshot item. */
    method UpdateTtl(tableName: string, key: Key, ttl: int) returns (r: Outcome<ClientError>)
      modifies this
      ensures tableName != old(tables).snapshotName ==> r == Fail(ServiceException("ResourceNotFoundException")) && tables == old(tables)
      ensures tableName == old(tables).snapshotName ==> r == Pass && tables == old(tables).(snapshot := SetTtl(old(tables).snapshot, [key], ttl))
    {
      if tableName != tables.snapshotName {
        return Fail(ServiceException("ResourceNotFoundException"));
      }
      if key in tables.snapshot {
        tables := tables.(snapshot := tables.snapshot[key := tables.snapshot[key].(ttl := ttl)]);
      }
      r := Pass;
    }

    /** `BatchWriteItem` with one `DeleteRequest` per key on the snapshot table. */
    method BatchDelete(tableName: string, keys: seq<Key>) returns (r: Outcome<ClientError>)
      modifies this
      ensures tableName != old(tables).snapshotName ==> r == Fail(ServiceException("ResourceNotFoundException")) && tables == old(tables)
      ensures tableName == old(tables).snapshotName ==>
        r == Pass && tables == old(tables).(snapshot := old(tables).snapshot - set k | k in keys)
    {
      if tableName != tables.snapshotName {
        return Fail(ServiceException("ResourceNotFoundException"));
      }
      tables := tables.(snapshot := tables.snapshot - set k | k in keys);
      r := Pass;
    }
  }
}
