/** The in-memory event store: one list of events and one snapshot per aggregate,
    held in two maps keyed by a string derived from the aggregate id. */
module MemoryStore {
  import opened Types
  import opened UserAccountIds
  import opened UserAccountEvents
  import opened UserAccounts
  import opened IsoDates

  /** The contents of the two maps. */
  datatype State = State(events: map<string, seq<UserAccountEvent>>, snapshots: map<string, UserAccount>)

  /** The key an aggregate is stored under: its id string. */
  function StoreKey(id: UserAccountId): string {
    id.AsString()
  }

  /** The key the source's `key.asString` reads as written: the method object itself,
      which is the same object for every id. */
  function MethodObjectKey(id: UserAccountId): string {
    "asString"
  }

  /** The constructor's re-keying of a map keyed by id into one keyed by id string. */
  function Rekey<V>(m: map<UserAccountId, V>): (r: map<string, V>)
    ensures forall id :: id in m <==> StoreKey(id) in r
    ensures forall id :: id in m ==> r[StoreKey(id)] == m[id]
    ensures forall k :: k in r ==> exists id :: id in m && StoreKey(id) == k
  {
    forall a: UserAccountId, b: UserAccountId ensures StoreKey(a) == StoreKey(b) <==> a == b {
      AsStringInjective(a, b);
    }
    map id | id in m :: StoreKey(id) := m[id]
  }

  /** What the constructor stores for its two initial maps. */
  function Initial(events: map<UserAccountId, seq<UserAccountEvent>>, snapshots: map<UserAccountId, UserAccount>): State {
    State(Rekey(events), Rekey(snapshots))
  }

  /** `persistEvent` on the maps, with `keyOf` the key function. A failure
      leaves the maps as they were; the checks come in the source's order. */
  function PersistEventStep(keyOf: UserAccountId -> string, s: State, event: UserAccountEvent, version: int): (r: Result<State, Error>)
    ensures event.isCreated ==> r == Failure(Error("event is created"))
    ensures var k := keyOf(event.aggregateId);
      !event.isCreated && k !in s.snapshots ==> r == Failure(Error("snapshot is undefined"))
    ensures var k := keyOf(event.aggregateId);
      !event.isCreated && k in s.snapshots && keyOf(s.snapshots[k].id) != k ==>
        r == Failure(Error("aggregateId mismatch: snapshot.id = " + keyOf(s.snapshots[k].id) + ", event.aggregateId = " + k))
    ensures var k := keyOf(event.aggregateId);
      !event.isCreated && k in s.snapshots && keyOf(s.snapshots[k].id) == k && s.snapshots[k].version != version ==>
        r == Failure(Error("version mismatch"))
    ensures var k := keyOf(event.aggregateId);
      r.Success? <==>
        !event.isCreated && k in s.snapshots && keyOf(s.snapshots[k].id) == k
        && s.snapshots[k].version == version && k in s.events
    ensures var k := keyOf(event.aggregateId);
      !event.isCreated && k in s.snapshots && keyOf(s.snapshots[k].id) == k
      && s.snapshots[k].version == version && k !in s.events ==>
        r == Failure(Error("events is undefined"))
    ensures var k := keyOf(event.aggregateId);
      r.Success? ==>
        && r.value.events == s.events[k := s.events[k] + [event]]
        && r.value.snapshots == s.snapshots[k := s.snapshots[k].WithVersion(version + 1)]
  {
    var k := keyOf(event.aggregateId);
    if event.isCreated then Failure(Error("event is created"))
    else if k !in s.snapshots then Failure(Error("snapshot is undefined"))
    else
      var snapshot := s.snapshots[k];
      if keyOf(snapshot.id) != k then
        Failure(Error("aggregateId mismatch: snapshot.id = " + keyOf(snapshot.id) + ", event.aggregateId = " + k))
      else if snapshot.version != version then Failure(Error("version mismatch"))
      else if k !in s.events then Failure(Error("events is undefined"))
      else Success(State(s.events[k := s.events[k] + [event]], s.snapshots[k := snapshot.WithVersion(snapshot.version + 1)]))
  }

  /** `persistEventAndSnapshot` on the maps. A missing list counts as empty and a
      missing snapshot as the given aggregate. A creation event stores the snapshot
      at version 1 without any version check; any other event needs the stored
      version to equal the aggregate's and stores it one higher. Either way the
      stored snapshot's fields other than the version are kept. */
  function PersistEventAndSnapshotStep(keyOf: UserAccountId -> string, s: State, event: UserAccountEvent, aggregate: UserAccount): (r: Result<State, Error>)
    ensures keyOf(event.aggregateId) != keyOf(aggregate.id) ==>
      r == Failure(Error("aggregateId mismatch: expected " + keyOf(event.aggregateId) + ", got " + keyOf(aggregate.id)))
    ensures var k := keyOf(event.aggregateId);
      var stored := if k in s.snapshots then s.snapshots[k] else aggregate;
      r.Success? <==> k == keyOf(aggregate.id) && (event.isCreated || stored.version == aggregate.version)
    ensures var k := keyOf(event.aggregateId);
      var stored := if k in s.snapshots then s.snapshots[k] else aggregate;
      k == keyOf(aggregate.id) && !event.isCreated && stored.version != aggregate.version ==>
        r == Failure(Error("version mismatch"))
    ensures var k := keyOf(event.aggregateId);
      var stored := if k in s.snapshots then s.snapshots[k] else aggregate;
      r.Success? ==>
        && r.value.events == s.events[k := (if k in s.events then s.events[k] else []) + [event]]
        && r.value.snapshots == s.snapshots[k := stored.WithVersion(if event.isCreated then 1 else stored.version + 1)]
  {
    var k := keyOf(event.aggregateId);
    if k != keyOf(aggregate.id) then
      Failure(Error("aggregateId mismatch: expected " + k + ", got " + keyOf(aggregate.id)))
    else
      var events := if k in s.events then s.events[k] else [];
      var snapshot := if k in s.snapshots then s.snapshots[k] else aggregate;
      if !event.isCreated && snapshot.version != aggregate.version then Failure(Error("version mismatch"))
      else
        var newVersion := if event.isCreated then 1 else snapshot.version + 1;
        Success(State(s.events[k := events + [event]], s.snapshots[k := snapshot.WithVersion(newVersion)]))
  }

  /** The events whose sequence number is at least `n`, in their stored order. */
  function SinceSequenceNumber(events: seq<UserAccountEvent>, n: int): (r: seq<UserAccountEvent>)
    ensures |r| <= |events|
    decreases |events|
  {
    if events == [] then []
    else
      var rest := SinceSequenceNumber(events[..|events| - 1], n);
      var last := events[|events| - 1];
      if last.sequenceNumber >= n then rest + [last] else rest
  }

  /** The filter keeps exactly the events whose sequence number is at least `n`. */
  lemma {:induction false} SinceSequenceNumberMembers(events: seq<UserAccountEvent>, n: int)
    ensures forall e :: e in SinceSequenceNumber(events, n) <==> e in events && e.sequenceNumber >= n
    decreases |events|
  {
    if events != [] {
      var prefix := events[..|events| - 1];
      SinceSequenceNumberMembers(prefix, n);
      assert events == prefix + [events[|events| - 1]];
    }
  }

  /** The filter distributes over concatenation, so it keeps the stored order. */
  lemma {:induction false} SinceAppend(a: seq<UserAccountEvent>, b: seq<UserAccountEvent>, n: int)
    ensures SinceSequenceNumber(a + b, n) == SinceSequenceNumber(a, n) + SinceSequenceNumber(b, n)
    decreases |b|
  {
    if b == [] {
      assert a + b == a;
    } else {
      var b' := b[..|b| - 1];
      assert (a + b)[..|a + b| - 1] == a + b';
      assert (a + b)[|a + b| - 1] == b[|b| - 1];
      SinceAppend(a, b', n);
    }
  }

  /** `getEventsByIdSinceSequenceNumber` on the maps: an error for an id without a list. */
  function QueryEventsSince(keyOf: UserAccountId -> string, s: State, id: UserAccountId, n: int): (r: Result<seq<UserAccountEvent>, Error>)
    ensures r.Success? <==> keyOf(id) in s.events
    ensures r.Failure? ==> r.error == Error("events is undefined")
  {
    var k := keyOf(id);
    if k in s.events then Success(SinceSequenceNumber(s.events[k], n)) else Failure(Error("events is undefined"))
  }

  /** `getLatestSnapshotById` on the maps. */
  function QueryLatestSnapshot(keyOf: UserAccountId -> string, s: State, id: UserAccountId): (r: Option<UserAccount>)
    ensures r.Some? <==> keyOf(id) in s.snapshots
    ensures r.Some? ==> r.value == s.snapshots[keyOf(id)]
  {
    var k := keyOf(id);
    if k in s.snapshots then Some(s.snapshots[k]) else None
  }

  /** The store's invariant when keyed by id string: every stored snapshot sits under
      its own id's key and has an event list beside it. */
  ghost predicate Consistent(s: State) {
    && (forall k :: k in s.snapshots ==> StoreKey(s.snapshots[k].id) == k)
    && s.snapshots.Keys <= s.events.Keys
  }

  /** A store built from maps whose snapshots sit under their own ids, each with an
      event list, is consistent; the empty store in particular. */
  lemma InitialConsistent(events: map<UserAccountId, seq<UserAccountEvent>>, snapshots: map<UserAccountId, UserAccount>)
    requires forall id :: id in snapshots ==> snapshots[id].id == id && id in events
    ensures Consistent(Initial(events, snapshots))
  {
    var s := Initial(events, snapshots);
    forall k | k in s.snapshots ensures StoreKey(s.snapshots[k].id) == k && k in s.events {
      var id :| id in snapshots && StoreKey(id) == k;
    }
  }

  /** Both writes keep the invariant. */
  lemma PersistPreservesConsistent(s: State, event: UserAccountEvent, version: int, aggregate: UserAccount)
    requires Consistent(s)
    ensures var r := PersistEventStep(StoreKey, s, event, version); r.Success? ==> Consistent(r.value)
    ensures var r := PersistEventAndSnapshotStep(StoreKey, s, event, aggregate); r.Success? ==> Consistent(r.value)
  {
  }

  /** In a consistent store `persistEvent` succeeds exactly when the event is not a
      creation, a snapshot is stored and its version is the one given: the id
      mismatch and the missing list cannot arise. */
  lemma PersistEventOnConsistent(s: State, event: UserAccountEvent, version: int)
    requires Consistent(s)
    ensures var k := StoreKey(event.aggregateId);
      PersistEventStep(StoreKey, s, event, version).Success? <==>
        !event.isCreated && k in s.snapshots && s.snapshots[k].version == version
  {
  }

  /** Read after `persistEvent`: the event is at the end of its aggregate's
      history and the snapshot is one version on. */
  lemma ReadAfterPersistEvent(s: State, event: UserAccountEvent, version: int, n: int)
    requires PersistEventStep(StoreKey, s, event, version).Success?
    ensures var s' := PersistEventStep(StoreKey, s, event, version).value;
      var k := StoreKey(event.aggregateId);
      && QueryEventsSince(StoreKey, s', event.aggregateId, n)
           == Success(SinceSequenceNumber(s.events[k], n) + (if event.sequenceNumber >= n then [event] else []))
      && QueryLatestSnapshot(StoreKey, s', event.aggregateId) == Some(s.snapshots[k].WithVersion(version + 1))
  {
    SinceAppend(s.events[StoreKey(event.aggregateId)], [event], n);
  }

  /** The optimistic lock: once an event has been persisted at `version`, a second
      event for the same aggregate at that version is refused and changes nothing. */
  lemma PersistEventAtStaleVersionFails(s: State, first: UserAccountEvent, version: int, second: UserAccountEvent)
    requires PersistEventStep(StoreKey, s, first, version).Success?
    requires second.aggregateId == first.aggregateId && !second.isCreated
    ensures PersistEventStep(StoreKey, PersistEventStep(StoreKey, s, first, version).value, second, version)
         == Failure(Error("version mismatch"))
  {
  }

  /** The same lock on the update path of `persistEventAndSnapshot`: an aggregate
      still carrying the version that was just superseded is refused. */
  lemma PersistSnapshotAtStaleVersionFails(s: State, first: UserAccountEvent, version: int, second: UserAccountEvent, aggregate: UserAccount)
    requires PersistEventStep(StoreKey, s, first, version).Success?
    requires second.aggregateId == first.aggregateId && aggregate.id == first.aggregateId
    requires !second.isCreated && aggregate.version == version
    ensures PersistEventAndSnapshotStep(StoreKey, PersistEventStep(StoreKey, s, first, version).value, second, aggregate)
         == Failure(Error("version mismatch"))
  {
  }

  /** Persisting a creation event leaves version 1 stored, whatever was there. */
  lemma CreationStoresVersionOne(s: State, event: UserAccountEvent, aggregate: UserAccount)
    requires event.isCreated && event.aggregateId == aggregate.id
    ensures var r := PersistEventAndSnapshotStep(StoreKey, s, event, aggregate);
      r.Success? && QueryLatestSnapshot(StoreKey, r.value, aggregate.id).Some?
      && QueryLatestSnapshot(StoreKey, r.value, aggregate.id).value.version == 1
  {
  }

  /** Writes for one aggregate leave every other aggregate's reads as they were. */
  lemma OtherAggregatesUnaffected(s: State, event: UserAccountEvent, version: int, aggregate: UserAccount, other: UserAccountId, n: int)
    requires other != event.aggregateId
    ensures var r := PersistEventStep(StoreKey, s, event, version);
      r.Success? ==>
        QueryEventsSince(StoreKey, r.value, other, n) == QueryEventsSince(StoreKey, s, other, n)
        && QueryLatestSnapshot(StoreKey, r.value, other) == QueryLatestSnapshot(StoreKey, s, other)
    ensures var r := PersistEventAndSnapshotStep(StoreKey, s, event, aggregate);
      r.Success? ==>
        QueryEventsSince(StoreKey, r.value, other, n) == QueryEventsSince(StoreKey, s, other, n)
        && QueryLatestSnapshot(StoreKey, r.value, other) == QueryLatestSnapshot(StoreKey, s, other)
  {
    AsStringInjective(other, event.aggregateId);
  }

  /** The outcome a store method reports and the state it leaves for a step result. */
  predicate Applied(r: Result<State, Error>, outcome: Outcome<Error>, before: State, after: State) {
    if r.Success? then outcome == Pass && after == r.value else outcome == Fail(r.error) && after == before
  }

  /** `EventStoreForMemory`, keyed by id string. */
  class EventStoreForMemory {
    var events: map<string, seq<UserAccountEvent>>
    var snapshots: map<string, UserAccount>

    function Model(): State
      reads this
    {
      State(events, snapshots)
    }

    /** Copies the initial maps, re-keyed by id string. */
    constructor(initialEvents: map<UserAccountId, seq<UserAccountEvent>>, initialSnapshots: map<UserAccountId, UserAccount>)
      ensures Model() == Initial(initialEvents, initialSnapshots)
    {
      events := Rekey(initialEvents);
      snapshots := Rekey(initialSnapshots);
    }

    method PersistEvent(event: UserAccountEvent, version: int) returns (outcome: Outcome<Error>)
      modifies this
      ensures Applied(PersistEventStep(StoreKey, old(Model()), event, version), outcome, old(Model()), Model())
    {
      if event.isCreated {
        return Fail(Error("event is created"));
      }
      var key := event.aggregateId.AsString();
      if key !in snapshots {
        return Fail(Error("snapshot is undefined"));
      }
      var snapshot := snapshots[key];
      if snapshot.id.AsString() != key {
        return Fail(Error("aggregateId mismatch: snapshot.id = " + snapshot.id.AsString() + ", event.aggregateId = " + key));
      }
      if snapshot.version != version {
        return Fail(Error("version mismatch"));
      }
      if key !in events {
        return Fail(Error("events is undefined"));
      }
      var list := events[key];
      events := events[key := list + [event]];
      var newVersion := snapshot.version + 1;
      snapshots := snapshots[key := snapshot.WithVersion(newVersion)];
      outcome := Pass;
    }

    method PersistEventAndSnapshot(event: UserAccountEvent, aggregate: UserAccount) returns (outcome: Outcome<Error>)
      modifies this
      ensures Applied(PersistEventAndSnapshotStep(StoreKey, old(Model()), event, aggregate), outcome, old(Model()), Model())
    {
      var key := event.aggregateId.AsString();
      if key != aggregate.id.AsString() {
        return Fail(Error("aggregateId mismatch: expected " + key + ", got " + aggregate.id.AsString()));
      }
      var list := if key in events then events[key] else [];
      var snapshot := if key in snapshots then snapshots[key] else aggregate;
      var newVersion := 1;
      if !event.isCreated {
        if snapshot.version != aggregate.version {
          return Fail(Error("version mismatch"));
        }
        newVersion := snapshot.version + 1;
      }
      events := events[key := list + [event]];
      snapshots := snapshots[key := snapshot.WithVersion(newVersion)];
      outcome := Pass;
    }

    method GetEventsByIdSinceSequenceNumber(id: UserAccountId, sequenceNumber: int) returns (r: Result<seq<UserAccountEvent>, Error>)
      ensures r == QueryEventsSince(StoreKey, Model(), id, sequenceNumber)
    {
      var key := id.AsString();
      if key !in events {
        return Failure(Error("events is undefined"));
      }
      r := Success(SinceSequenceNumber(events[key], sequenceNumber));
    }

    method GetLatestSnapshotById(id: UserAccountId) returns (r: Option<UserAccount>)
      ensures r == QueryLatestSnapshot(StoreKey, Model(), id)
    {
      var key := id.AsString();
      r := if key in snapshots then Some(snapshots[key]) else None;
    }
  }

  /** The second scenario of the store's tests, run on the maps with key function
      `keyOf` and starting from `s`: create Alice, persist with the snapshot, rename
      to Bob, persist the rename at the renamed account's version, then replay the
      events after the latest snapshot onto it. */
  function RenameScenario(keyOf: UserAccountId -> string, s: State, id: UserAccountId, t: TimeValue): Result<UserAccount, Error> {
    var (account1, created) := Create(id, "Alice", "e1", t);
    var step1 := PersistEventAndSnapshotStep(keyOf, s, created, account1);
    if step1.Failure? then Failure(step1.error)
    else
      var (account2, renamed) := account1.Rename("Bob", "e2", t);
      var step2 := PersistEventStep(keyOf, step1.value, renamed, account2.version);
      if step2.Failure? then Failure(step2.error)
      else
        var latest := QueryLatestSnapshot(keyOf, step2.value, id);
        if latest.None? then Failure(Error("latestSnapshot is undefined"))
        else
          var events := QueryEventsSince(keyOf, step2.value, id, latest.value.sequenceNumber + 1);
          if events.Failure? then Failure(events.error)
          else ReplayFold(events.value, latest.value)
  }

  /** Keyed by id string, the scenario gives the account the tests expect, for an
      id that the store does not hold yet. */
  lemma RenameScenarioReplaysRename(s: State, id: UserAccountId, t: TimeValue)
    requires StoreKey(id) !in s.events && StoreKey(id) !in s.snapshots
    ensures RenameScenario(StoreKey, s, id, t) == Success(UserAccount(id, "Bob", 2, 2))
  {
    var k := StoreKey(id);
    var (account1, created) := Create(id, "Alice", "e1", t);
    var s1 := State(s.events[k := [created]], s.snapshots[k := account1]);
    assert account1.WithVersion(1) == account1;
    assert [] + [created] == [created];
    assert PersistEventAndSnapshotStep(StoreKey, s, created, account1) == Success(s1);
    var (account2, renamed) := account1.Rename("Bob", "e2", t);
    var s2 := State(s1.events[k := [created] + [renamed]], s1.snapshots[k := account1.WithVersion(2)]);
    assert PersistEventStep(StoreKey, s1, renamed, account2.version) == Success(s2);
    assert QueryLatestSnapshot(StoreKey, s2, id) == Some(UserAccount(id, "Alice", 1, 2));
    assert SinceSequenceNumber([created], 2) == [];
    assert SinceSequenceNumber([renamed], 2) == [renamed];
    SinceAppend([created], [renamed], 2);
    assert QueryEventsSince(StoreKey, s2, id, 2) == Success([renamed]);
    assert ReplayFold([renamed], UserAccount(id, "Alice", 1, 2)) == Success(UserAccount(id, "Bob", 2, 2));
  }

  /** The two tests of the store share one store: the first creates id "1" and the
      second then runs the rename scenario for id "2". */
  function SharedStoreScenario(keyOf: UserAccountId -> string): Result<UserAccount, Error> {
    var first := Create(UserAccountId("1"), "Alice", "e0", 0);
    var s := PersistEventAndSnapshotStep(keyOf, State(map[], map[]), first.1, first.0);
    if s.Failure? then Failure(s.error) else RenameScenario(keyOf, s.value, UserAccountId("2"), 0)
  }

  /** As written, every id reads the same `asString` method object as its key, so the
      second test's aggregate lands on the first one's entries and its replay comes
      back with id "1" instead of "2". */
  lemma MethodObjectKeyMixesAggregates()
    ensures SharedStoreScenario(MethodObjectKey).Success?
    ensures SharedStoreScenario(MethodObjectKey).value.id == UserAccountId("1")
  {
    var key := "asString";
    var (account1, created1) := Create(UserAccountId("1"), "Alice", "e0", 0);
    var (account2, created2) := Create(UserAccountId("2"), "Alice", "e1", 0);
    var (renamedAccount, renamed) := account2.Rename("Bob", "e2", 0);
    assert account1.WithVersion(1) == account1;
    assert [] + [created1] == [created1];
    var s1 := State(map[key := [created1]], map[key := account1]);
    assert PersistEventAndSnapshotStep(MethodObjectKey, State(map[], map[]), created1, account1) == Success(s1);
    var s2 := State(s1.events[key := [created1] + [created2]], s1.snapshots[key := account1]);
    assert PersistEventAndSnapshotStep(MethodObjectKey, s1, created2, account2) == Success(s2);
    var s3 := State(s2.events[key := [created1] + [created2] + [renamed]], s2.snapshots[key := account1.WithVersion(2)]);
    assert PersistEventStep(MethodObjectKey, s2, renamed, renamedAccount.version) == Success(s3);
    assert SinceSequenceNumber([created1] + [created2], 2) == [] by {
      assert SinceSequenceNumber([created1], 2) == [];
      assert ([created1] + [created2])[..1] == [created1];
    }
    SinceAppend([created1] + [created2], [renamed], 2);
    assert SinceSequenceNumber([renamed], 2) == [renamed];
    assert QueryEventsSince(MethodObjectKey, s3, UserAccountId("2"), 2) == Success([renamed]);
    assert ReplayFold([renamed], account1.WithVersion(2)) == Success(UserAccount(UserAccountId("1"), "Bob", 2, 2));
  }

  /** Keyed by id string, the shared store gives the second test its own aggregate back. */
  lemma StoreKeySeparatesAggregates()
    ensures SharedStoreScenario(StoreKey) == Success(UserAccount(UserAccountId("2"), "Bob", 2, 2))
  {
    var first := Create(UserAccountId("1"), "Alice", "e0", 0);
    var s := PersistEventAndSnapshotStep(StoreKey, State(map[], map[]), first.1, first.0).value;
    AsStringInjective(UserAccountId("1"), UserAccountId("2"));
    RenameScenarioReplaysRename(s, UserAccountId("2"), 0);
  }
}
