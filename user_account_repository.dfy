/** The repository of the example domain: writes go straight to the event store,
    and an account is found as its latest snapshot with the later events replayed
    onto it. */
module Repository {
  import opened Types
  import opened UserAccountIds
  import opened UserAccountEvents
  import opened UserAccounts
  import opened IsoDates
  import opened MemoryStore

  /** What `findById` returns for the store contents `s`: nothing without a
      snapshot; otherwise the replay onto the snapshot of the events from the
      snapshot's sequence number + 1 on, or the first error on the way. */
  function FindByIdOn(s: State, id: UserAccountId): (r: Result<Option<UserAccount>, Error>)
    ensures r == Success(None) <==> StoreKey(id) !in s.snapshots
    ensures r.Success? && r.value.Some? ==>
      var snapshot := s.snapshots[StoreKey(id)];
      StoreKey(id) in s.events
      && ReplayFold(SinceSequenceNumber(s.events[StoreKey(id)], snapshot.sequenceNumber + 1), snapshot) == Success(r.value.value)
  {
    var snapshot := QueryLatestSnapshot(StoreKey, s, id);
    if snapshot.None? then Success(None)
    else
      var events := QueryEventsSince(StoreKey, s, id, snapshot.value.sequenceNumber + 1);
      if events.Failure? then Failure(events.error)
      else
        var account := ReplayFold(events.value, snapshot.value);
        if account.Failure? then Failure(account.error) else Success(Some(account.value))
  }

  /** Replaying a rename's event after the history replays to the renamed account,
      whatever version the snapshot is replayed at. */
  lemma ReplayOneMoreRename(since: seq<UserAccountEvent>, snapshot: UserAccount, account: UserAccount, newName: string, eventId: string, t: TimeValue, w: int)
    requires ReplayFold(since, snapshot) == Success(account)
    ensures var (renamed, event) := account.Rename(newName, eventId, t);
      ReplayFold(since + [event], snapshot.WithVersion(w)) == Success(renamed.WithVersion(w))
  {
    var event := account.Rename(newName, eventId, t).1;
    ReplayFoldWithVersion(since + [event], snapshot, w);
    ReplayFoldAppend(since, event, snapshot);
  }

  /** `findById` on a store holding a snapshot and a history for the id. */
  lemma FindByIdOnStored(s: State, id: UserAccountId)
    requires StoreKey(id) in s.snapshots && StoreKey(id) in s.events
    ensures var snapshot := s.snapshots[StoreKey(id)];
      var r := ReplayFold(SinceSequenceNumber(s.events[StoreKey(id)], snapshot.sequenceNumber + 1), snapshot);
      FindByIdOn(s, id) == if r.Failure? then Failure(r.error) else Success(Some(r.value))
  {
  }

  /** `findById` after one more event is appended to the history and the snapshot's
      version is changed: the event joins the replayed history. */
  lemma FindByIdOnAppended(s: State, id: UserAccountId, event: UserAccountEvent, w: int, found: UserAccount)
    requires StoreKey(id) in s.snapshots && StoreKey(id) in s.events
    requires var snapshot := s.snapshots[StoreKey(id)];
      && event.sequenceNumber > snapshot.sequenceNumber
      && ReplayFold(SinceSequenceNumber(s.events[StoreKey(id)], snapshot.sequenceNumber + 1) + [event], snapshot.WithVersion(w)) == Success(found)
    ensures var k := StoreKey(id);
      FindByIdOn(State(s.events[k := s.events[k] + [event]], s.snapshots[k := s.snapshots[k].WithVersion(w)]), id)
        == Success(Some(found))
  {
    var k := StoreKey(id);
    var from := s.snapshots[k].sequenceNumber + 1;
    assert SinceSequenceNumber([event], from) == [event];
    SinceAppend(s.events[k], [event], from);
    var s' := State(s.events[k := s.events[k] + [event]], s.snapshots[k := s.snapshots[k].WithVersion(w)]);
    assert s'.snapshots[k].sequenceNumber + 1 == from;
    assert SinceSequenceNumber(s'.events[k], from) == SinceSequenceNumber(s.events[k], from) + [event];
    FindByIdOnStored(s', id);
  }

  /** Load, rename, store, load: after the rename event is persisted at the version
      the account was loaded with, the account found is the renamed one, one version on. */
  lemma FindByIdAfterRename(s: State, id: UserAccountId, account: UserAccount, newName: string, eventId: string, t: TimeValue)
    requires FindByIdOn(s, id) == Success(Some(account)) && account.id == id
    requires var renamed := account.Rename(newName, eventId, t);
      PersistEventStep(StoreKey, s, renamed.1, account.version).Success?
    ensures var renamed := account.Rename(newName, eventId, t);
      FindByIdOn(PersistEventStep(StoreKey, s, renamed.1, account.version).value, id)
        == Success(Some(renamed.0.WithVersion(account.version + 1)))
  {
    var event := account.Rename(newName, eventId, t).1;
    var k := StoreKey(id);
    var snapshot := s.snapshots[k];
    var w := account.version + 1;
    assert PersistEventStep(StoreKey, s, event, account.version)
        == Success(State(s.events[k := s.events[k] + [event]], s.snapshots[k := snapshot.WithVersion(w)]));
    ReplayOneMoreRename(SinceSequenceNumber(s.events[k], snapshot.sequenceNumber + 1), snapshot, account, newName, eventId, t, w);
    FindByIdOnAppended(s, id, event, w, account.Rename(newName, eventId, t).0.WithVersion(w));
  }

  /** `UserAccountRepository` over the in-memory store. */
  class UserAccountRepository {
    const eventStore: EventStoreForMemory

    constructor(eventStore: EventStoreForMemory)
      ensures this.eventStore == eventStore
    {
      this.eventStore := eventStore;
    }

    /** `storeEvent`: `persistEvent` with the same arguments. */
    method StoreEvent(event: UserAccountEvent, version: int) returns (outcome: Outcome<Error>)
      modifies eventStore
      ensures Applied(PersistEventStep(StoreKey, old(eventStore.Model()), event, version), outcome, old(eventStore.Model()), eventStore.Model())
    {
      outcome := eventStore.PersistEvent(event, version);
    }

    /** `storeEventAndSnapshot`: `persistEventAndSnapshot` with the same arguments. */
    method StoreEventAndSnapshot(event: UserAccountEvent, snapshot: UserAccount) returns (outcome: Outcome<Error>)
      modifies eventStore
      ensures Applied(PersistEventAndSnapshotStep(StoreKey, old(eventStore.Model()), event, snapshot), outcome, old(eventStore.Model()), eventStore.Model())
    {
      outcome := eventStore.PersistEventAndSnapshot(event, snapshot);
    }

    /** `findById`: two reads of the store and a replay; the store is not changed. */
    method FindById(id: UserAccountId) returns (r: Result<Option<UserAccount>, Error>)
      ensures r == FindByIdOn(eventStore.Model(), id)
    {
      ghost var s := eventStore.Model();
      var snapshot := eventStore.GetLatestSnapshotById(id);
      if snapshot.None? {
        return Success(None);
      }
      var events := eventStore.GetEventsByIdSinceSequenceNumber(id, snapshot.value.sequenceNumber + 1);
      assert events == QueryEventsSince(StoreKey, s, id, snapshot.value.sequenceNumber + 1);
      if events.Failure? {
        return Failure(events.error);
      }
      var account := Replay(events.value, snapshot.value);
      if account.Failure? {
        return Failure(account.error);
      }
      r := Success(Some(account.value));
    }
  }

  /** The repository's test: create Alice and store her with the snapshot, rename her
      to Bob and store the rename at the renamed account's version, then find her. */
  function StoreAndFindScenario(s: State, id: UserAccountId, t: TimeValue): Result<Option<UserAccount>, Error> {
    var (account1, created) := Create(id, "Alice", "e1", t);
    var step1 := PersistEventAndSnapshotStep(StoreKey, s, created, account1);
    if step1.Failure? then Failure(step1.error)
    else
      var (account2, renamed) := account1.Rename("Bob", "e2", t);
      var step2 := PersistEventStep(StoreKey, step1.value, renamed, account2.version);
      if step2.Failure? then Failure(step2.error)
      else FindByIdOn(step2.value, id)
  }

  /** For an id the store does not hold yet, the account found is Bob at sequence
      number 2 and version 2. */
  lemma StoreAndFindFindsBob(s: State, id: UserAccountId, t: TimeValue)
    requires StoreKey(id) !in s.events && StoreKey(id) !in s.snapshots
    ensures StoreAndFindScenario(s, id, t) == Success(Some(UserAccount(id, "Bob", 2, 2)))
  {
    var k := StoreKey(id);
    var (account1, created) := Create(id, "Alice", "e1", t);
    var s1 := State(s.events[k := [created]], s.snapshots[k := account1]);
    assert account1.WithVersion(1) == account1;
    assert [] + [created] == [created];
    assert PersistEventAndSnapshotStep(StoreKey, s, created, account1) == Success(s1);
    assert FindByIdOn(s1, id) == Success(Some(account1)) by {
      assert SinceSequenceNumber([created], 2) == [];
    }
    FindByIdAfterRename(s1, id, account1, "Bob", "e2", t);
  }
}
