/** The user-account aggregate of the example domain: its immutable updates,
    the commands that emit events, and the replay that folds rename events
    onto a snapshot. */
module UserAccounts {
  import opened Types
  import opened UserAccountIds
  import opened UserAccountEvents
  import opened IsoDates

  /** A user account. Every update builds a new value. */
  datatype UserAccount = UserAccount(id: UserAccountId, name: string, sequenceNumber: int, version: int) {
    const typeName: string := "UserAccount"

    /** The same account with the sequence number one higher. */
    function IncrementSequenceNumber(): (a: UserAccount)
      ensures a.sequenceNumber == sequenceNumber + 1
      ensures a.id == id && a.name == name && a.version == version
    {
      UserAccount(id, name, sequenceNumber + 1, version)
    }

    /** The same account at version `v`. */
    function WithVersion(v: int): (a: UserAccount)
      ensures a.version == v
      ensures a.id == id && a.name == name && a.sequenceNumber == sequenceNumber
    {
      UserAccount(id, name, sequenceNumber, v)
    }

    /** The same account with its version mapped through `f`. */
    function UpdateVersion(f: int -> int): (a: UserAccount)
      ensures a.version == f(version)
      ensures a.id == id && a.name == name && a.sequenceNumber == sequenceNumber
    {
      UserAccount(id, name, sequenceNumber, f(version))
    }

    /** `rename`: the renamed account, one sequence number on, and the event that
        records the rename. The event id (`ulid()`) and the time (`new Date()`)
        are supplied by the caller. */
    function Rename(newName: string, eventId: string, occurredAt: TimeValue): (r: (UserAccount, UserAccountEvent))
      ensures r.0.name == newName && r.0.sequenceNumber == sequenceNumber + 1
      ensures r.0.id == id && r.0.version == version
      ensures r.1 == UserAccountRenamed(eventId, id, newName, r.0.sequenceNumber, Instant(occurredAt))
    {
      var renamed := UserAccount(id, newName, sequenceNumber + 1, version);
      (renamed, UserAccountRenamed(eventId, id, newName, renamed.sequenceNumber, Instant(occurredAt)))
    }

    /** `applyEvent`: a rename event renames the account; any other event is refused.
        The event `rename` makes along the way is dropped, so its id and time do not matter. */
    function ApplyEvent(event: UserAccountEvent): (r: Result<UserAccount, Error>)
      ensures r.Success? <==> event.UserAccountRenamed?
      ensures r.Failure? ==> r.error == Error("Unknown event type")
      ensures r.Success? ==>
        r.value.name == event.name && r.value.sequenceNumber == sequenceNumber + 1
        && r.value.id == id && r.value.version == version
    {
      if event.UserAccountRenamed? then Success(Rename(event.name, event.id, 0).0)
      else Failure(Error("Unknown event type"))
    }
  }

  /** `UserAccount.create`: a new account at sequence number 1 and version 1,
      and the creation event, which carries the same id, name and sequence number. */
  function Create(id: UserAccountId, name: string, eventId: string, occurredAt: TimeValue): (r: (UserAccount, UserAccountEvent))
    ensures r.0.id == id && r.0.name == name && r.0.sequenceNumber == 1 && r.0.version == 1
    ensures r.1 == UserAccountCreated(eventId, id, name, 1, Instant(occurredAt))
  {
    var account := UserAccount(id, name, 0, 1).IncrementSequenceNumber();
    (account, UserAccountCreated(eventId, id, name, account.sequenceNumber, Instant(occurredAt)))
  }

  predicate AllRenames(events: seq<UserAccountEvent>) {
    forall i :: 0 <= i < |events| ==> events[i].UserAccountRenamed?
  }

  /** What `replay` computes: the events applied one after another to the snapshot,
      stopping at the first one `applyEvent` refuses. It succeeds exactly when every
      event is a rename; each rename then advances the sequence number by one (the
      event's own sequence number is not read), keeps id and version, and the last
      one decides the name. */
  function ReplayFold(events: seq<UserAccountEvent>, acc: UserAccount): (r: Result<UserAccount, Error>)
    ensures r.Success? <==> AllRenames(events)
    ensures r.Failure? ==> r.error == Error("Unknown event type")
    ensures r.Success? ==>
      && r.value.id == acc.id
      && r.value.version == acc.version
      && r.value.sequenceNumber == acc.sequenceNumber + |events|
      && r.value.name == (if events == [] then acc.name else events[|events| - 1].name)
    ensures events == [] ==> r == Success(acc)
    decreases |events|
  {
    if events == [] then Success(acc)
    else
      var step := acc.ApplyEvent(events[0]);
      if step.Failure? then Failure(step.error)
      else
        var rest := ReplayFold(events[1..], step.value);
        assert AllRenames(events) <==> events[0].UserAccountRenamed? && AllRenames(events[1..]) by {
          if events[0].UserAccountRenamed? && AllRenames(events[1..]) {
            forall i | 0 < i < |events| ensures events[i].UserAccountRenamed? {
              assert events[i] == events[1..][i - 1];
            }
          }
        }
        rest
  }

  /** `UserAccount.replay`: the source's loop over the events, which computes `ReplayFold`. */
  method Replay(events: seq<UserAccountEvent>, snapshot: UserAccount) returns (r: Result<UserAccount, Error>)
    ensures r == ReplayFold(events, snapshot)
  {
    var acc := snapshot;
    for i := 0 to |events|
      invariant ReplayFold(events, snapshot) == ReplayFold(events[i..], acc)
    {
      assert events[i..][1..] == events[i + 1..];
      var step := acc.ApplyEvent(events[i]);
      if step.Failure? {
        return Failure(step.error);
      }
      acc := step.value;
    }
    assert events[|events|..] == [];
    r := Success(acc);
  }

  /** Replaying one more event is replaying the prefix, then applying that event. */
  lemma {:induction false} ReplayFoldAppend(events: seq<UserAccountEvent>, event: UserAccountEvent, acc: UserAccount)
    ensures ReplayFold(events + [event], acc) ==
      (var prefix := ReplayFold(events, acc); if prefix.Failure? then prefix else prefix.value.ApplyEvent(event))
    decreases |events|
  {
    if events == [] {
      assert [event][1..] == [];
    } else {
      var step := acc.ApplyEvent(events[0]);
      assert (events + [event])[0] == events[0];
      assert (events + [event])[1..] == events[1..] + [event];
      if step.Success? {
        ReplayFoldAppend(events[1..], event, step.value);
      }
    }
  }

  /** Replay never reads the version, so replaying onto a snapshot at another
      version gives the same account at that version. */
  lemma {:induction false} ReplayFoldWithVersion(events: seq<UserAccountEvent>, acc: UserAccount, v: int)
    ensures var r := ReplayFold(events, acc);
      ReplayFold(events, acc.WithVersion(v)) == if r.Failure? then r else Success(r.value.WithVersion(v))
    decreases |events|
  {
    if events != [] {
      var step := acc.ApplyEvent(events[0]);
      if step.Success? {
        assert acc.WithVersion(v).ApplyEvent(events[0]) == Success(step.value.WithVersion(v));
        ReplayFoldWithVersion(events[1..], step.value, v);
      }
    }
  }

  /** The event `rename` emits reproduces the renamed account when applied to the
      account it came from, so replaying a history of renames rebuilds the state. */
  lemma RenameEventReplays(account: UserAccount, newName: string, eventId: string, occurredAt: TimeValue)
    ensures var (renamed, event) := account.Rename(newName, eventId, occurredAt);
            ReplayFold([event], account) == Success(renamed)
  {
  }

  /** The creation event is not something `replay` can fold: history is replayed
      onto a snapshot, never from the creation event. */
  lemma ReplayRefusesCreation(events: seq<UserAccountEvent>, account: UserAccount, id: UserAccountId, name: string, eventId: string, occurredAt: TimeValue)
    requires Create(id, name, eventId, occurredAt).1 in events
    ensures ReplayFold(events, account) == Failure(Error("Unknown event type"))
  {
    var i :| 0 <= i < |events| && events[i] == Create(id, name, eventId, occurredAt).1;
    assert !events[i].UserAccountRenamed?;
  }

  /** `updateVersion(f)` is `withVersion(f(version))`. */
  lemma UpdateVersionIsWithVersion(account: UserAccount, f: int -> int)
    ensures account.UpdateVersion(f) == account.WithVersion(f(account.version))
  {
  }

  /** The JSON object `JSON.stringify` makes of an account: its own fields. */
  datatype AccountData = AccountData(typeName: string, id: IdJson, name: string, sequenceNumber: int, version: int)

  /** The envelope the JSON snapshot serializer writes: `{type, data}`. */
  datatype AccountJson = AccountJson(tag: string, data: AccountData)

  function AccountToJson(account: UserAccount): (json: AccountJson)
    ensures json.tag == "UserAccount"
  {
    AccountJson(account.typeName, AccountData(account.typeName, IdToJson(account.id), account.name, account.sequenceNumber, account.version))
  }

  /** `convertJSONToUserAccount`: the account rebuilt from the data's id, name,
      sequence number and version; the tag is not read. */
  function ConvertJsonToUserAccount(json: AccountJson): (account: UserAccount)
    ensures account.id == ConvertJsonToUserAccountId(json.data.id)
    ensures account.name == json.data.name
    ensures account.sequenceNumber == json.data.sequenceNumber
    ensures account.version == json.data.version
  {
    UserAccount(ConvertJsonToUserAccountId(json.data.id), json.data.name, json.data.sequenceNumber, json.data.version)
  }

  /** Converting the envelope of an account gives the account back. */
  lemma AccountJsonRoundTrip(account: UserAccount)
    ensures ConvertJsonToUserAccount(AccountToJson(account)) == account
  {
    assert ConvertJsonToUserAccountId(IdToJson(account.id)) == account.id;
  }
}
