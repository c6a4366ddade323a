/** The identity of a user account, the aggregate id of the example domain. */
module UserAccountIds {

  datatype UserAccountId = UserAccountId(value: string) {
    /** The aggregate kind; the same for every user account. */
    const typeName: string := "user-account"

    /** `typeName-value`, the id as one string. */
    function AsString(): (s: string)
      ensures s == "user-account-" + value
    {
      typeName + "-" + value
    }
  }

  /** The JSON object that `JSON.stringify` makes of an id: its two own fields. */
  datatype IdJson = IdJson(typeName: string, value: string)

  function IdToJson(id: UserAccountId): IdJson {
    IdJson(id.typeName, id.value)
  }

  /** Rebuilds an id from its JSON object; only `value` is read. */
  function ConvertJsonToUserAccountId(json: IdJson): (id: UserAccountId)
    ensures id.value == json.value
    ensures forall other: UserAccountId :: IdToJson(other) == json ==> id == other
  {
    UserAccountId(json.value)
  }

  /** Distinct ids have distinct string forms, and equal ids equal ones. */
  lemma AsStringInjective(a: UserAccountId, b: UserAccountId)
    ensures a.AsString() == b.AsString() <==> a == b
  {
    if a.AsString() == b.AsString() {
      var prefix := "user-account-";
      assert a.value == a.AsString()[|prefix|..];
      assert b.value == b.AsString()[|prefix|..];
    }
  }
}
