/**
 * The validation ledger `errors: Record<string, string>` the wizard keeps:
 * field key to message, where "" means the field passed.
 */
module Ledger {

  type Errors = map<string, string>

  /** `{ ...errors, [field]: error }`: the edited key is replaced, a valid value writes "" and keeps the key. */
  function Record(errors: Errors, field: string, error: string): (r: Errors)
    ensures r.Keys == errors.Keys + {field}
    ensures r[field] == error
    ensures forall k :: k in errors && k != field ==> r[k] == errors[k]
  {
    errors[field := error]
  }

  /** `!Object.values(errors).some((error) => error !== "")` */
  predicate NoActiveErrors(errors: Errors) {
    forall k :: k in errors ==> errors[k] == ""
  }

  /** `Object.keys(errors).length > 0` */
  predicate HasAnyKey(errors: Errors) {
    |errors| > 0
  }

  /** Recording "" keeps a clear ledger clear; recording a message makes it unclear. */
  lemma RecordDecidesClearance(errors: Errors, field: string, error: string)
    ensures NoActiveErrors(errors) && error == "" ==> NoActiveErrors(Record(errors, field, error))
    ensures error != "" ==> !NoActiveErrors(Record(errors, field, error))
  {
  }

  /** After any recorded edit, valid or not, the ledger has a key. */
  lemma RecordLeavesAKey(errors: Errors, field: string, error: string)
    ensures HasAnyKey(Record(errors, field, error))
  {
    assert field in Record(errors, field, error);
  }
}
