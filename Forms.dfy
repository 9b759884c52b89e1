/** The state shared by the three form screens: `errors` is a plain object
    from field name to message, and `handleInputChange` edits one field of
    `formData` and one entry of `errors`. */
module Forms {

  /** `errors[field]` is truthy: the key is present with a non-empty message.
      A cleared error keeps its key with the value `''`. */
  predicate ErrorShown<K>(errors: map<K, string>, field: K) {
    field in errors && errors[field] != ""
  }

  /** The `errors` update of `handleInputChange`: the field's message becomes
      `''` when one was shown; nothing else changes and no key is added or
      removed. */
  function ClearError<K>(errors: map<K, string>, field: K): (e: map<K, string>)
    ensures e.Keys == errors.Keys
    ensures !ErrorShown(e, field)
    ensures forall f :: f in errors && f != field ==> e[f] == errors[f]
    ensures !ErrorShown(errors, field) ==> e == errors
  {
    if ErrorShown(errors, field) then errors[field := ""] else errors
  }

  /** How `handleSubmit` ends: it stops at validation, or it reaches the
      success alert with the given message. */
  datatype SubmitOutcome = ValidationFailed | Succeeded(message: string)
}
