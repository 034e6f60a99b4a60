/**
 * What the three forms share: the form state is an object of strings keyed
 * by input name, the errors are an object of messages keyed the same way,
 * and typing into an input stores its value and blanks that input's message.
 * The input names of each form are a datatype `K` of its own.
 */
module Forms {

  /** `!s` for a string: only the empty string is falsy. */
  predicate Empty(s: string) {
    s == ""
  }

  /** `Object.keys(errors).length === 0`: the form is valid. */
  predicate NoErrors<K>(e: map<K, string>) {
    |e| == 0
  }

  /**
   * `if (errors[name]) setErrors({ ...errors, [name]: "" })`: a message that
   * is shown is blanked; every other message is kept as it was.
   */
  function ErrorCleared<K>(errors: map<K, string>, name: K): (r: map<K, string>)
    ensures r.Keys == errors.Keys
    ensures name in r ==> r[name] == ""
    ensures forall k :: k in errors && k != name ==> r[k] == errors[k]
  {
    if name in errors && errors[name] != "" then errors[name := ""] else errors
  }

  /** `setFormData({ ...prev, [name]: value })` together with the error clearing. */
  function InputChanged<K>(form: map<K, string>, errors: map<K, string>, name: K, value: string): (r: (map<K, string>, map<K, string>))
    ensures r.0.Keys == form.Keys + {name} && r.0[name] == value
    ensures forall k :: k in form && k != name ==> r.0[k] == form[k]
    ensures r.1 == ErrorCleared(errors, name)
  {
    (form[name := value], ErrorCleared(errors, name))
  }

  /** Editing one input twice in a row leaves the errors as one edit does. */
  lemma ClearingIsIdempotent<K>(errors: map<K, string>, name: K)
    ensures ErrorCleared(ErrorCleared(errors, name), name) == ErrorCleared(errors, name)
  {
  }

  /** Clearing never makes a message appear: whatever is shown afterwards was shown before. */
  lemma ClearingOnlyHides<K>(errors: map<K, string>, name: K)
    ensures forall k :: k in ErrorCleared(errors, name) && ErrorCleared(errors, name)[k] != "" ==>
      k != name && k in errors && errors[k] == ErrorCleared(errors, name)[k]
  {
  }
}
