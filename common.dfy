/** Small wrappers shared by the whole model: an optional value (Python's `None`)
    and the outcome of a step that may raise `KeyError` on an unguarded dict lookup. */
module Common {

  datatype Option<T> = None | Some(value: T)

  /** `KeyError` is the only exception the modelled code lets escape: an
      unguarded `d[k]` on a missing key aborts the whole report run. */
  datatype Outcome<T> = Ok(value: T) | KeyError
}
