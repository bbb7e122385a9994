/** The error state holder of the screens: one record saying whether an error
    is shown, its message and an optional code. Writing to the console is left
    out; the thrown value is classified by a datatype. */
module ErrorHandler {
  import opened Optional

  /** The held record; `None` stands for `null`. */
  datatype ErrorState = ErrorState(hasError: bool, message: Option<string>, code: Option<string>)

  /** A value caught by `handleError`: an `Error` instance with its message, a
      string, or anything else. */
  datatype Thrown = ErrorInstance(message: string) | StringValue(value: string) | OtherValue

  /** The message shown for a value that is neither an `Error` nor a string. */
  const UnexpectedMessage: string := "Ha ocurrido un error inesperado"

  /** No error: the initial state, and the state after `clearError`. */
  const Initial: ErrorState := ErrorState(false, None, None)

  /** A record is consistent when a message is held exactly when an error is
      shown, and no code is held without an error. */
  predicate Consistent(s: ErrorState)
  {
    (s.hasError <==> s.message.Some?) && (!s.hasError ==> s.code.None?)
  }

  /** `code || null`: a missing or empty code is held as `null`. */
  function NormalizeCode(code: Option<string>): (r: Option<string>)
    ensures r.Some? <==> code.Some? && code.value != ""
    ensures r.Some? ==> r == code
  {
    if code.Some? && code.value != "" then code else None
  }

  /** The record `setError(message, code)` stores. */
  function Raised(message: string, code: Option<string>): ErrorState
  {
    ErrorState(true, Some(message), NormalizeCode(code))
  }

  /** The message `handleError` shows for a caught value. */
  function MessageFor(e: Thrown): string
  {
    match e
    case ErrorInstance(m) => m
    case StringValue(s) => s
    case OtherValue => UnexpectedMessage
  }

  /** The record `handleError(e)` stores: it calls `setError` without a code. */
  function Handled(e: Thrown): ErrorState
  {
    Raised(MessageFor(e), None)
  }

  /** Every record the hook can hold is consistent. */
  lemma StatesConsistent(message: string, code: Option<string>, e: Thrown)
    ensures Consistent(Initial)
    ensures Consistent(Raised(message, code))
    ensures Consistent(Handled(e))
  {
  }

  /** `setError` always shows the error with the given message; the code is
      kept exactly when it is present and non-empty. */
  lemma RaisedSpec(message: string, code: Option<string>)
    ensures Raised(message, code).hasError
    ensures Raised(message, code).message == Some(message)
    ensures Raised(message, code).code == (if code == Some("") then None else code)
  {
  }

  /** `handleError` takes an `Error`'s message, a string itself, and the fixed
      Spanish message for anything else; the result always shows an error and
      never holds a code. */
  lemma HandledSpec(e: Thrown)
    ensures Handled(e).hasError && Handled(e).code == None
    ensures e.ErrorInstance? ==> Handled(e).message == Some(e.message)
    ensures e.StringValue? ==> Handled(e).message == Some(e.value)
    ensures e.OtherValue? ==> Handled(e).message == Some(UnexpectedMessage)
    ensures Handled(e) == Raised(MessageFor(e), Some(""))
  {
  }

  /** The hook's state. */
  class ErrorHolder {
    var error: ErrorState

    constructor()
      ensures error == Initial
    {
      error := ErrorState(false, None, None);
    }

    method SetError(message: string, code: Option<string>)
      modifies this
      ensures error == Raised(message, code)
      ensures Consistent(error)
    {
      error := ErrorState(true, Some(message), if code.Some? && code.value != "" then code else None);
    }

    /** Back to the initial state; clearing twice is clearing once. */
    method ClearError()
      modifies this
      ensures error == Initial
      ensures Consistent(error)
    {
      error := ErrorState(false, None, None);
    }

    method HandleError(e: Thrown)
      modifies this
      ensures error == Handled(e)
      ensures error.hasError && error.code == None
    {
      if e.ErrorInstance? {
        SetError(e.message, None);
      } else if e.StringValue? {
        SetError(e.value, None);
      } else {
        SetError(UnexpectedMessage, None);
      }
    }
  }
}
