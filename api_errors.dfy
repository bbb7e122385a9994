/** Error records of the backend wrapper: which errors are worth retrying, the
    table of user-facing messages, and the normalisation `handleApiError`
    applies before returning or throwing an error. Console and audit logging
    are left out; whether an error is security-relevant is computed. */
module ApiErrors {
  import opened Optional
  import Text

  /** An error object. Every use of its fields tests their truthiness or
      compares them with non-empty constants, so a missing field is held as
      its falsy value: "" for the strings, 0 for the status. The caught value
      itself is an `Option<ApiError>`, `None` standing for null or undefined. */
  datatype ApiError = ApiError(code: string, message: string, status: int, details: string)

  /** The codes retried whatever the message and status. */
  const RetryableCodes: set<string> := {"network/timeout", "network/offline", "general/server-error", "PGRST116"}

  /** The words that mark a message as a connectivity problem. */
  const RetryableWords: seq<string> := ["network", "timeout", "connection"]

  /** `isRetryableError`: network codes or a message mentioning the network,
      a timeout or the connection; then a 5xx status; then two server codes. */
  predicate IsRetryable(error: Option<ApiError>)
  {
    if error.None? then false
    else
      var e := error.value;
      if e.code == "network/timeout" || e.code == "network/offline"
         || Text.Contains(e.message, "network") || Text.Contains(e.message, "timeout")
         || Text.Contains(e.message, "connection") then true
      else if e.status != 0 && e.status >= 500 && e.status < 600 then true
      else if e.code != "" && e.code in ["general/server-error", "PGRST116"] then true
      else false
  }

  /** The three ways an error qualifies for a retry, as an independent
      characterisation of `IsRetryable`. */
  lemma RetryableSpec(error: Option<ApiError>)
    ensures error.None? ==> !IsRetryable(error)
    ensures error.Some? ==>
      (IsRetryable(error) <==>
        || error.value.code in RetryableCodes
        || (exists i :: 0 <= i < |RetryableWords| && Text.Contains(error.value.message, RetryableWords[i]))
        || 500 <= error.value.status < 600)
  {
    if error.Some? {
      var m := error.value.message;
      assert (exists i :: 0 <= i < |RetryableWords| && Text.Contains(m, RetryableWords[i])) <==>
        Text.Contains(m, RetryableWords[0]) || Text.Contains(m, RetryableWords[1]) || Text.Contains(m, RetryableWords[2]);
    }
  }

  /** `ERROR_CODES`: the user-facing message of each known code. */
  const ErrorCodes: map<string, string> := map[
    "auth/invalid-email" := "The email address is invalid.",
    "auth/user-disabled" := "This user account has been disabled.",
    "auth/user-not-found" := "No user found with this email address.",
    "auth/wrong-password" := "Incorrect password.",
    "auth/email-already-in-use" := "This email is already registered.",
    "auth/weak-password" := "The password is too weak.",
    "auth/invalid-credential" := "The provided credential is invalid.",
    "db/row-level-security" := "You don't have permission to access this data.",
    "db/constraint-violation" := "This operation violates database constraints.",
    "db/not-found" := "The requested data was not found.",
    "storage/unauthorized" := "You don't have permission to access this file.",
    "storage/quota-exceeded" := "Storage quota exceeded.",
    "network/timeout" := "Request timed out. Please check your connection.",
    "network/offline" := "You appear to be offline.",
    "general/server-error" := "A server error occurred. Please try again later.",
    "general/unknown" := "An unknown error occurred."
  ]

  /** The code given to an error without one. */
  const UnknownCode: string := "general/unknown"

  /** The default of `customMessage`. */
  const DefaultCustomMessage: string := "Error in operation"

  /** The record `handleApiError` builds (its `error: true` flag is implicit). */
  datatype Processed = Processed(message: string, code: string, status: int, details: Option<string>)

  /** Returned to the caller, or thrown when `shouldThrow` is set. */
  datatype Outcome = Returned(record: Processed) | Thrown(record: Processed)

  /** `handleApiError`'s result together with whether a security event is logged. */
  datatype Report = Report(outcome: Outcome, securityLogged: bool)

  /** Codes that are logged as security events. */
  predicate SecurityRelevant(code: string)
  {
    Text.StartsWith(code, "auth/") || code == "db/row-level-security" || code == "storage/unauthorized"
  }

  /** `handleApiError(error, customMessage, shouldThrow)` */
  function HandleApiError(error: Option<ApiError>, customMessage: string, shouldThrow: bool): Report
  {
    var message := if error.Some? && error.value.message != "" then error.value.message else customMessage;
    var code := if error.Some? && error.value.code != "" then error.value.code else UnknownCode;
    var status := if error.Some? && error.value.status != 0 then error.value.status else 500;
    var details := if error.Some? && error.value.details != "" then Some(error.value.details) else None;
    var processed := Processed(if code in ErrorCodes then ErrorCodes[code] else message, code, status, details);
    Report(if shouldThrow then Thrown(processed) else Returned(processed), SecurityRelevant(code))
  }

  /** Every message in the table is non-empty, so `ERROR_CODES[code] || message`
      picks the table entry whenever the code is listed. */
  lemma TableMessagesNonEmpty()
    ensures forall c :: c in ErrorCodes ==> ErrorCodes[c] != ""
    ensures UnknownCode in ErrorCodes && ErrorCodes[UnknownCode] == "An unknown error occurred."
  {
  }

  /** The fields of the processed record: code, status and details fall back
      to 'general/unknown', 500 and null; the message is the table's for a
      listed code and otherwise the error's own or the custom one; the record
      is thrown exactly when asked, and is the same record either way. */
  lemma HandleApiErrorSpec(error: Option<ApiError>, customMessage: string, shouldThrow: bool)
    ensures var p := HandleApiError(error, customMessage, shouldThrow).outcome.record;
      && p.code != ""
      && (error.Some? && error.value.code != "" ==> p.code == error.value.code)
      && p.status != 0
      && (error.Some? && error.value.status != 0 ==> p.status == error.value.status)
      && (p.details.Some? <==> error.Some? && error.value.details != "")
      && (p.details.Some? ==> p.details.value == error.value.details)
      && (p.code in ErrorCodes ==> p.message == ErrorCodes[p.code])
      && (p.code !in ErrorCodes ==>
            p.message == if error.Some? && error.value.message != "" then error.value.message else customMessage)
    ensures HandleApiError(error, customMessage, shouldThrow).outcome.Thrown? <==> shouldThrow
    ensures HandleApiError(error, customMessage, shouldThrow).outcome.record ==
            HandleApiError(error, customMessage, !shouldThrow).outcome.record
  {
  }

  /** An error without a code, or no error at all, always gets the unknown
      code and the unknown-error message, whatever its own message and the
      custom message say, and is not a security event. */
  lemma CodelessIsUnknown(error: Option<ApiError>, customMessage: string, shouldThrow: bool)
    requires error.None? || error.value.code == ""
    ensures HandleApiError(error, customMessage, shouldThrow).outcome.record.code == UnknownCode
    ensures HandleApiError(error, customMessage, shouldThrow).outcome.record.message == "An unknown error occurred."
    ensures !HandleApiError(error, customMessage, shouldThrow).securityLogged
  {
    TableMessagesNonEmpty();
    assert UnknownCode[0] != "auth/"[0];
  }

  /** `handleApiError(error)` with the default arguments returns the record
      rather than throwing, and falls back to "Error in operation" only for an
      error whose code is not in the table and which has no message of its own. */
  lemma DefaultArguments(error: Option<ApiError>)
    ensures var r := HandleApiError(error, DefaultCustomMessage, false).outcome;
      && r.Returned?
      && (error.Some? && error.value.code != "" && error.value.code !in ErrorCodes ==>
            (r.record.message == DefaultCustomMessage <==> error.value.message in {"", DefaultCustomMessage}))
      && (error.None? || error.value.code == "" ==> r.record.message == "An unknown error occurred.")
  {
  }

  /** Authentication codes, the row-level-security code and the storage
      authorisation code are logged as security events; network codes are not. */
  lemma SecurityCodes(error: ApiError, customMessage: string, shouldThrow: bool)
    requires Text.StartsWith(error.code, "auth/") || error.code in {"db/row-level-security", "storage/unauthorized"}
    ensures HandleApiError(Some(error), customMessage, shouldThrow).securityLogged
  {
  }

  /** The processed record read back as an error object. */
  function AsError(p: Processed): ApiError
  {
    ApiError(p.code, p.message, p.status, p.details.GetOr(""))
  }

  /** Normalising twice is normalising once: handing a processed record back
      to `handleApiError` with the same custom message gives the same record. */
  lemma HandleApiErrorIdempotent(error: Option<ApiError>, customMessage: string, shouldThrow: bool)
    ensures var p := HandleApiError(error, customMessage, shouldThrow).outcome.record;
      HandleApiError(Some(AsError(p)), customMessage, shouldThrow).outcome.record == p
  {
  }

  /** A processed record whose error had no status carries status 500, so the
      retry policy treats it as a transient server error. */
  lemma DefaultStatusIsRetryable(error: Option<ApiError>, customMessage: string, shouldThrow: bool)
    requires error.None? || error.value.status == 0
    ensures IsRetryable(Some(AsError(HandleApiError(error, customMessage, shouldThrow).outcome.record)))
  {
  }
}
