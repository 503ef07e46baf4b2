/**
 * The profile service: fetching the profile, updating its fields and
 * uploading an avatar each return the response as it came, and on failure
 * throw an error whose message is the server's, or the call's own default.
 */
module ProfileService {
  import opened Js
  import opened Types

  datatype ProfileCall = GetProfile | UpdateProfile | UpdateAvatar

  /** The message used when the server gave none. */
  function DefaultMessage(call: ProfileCall): (m: string)
    ensures m != ""
  {
    match call
    case GetProfile => "Failed to fetch profile"
    case UpdateProfile => "Failed to update profile"
    case UpdateAvatar => "Failed to update avatar"
  }

  /** The server's message, when the failure is an HTTP-client error whose body has a non-empty one. */
  function ServerMessage(failure: HttpFailure): (m: Option<string>)
    ensures m.Some? ==> failure.Axios? && m.value != ""
    ensures m.Some? <==> failure.Axios? && failure.data.Some? && OrString(failure.data.value.message, "") != ""
  {
    if failure.Axios? && failure.data.Some? && failure.data.value.message.Some? && failure.data.value.message.value != ""
    then failure.data.value.message
    else None
  }

  /** `error.response?.data?.message || default`, or the default for any other failure. */
  function FailureMessage(call: ProfileCall, failure: HttpFailure): (m: string)
    ensures ServerMessage(failure).Some? ==> m == ServerMessage(failure).value
    ensures ServerMessage(failure).None? ==> m == DefaultMessage(call)
    ensures failure.NonAxios? ==> m == DefaultMessage(call)
    ensures m != ""
  {
    match failure
    case NonAxios => DefaultMessage(call)
    case Axios(_, data) =>
      OrString(if data.Some? then data.value.message else None, DefaultMessage(call))
  }

  /** One service call: the response body on success, the error message otherwise. */
  function Call<T>(call: ProfileCall, outcome: Outcome<T>): (r: Result<T, string>)
    ensures outcome.Succeeded? ==> r == Ok(outcome.body)
    ensures outcome.Failed? ==> r == Err(FailureMessage(call, outcome.failure))
  {
    match outcome
    case Succeeded(body) => Ok(body)
    case Failed(failure) => Err(FailureMessage(call, failure))
  }

  /** The three calls differ only in their default: the same failure with a server message reads the same for all of them. */
  lemma ServerMessageWinsForEveryCall(failure: HttpFailure, a: ProfileCall, b: ProfileCall)
    requires ServerMessage(failure).Some?
    ensures FailureMessage(a, failure) == FailureMessage(b, failure)
  {
  }
}
