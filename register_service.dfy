/**
 * The registration service: success returns the response as it came; an
 * HTTP-client failure with a body becomes `{ message, status, statusCode }`
 * with `||` defaults and no special case for 401; anything else is a
 * network error.
 */
module RegisterService {
  import opened Js
  import opened Types
  import AuthService

  datatype RegisterResponse = RegisterResponse(user: User)

  datatype RegisterError = RegisterError(message: string, status: int, statusCode: int)

  const NetworkError: RegisterError := RegisterError("Network error or server unavailable", 500, 500)

  /** The error record a failed registration throws. */
  function RegisterFailure(failure: HttpFailure): (e: RegisterError)
    ensures failure.Axios? && failure.data.Some? ==>
              e.message == OrString(failure.data.value.message, "Registration failed")
              && e.status == OrNumber(failure.status, 500)
              && e.statusCode == OrNumber(failure.data.value.statusCode, 500)
    ensures failure.NonAxios? || failure.data.None? ==> e == NetworkError
  {
    match failure
    case Axios(status, Some(body)) =>
      RegisterError(OrString(body.message, "Registration failed"), OrNumber(status, 500), OrNumber(body.statusCode, 500))
    case _ => NetworkError
  }

  /** `registerService.register`. */
  function Register(outcome: Outcome<RegisterResponse>): (r: Result<RegisterResponse, RegisterError>)
    ensures outcome.Succeeded? ==> r == Ok(outcome.body)
    ensures outcome.Failed? ==> r == Err(RegisterFailure(outcome.failure))
  {
    match outcome
    case Succeeded(response) => Ok(response)
    case Failed(failure) => Err(RegisterFailure(failure))
  }

  /**
   * Registration has no 401 case: a 401 with a server message reports that
   * message and status 401, where login would report "Invalid credentials".
   */
  lemma No401SpecialCase(message: string)
    requires message != ""
    ensures var f := Axios(Some(401), Some(ErrorBody(Some(message), None, None)));
            RegisterFailure(f) == RegisterError(message, 401, 500)
            && AuthService.LoginFailure(f) == AuthService.InvalidCredentials
  {
  }

  /** A registration error never carries an empty message or a zero status or code. */
  lemma RegisterErrorAlwaysTruthy(failure: HttpFailure)
    ensures RegisterFailure(failure).message != ""
    ensures RegisterFailure(failure).status != 0 && RegisterFailure(failure).statusCode != 0
  {
  }
}
