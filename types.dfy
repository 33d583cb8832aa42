/** Values shared by the sign-in and sign-up logic: the identity-provider
    profile, the persisted account, the session-carried user, and the
    structured error record that travels through `session.error`. */
module AuthTypes {

  datatype Option<+T> = None | Some(value: T)

  /** The datastore's own key of an account (`_id`). */
  type AccountId = string

  /** The identity provider's subject id (`profile.id`, stored as `profileId`). */
  type ProfileId = string

  /** The wire error body `{title, message, code}`; the HTTP status of a
      failure response equals `code`. */
  datatype SessionError = SessionError(title: string, message: string, code: int)

  /** A verified provider profile: `id`, the `value`s of `emails`, and `name`. */
  datatype Profile = Profile(id: ProfileId, emails: seq<string>, givenName: string, familyName: string)

  /** A persisted account as created by the sign-up path. */
  datatype Account = Account(
    id: AccountId,
    profileId: ProfileId,
    email: string,
    firstName: string,
    lastName: string,
    accessToken: string)

  /** What the session carries about the logged-in user. */
  datatype SessionUser = SessionUser(Id: AccountId, name: string, email: string, token: string)

  // The six error records the handlers write into `session.error`.

  const DataRetrievalFailed := SessionError("App Error", "Data retrieval failed", 500)
  const UserSaveFailed := SessionError("App Error", "User save failed", 500)
  const MaxSignUpExceeded := SessionError("Sign Up Error", "Max user sign up exceeded", 401)
  const LoginRejected := SessionError("Login Error", "Unauthorized user. Login rejected", 401)
  const LoginRequired := SessionError("Login Error", "A valid login session is required", 401)
  const InvalidSignUpCode :=
    SessionError("Sign Up Error", "Invalid sign up code. Please provide a valid sign up code", 401)

  /** The closed set of error records this core ever produces. */
  predicate KnownError(e: SessionError)
  {
    e in {DataRetrievalFailed, UserSaveFailed, MaxSignUpExceeded, LoginRejected, LoginRequired, InvalidSignUpCode}
  }

  /** Every error the core produces is a transport failure (500) or a
      policy or authentication rejection (401). */
  lemma KnownErrorCodes(e: SessionError)
    requires KnownError(e)
    ensures e.code == 500 <==> e.title == "App Error"
    ensures e.code == 401 <==> e.title != "App Error"
  {
  }
}
