/** The session projection of an account, and what the session layer stores
    between requests: only the account key, re-fetched and re-projected on
    every request. */
module Projection {
  import opened AuthTypes

  /** `mapUserToSessionUser`: the account as the session carries it. */
  function MapUserToSessionUser(user: Account): SessionUser
  {
    SessionUser(user.id, user.lastName + ", " + user.firstName, user.email, user.accessToken)
  }

  /** `serializeUser`: only the account key goes into the session. */
  function SerializeUser(sessionUser: SessionUser): AccountId
  {
    sessionUser.Id
  }

  /** The outcome of `User.findById`. */
  datatype Fetch = FetchError | NoAccount | Fetched(account: Account)

  /** What `deserializeUser` hands to `done`: whether an error was passed,
      and the session user (`null` is `None`). */
  datatype Deserialized = Deserialized(failed: bool, user: Option<SessionUser>)

  /** `deserializeUser`, given the outcome of looking the key up. */
  function DeserializeUser(fetch: Fetch): Deserialized
  {
    match fetch
    case FetchError => Deserialized(true, None)
    case NoAccount => Deserialized(false, None)
    case Fetched(a) => Deserialized(false, Some(MapUserToSessionUser(a)))
  }

  /** The projection copies the key, address and token, and shows the name
      as "last, first". */
  lemma ProjectionFields(user: Account)
    ensures MapUserToSessionUser(user).Id == user.id
    ensures MapUserToSessionUser(user).email == user.email
    ensures MapUserToSessionUser(user).token == user.accessToken
    ensures MapUserToSessionUser(user).name == user.lastName + ", " + user.firstName
  {
  }

  /** Serialising a projected account and fetching the account again by that
      key yields the same session user; a missing account or a failed fetch
      yields no user, and only the failed fetch reports an error. */
  lemma SerializeRoundTrip(user: Account, fetch: Fetch)
    requires fetch.Fetched? ==> fetch.account.id == SerializeUser(MapUserToSessionUser(user))
    ensures fetch == Fetched(user) ==>
      DeserializeUser(fetch) == Deserialized(false, Some(MapUserToSessionUser(user)))
    ensures fetch.Fetched? ==> DeserializeUser(fetch).user.value.Id == SerializeUser(MapUserToSessionUser(user))
    ensures !fetch.Fetched? ==> DeserializeUser(fetch).user == None
    ensures DeserializeUser(fetch).failed <==> fetch == FetchError
  {
  }
}
