# Federated sign-in with a gated sign-up: a Dafny model

This project models the sign-in and sign-up decision logic of `lib/server-auth.js`
(a Passport strategy for Google OAuth2 over a Mongoose `User` model), together
with the two session fields it shares between requests:

- `session.error`, a single pending-error slot holding an error record
  `{title, message, code}`;
- `session.signup`, the flag a valid sign-up code turns on.

The parts modelled are:

- the verify callback of the strategy. It looks the provider's subject up,
  logs a known account in, and otherwise creates an account behind the sign-up
  flag and the sign-up limit. Every rejection goes through `session.error`;
- the session projection of an account, and its serialisation to the account
  key and back;
- the two route guards `ensureAuthenticated` and `ensureApiAuthenticated`;
- the `/api/signup` handler.

Modules, one per component:

- `AuthTypes` (`types.dfy`): profile, account, session user, error record, and
  the six error records the core produces.
- `Projection` (`projection.dfy`): `mapUserToSessionUser`, `serializeUser` and
  `deserializeUser`.
- `SessionGuards` (`session.dfy`): the guards and the sign-up handler. Each is
  a function on the session state that specifies it, and a method of the
  `Session` class that performs it on the session's fields.
- `Verification` (`verify.dfy`): the verify callback. It is a function
  `VerifyRun` plus the method `Verify`, which performs it on a `Session` and an
  `AccountStore`. The module also holds the callback as evidently intended
  (see Findings).
- `SessionLifetime` (`lifetime.dfy`): one session's requests handled in order
  against the shared account table, and the properties that hold over any such
  sequence.

The datastore is an account table keyed by the provider's subject id
(`profileId`), so `User.count` is the table's size and one subject has at most
one account. Whether `findUserByProfileId`, `User.count` and `User.create`
report an error is an input (`StoreFaults`). So is the key the datastore gives
a new account. `canUserSignUp` and `isValidSignUpCode` are defined in
`server-signup.js`, which is not part of this model. They are parameters with
no assumed definition. `req.isAuthenticated()` is an input to the guards.

The verify callback is modelled as written, including the two places where
`done` is called without `return` (lines 85 and 105). A run records every `done`
call in order and whether a `TypeError` escaped the callback. It also records
the final `session.error` and account table. The outcome Passport acts on is the
first `done` call.

## Model

| member | source | states |
|---|---|---|
| `AuthTypes.KnownErrorCodes` | lib/server-auth.js:62-237 | every error record the core writes has code 500 exactly when it is an "App Error", and 401 otherwise |
| `Projection.ProjectionFields` | lib/server-auth.js:29-36 | the session user carries the account's key, e-mail and access token, and the name "lastName, firstName" |
| `Projection.SerializeRoundTrip` | lib/server-auth.js:15-27 | serialising keeps only the key; fetching that key back yields the same session user; a missing account yields `null` without error; a failed fetch yields `null` with the error |
| `SessionGuards.GuardsAdmitAuthenticated` | lib/server-auth.js:147-159 | both guards pass an authenticated request on and clear the pending error, so a later unauthenticated API request is answered with the default error, never a stale one; the sign-up flag is untouched |
| `SessionGuards.PageGuardRedirects` | lib/server-auth.js:147-153 | an unauthenticated page request is redirected to `/login` and the session is left exactly as it was |
| `SessionGuards.ApiGuardRelaysPending` | lib/server-auth.js:155-169 | an unauthenticated API request is answered with the pending error, or "A valid login session is required" (401) when none is pending; the HTTP status equals the body's code; the body is stored back in the slot |
| `SessionGuards.ApiGuardIdempotent` | lib/server-auth.js:155-169 | two unauthenticated API requests in a row get the same reply and leave the same session state |
| `SessionGuards.SignUpSubmitOutcome` | lib/server-auth.js:223-240 | a valid code sets the sign-up flag and answers 200 with the pending error unchanged; an invalid code stores and answers "Invalid sign up code..." with 401 and leaves the flag unchanged |
| `SessionGuards.Session.EnsureAuthenticated` | lib/server-auth.js:147-153 | performed on the session: the reply and the new `error` field are those of the guard's specification, and `signup` is not modified |
| `SessionGuards.Session.EnsureApiAuthenticated` | lib/server-auth.js:155-169 | performed on the session: it clears or relays the pending error as specified; after an unauthenticated request the slot holds exactly the body sent, with that body's code as the status |
| `SessionGuards.Session.SignUp` | lib/server-auth.js:223-240 | performed on the session: a valid code sets `signup` and keeps `error`; an invalid one sets `error` and keeps `signup` |
| `Verification.VerifyFoundLogsIn` | lib/server-auth.js:56-134 | a subject with an account logs in as that account's projection, whatever the sign-up flag; nothing is counted or created and `session.error` is untouched |
| `Verification.VerifyLookupFails` | lib/server-auth.js:59-67 | a failed lookup rejects with "App Error / Data retrieval failed / 500", the same record `session.error` then holds; the table is unchanged |
| `Verification.VerifyUnknownWithoutSignUp` | lib/server-auth.js:70-128 | an unknown subject without the sign-up flag is rejected with "Login Error / Unauthorized user. Login rejected / 401", which is stored in `session.error`; no count or create happens |
| `Verification.VerifyGateRefuses` | lib/server-auth.js:77-118 | when the limit predicate refuses the current count, the rejection is "Sign Up Error / Max user sign up exceeded / 401", which is stored in `session.error`; no account is created |
| `Verification.VerifyCreatesAccount` | lib/server-auth.js:88-108 | when the limit predicate admits the count and the store succeeds, exactly one account is added: the subject id, the first e-mail, the given and family names and the access token. The attempt logs in as its projection and `session.error` is untouched |
| `Verification.VerifyCreateFails` | lib/server-auth.js:97-108 | a failed create rejects with "App Error / User save failed / 500", which is stored in `session.error`; nothing is added; as written, the callback then throws, because there is no `return` after that `done` and the undefined account is projected |
| `Verification.VerifyRunShape` | lib/server-auth.js:56-134 | over every run: at most two `done` calls, and two only after a count error; the last rejection passed to `done` is what `session.error` holds, also when a success follows it; a run with no rejection leaves `session.error` alone; the table is unchanged or gains exactly the new account |
| `Verification.CountErrorFallsThrough` | lib/server-auth.js:77-108 | as written, a count error does not end the callback; the gate is then asked about an undefined count. If it refuses, a second `done` reports "Max user sign up exceeded", which replaces the first error in `session.error`. If it admits: with an e-mail and a working store, an account is created after the rejection; with a failing store, a second `done` reports "User save failed" and the callback throws; without an e-mail, the callback throws before any second call |
| `Verification.VerifyKeepsKeying` | lib/server-auth.js:88-108 | a run on a table keyed by subject id leaves it keyed by subject id: the only account it adds is stored under the `profileId` it carries |
| `Verification.IntendedSingleDone` | lib/server-auth.js:77-108 | with the missing `return`s added, `done` is called exactly once (unless the profile has no e-mail); a rejection is exactly the value `session.error` holds and leaves the table unchanged; a success leaves `session.error` alone |
| `Verification.IntendedAgreesWithWritten` | lib/server-auth.js:56-134 | the intended callback reports the same first `done` outcome as the callback as written, and is identical to it when neither the count nor the create fails |
| `Verification.Verify` | lib/server-auth.js:47-139 | performed on a session and an account store: the `done` calls, the thrown flag, the new `session.error` and the new table are those of `VerifyRun`; `session.signup` is never written; a table keyed by subject id stays so |
| `SessionLifetime.SignUpFlagNeverCleared` | lib/server-auth.js:223-230 | over any sequence of sign-in, sign-up-code and guarded page or API requests, none of these handlers clears the sign-up flag once it is set, also after an account was created with it |
| `SessionLifetime.SignUpFlagOnlyByCode` | lib/server-auth.js:227-228 | if the sign-up flag is on at the end of a sequence and was off at its start, some request in it submitted a valid code |
| `SessionLifetime.NoAccountWithoutSignUp` | lib/server-auth.js:70-128 | a session without sign-up permission that submits no valid code creates no account, whatever the datastore and the limit predicate do |
| `SessionLifetime.AccountsKept` | lib/server-auth.js:56-134 | over any sequence of requests, no account is deleted or altered |
| `SessionLifetime.NewAccountsFromSignIns` | lib/server-auth.js:88-108 | every account added during a sequence belongs to a subject that signed in during it, and there are at most as many new accounts as sign-in requests |
| `SessionLifetime.KeyingKept` | lib/server-auth.js:56-134 | over any sequence of requests a table keyed by subject id stays keyed by subject id, so one subject never has two accounts |
| `SessionLifetime.PendingErrorKnown` | lib/server-auth.js:56-240 | over any sequence of requests the pending-error slot only ever holds one of the six error records the core defines, never a raw datastore error |
| `SessionLifetime.SignUpThenSignIn` | lib/server-auth.js:74-108 | a valid code, then a sign-in of an unknown subject whose profile has an e-mail, where the limit admits the count and no datastore call fails: the subject's account is created, the table grows by exactly one, and the flag is set |
| `SessionLifetime.RejectionReachesNextApiRequest` | lib/server-auth.js:56-169 | when a sign-in ends in a rejection, an unauthenticated API request right after it is answered with that rejection, with its code as the HTTP status |

## Left out

- Passport and Google OAuth2 wiring (`passport.use` options, `init`,
  `authGoogle`, `authGoogleCallback`) is left out. It is library configuration
  with no decision logic of its own.
- `loggedInUserApi` and `logoutApi` are left out. They only call `res.json`,
  `req.logout` and `session.destroy`. `session.destroy` ends the session, and
  `session.error` and `session.signup` end with it. The lifetime lemmas
  therefore describe a session between logouts only.
- A sign-in run that throws keeps the session and table writes made before
  the throw. `SessionLifetime.Step` applies them like any other run, and
  `SessionLifetime.RejectionReachesNextApiRequest` relies on this for the
  create-failure run.
- `console.log` and `process.nextTick` are left out; they affect neither a
  decision nor the state.
- The Mongoose `User` model is reduced to the outcomes of its calls. An
  account table keyed by `profileId`, plus fault flags, stands for the results
  of `findUserByProfileId`, `count`, `create` and `findById`. That
  `findUserByProfileId` looks accounts up by `profileId`, and that the store
  keeps one account per `profileId`, are assumptions: the model file is not
  part of this model.
- A provider profile whose `name.givenName` or `name.familyName` is missing
  is not modelled. Name parts are always strings here. In the source, a
  missing part would be stored as is and shown as "undefined" in the session
  name, or refused by the `User` schema, which is not part of this model.
- `server-signup.js` is not part of this model. `canUserSignUp` and
  `isValidSignUpCode` are parameters with no assumed definition.
- `Projection.SerializeRoundTrip`: `deserializeUser` takes the outcome of
  `User.findById` as an input. The model does not tie it to the account table
  by key.
- The sign-up code is taken to be a string. A request body without
  `signUpCode` (JavaScript `undefined`) is not modelled separately.
- Requests are handled one at a time. The count-then-create and
  lookup-then-create races between concurrent requests are not modelled, and
  neither are accounts that other sessions add between this session's requests.
- What Passport does after a second `done` call, or with an exception thrown in
  the callback, is not modelled. The model records that these happen.
- `public/controllers/client-add.js`, an Angular form controller, is front-end
  code outside this core.

## Findings

| source | as written | input that shows it | evidently intended | confidence | as-written member | corrected member |
|---|---|---|---|---|---|---|
| lib/server-auth.js:78-88 | after a count error, `done(req.session.error)` is called without `return`, so `canUserSignUp(undefined)` runs next | unknown subject, sign-up flag on, `User.count` fails, limit predicate false on `undefined`: `done` is called a second time with "Max user sign up exceeded", which replaces "Data retrieval failed" in `session.error`; if the predicate is true instead and the profile has an e-mail, either an account is created after the rejection or, when the create fails too, a second rejection is reported and the callback throws | end the callback after the first rejection, as the other branches do with `return done(...)` | high; not executed | `Verification.CountErrorFallsThrough` | `Verification.IntendedSingleDone` |
| lib/server-auth.js:98-108 | after a create error, `done(req.session.error)` is called without `return`, so `mapUserToSessionUser(user)` runs on an undefined `user` | unknown subject, sign-up flag on, limit predicate true, `User.create` fails: "User save failed" is reported, then reading `user._id` throws a `TypeError` | end the callback after the rejection | high; not executed | `Verification.VerifyCreateFails` | `Verification.IntendedSingleDone` |

The `Verify` method and the session-lifetime lemmas use the callback as
written, so their properties hold of the code as it is. The corrected
`VerifyIntended` reports the same first `done` outcome as the written
callback. It agrees with the written callback entirely when neither the count
nor the create fails (`Verification.IntendedAgreesWithWritten`).
