/** The verify callback of the provider strategy: given the provider's profile
    and the session, log an existing account in, create a new account behind
    the sign-up gate, or reject the attempt through `session.error`.

    The datastore is an account table keyed by the provider's subject id, so
    `User.count` is the table's size. Whether each datastore call reports an
    error is an input (`StoreFaults`); so are the key the datastore gives a new
    account and the sign-up limit predicate `canUserSignUp`.

    The callback is modelled as written. On the count-error and the
    create-error paths `done` is called without `return`, so execution goes
    on: after a count error the gate is consulted with an undefined count
    (`None`), and after a create error `mapUserToSessionUser` is applied to an
    undefined account, which throws. `Run` therefore records every `done` call
    in order, whether a `TypeError` escaped, and the final `session.error` and
    account table. */
module Verification {
  import opened AuthTypes
  import opened Projection
  import opened SessionGuards

  /** Which datastore calls report an error: `findUserByProfileId`,
      `User.count`, `User.create`. */
  datatype StoreFaults = StoreFaults(lookup: bool, count: bool, create: bool)

  /** One sign-in attempt: what the provider delivered, and how the datastore
      answers (its faults, and the key it gives an account it creates). */
  datatype Attempt = Attempt(profile: Profile, accessToken: string, faults: StoreFaults, newId: AccountId)

  /** One call of the strategy's `done`: `done(err)` or `done(null, user)`. */
  datatype Done = Reject(error: SessionError) | Accept(user: SessionUser)

  /** Everything a run of the callback produces. */
  datatype Run = Run(calls: seq<Done>, threw: bool, error: Option<SessionError>, accounts: map<ProfileId, Account>)

  /** The account `User.create` is asked to store for this attempt. */
  function NewAccount(attempt: Attempt): Account
    requires |attempt.profile.emails| > 0
  {
    Account(attempt.newId, attempt.profile.id, attempt.profile.emails[0],
            attempt.profile.givenName, attempt.profile.familyName, attempt.accessToken)
  }

  /** The table is keyed by the provider's subject id: the account under a
      key carries that key as its `profileId`. */
  predicate KeyedByProfileId(accounts: map<ProfileId, Account>)
  {
    forall id :: id in accounts ==> accounts[id].profileId == id
  }

  /** A run that begins with one more `done` call. */
  function Prepend(d: Done, run: Run): Run
  {
    run.(calls := [d] + run.calls)
  }

  /** From the sign-up gate on, as written: `count` is `None` when the count
      failed and execution fell through. */
  function GateAndCreate(accounts: map<ProfileId, Account>, pending: Option<SessionError>, count: Option<nat>,
                         attempt: Attempt, canUserSignUp: Option<nat> -> bool): Run
  {
    if !canUserSignUp(count) then
      Run([Reject(MaxSignUpExceeded)], false, Some(MaxSignUpExceeded), accounts)
    else if |attempt.profile.emails| == 0 then
      // `profile.emails[0].value` throws before `User.create` is called
      Run([], true, pending, accounts)
    else if attempt.faults.create then
      // `done` without `return`: `mapUserToSessionUser(undefined)` then throws
      Run([Reject(UserSaveFailed)], true, Some(UserSaveFailed), accounts)
    else
      var account := NewAccount(attempt);
      Run([Accept(MapUserToSessionUser(account))], false, pending, accounts[attempt.profile.id := account])
  }

  /** The verify callback as written, from the account table, the session's
      pending error and sign-up flag. */
  function VerifyRun(accounts: map<ProfileId, Account>, pending: Option<SessionError>, signup: bool,
                     attempt: Attempt, canUserSignUp: Option<nat> -> bool): Run
  {
    if attempt.faults.lookup then
      Run([Reject(DataRetrievalFailed)], false, Some(DataRetrievalFailed), accounts)
    else if attempt.profile.id in accounts then
      Run([Accept(MapUserToSessionUser(accounts[attempt.profile.id]))], false, pending, accounts)
    else if !signup then
      Run([Reject(LoginRejected)], false, Some(LoginRejected), accounts)
    else if attempt.faults.count then
      // `done` without `return`: the gate is then asked about an undefined count
      Prepend(Reject(DataRetrievalFailed),
              GateAndCreate(accounts, Some(DataRetrievalFailed), None, attempt, canUserSignUp))
    else
      GateAndCreate(accounts, pending, Some(|accounts|), attempt, canUserSignUp)
  }

  /** The verify callback as evidently intended: every rejection ends the
      callback, as the `return done(...)` of the other branches does. */
  function VerifyIntended(accounts: map<ProfileId, Account>, pending: Option<SessionError>, signup: bool,
                          attempt: Attempt, canUserSignUp: Option<nat> -> bool): Run
  {
    if attempt.faults.lookup then
      Run([Reject(DataRetrievalFailed)], false, Some(DataRetrievalFailed), accounts)
    else if attempt.profile.id in accounts then
      Run([Accept(MapUserToSessionUser(accounts[attempt.profile.id]))], false, pending, accounts)
    else if !signup then
      Run([Reject(LoginRejected)], false, Some(LoginRejected), accounts)
    else if attempt.faults.count then
      Run([Reject(DataRetrievalFailed)], false, Some(DataRetrievalFailed), accounts)
    else if !canUserSignUp(Some(|accounts|)) then
      Run([Reject(MaxSignUpExceeded)], false, Some(MaxSignUpExceeded), accounts)
    else if |attempt.profile.emails| == 0 then
      Run([], true, pending, accounts)
    else if attempt.faults.create then
      Run([Reject(UserSaveFailed)], false, Some(UserSaveFailed), accounts)
    else
      var account := NewAccount(attempt);
      Run([Accept(MapUserToSessionUser(account))], false, pending, accounts[attempt.profile.id := account])
  }

  // ---------------------------------------------------------------------------
  // The callback's branches, as written

  /** A known subject logs in with its projected account, whatever the
      sign-up flag: nothing is counted or created and `session.error` is left
      as it was. */
  lemma VerifyFoundLogsIn(accounts: map<ProfileId, Account>, pending: Option<SessionError>, signup: bool,
                          attempt: Attempt, canUserSignUp: Option<nat> -> bool)
    requires !attempt.faults.lookup && attempt.profile.id in accounts
    ensures var user := accounts[attempt.profile.id];
      VerifyRun(accounts, pending, signup, attempt, canUserSignUp)
        == Run([Accept(SessionUser(user.id, user.lastName + ", " + user.firstName, user.email, user.accessToken))],
               false, pending, accounts)
  {
  }

  /** A failed lookup rejects with "Data retrieval failed" (500), and the
      value passed to `done` is the one stored in `session.error`. */
  lemma VerifyLookupFails(accounts: map<ProfileId, Account>, pending: Option<SessionError>, signup: bool,
                          attempt: Attempt, canUserSignUp: Option<nat> -> bool)
    requires attempt.faults.lookup
    ensures VerifyRun(accounts, pending, signup, attempt, canUserSignUp)
      == Run([Reject(SessionError("App Error", "Data retrieval failed", 500))], false,
             Some(SessionError("App Error", "Data retrieval failed", 500)), accounts)
  {
  }

  /** An unknown subject without the sign-up flag is rejected with
      "Unauthorized user. Login rejected" (401); the table is untouched. */
  lemma VerifyUnknownWithoutSignUp(accounts: map<ProfileId, Account>, pending: Option<SessionError>,
                                   attempt: Attempt, canUserSignUp: Option<nat> -> bool)
    requires !attempt.faults.lookup && attempt.profile.id !in accounts
    ensures VerifyRun(accounts, pending, false, attempt, canUserSignUp)
      == Run([Reject(SessionError("Login Error", "Unauthorized user. Login rejected", 401))], false,
             Some(SessionError("Login Error", "Unauthorized user. Login rejected", 401)), accounts)
  {
  }

  /** When the gate refuses the current count, the attempt is rejected with
      "Max user sign up exceeded" (401) and no account is created. */
  lemma VerifyGateRefuses(accounts: map<ProfileId, Account>, pending: Option<SessionError>,
                          attempt: Attempt, canUserSignUp: Option<nat> -> bool)
    requires !attempt.faults.lookup && attempt.profile.id !in accounts && !attempt.faults.count
    requires !canUserSignUp(Some(|accounts|))
    ensures VerifyRun(accounts, pending, true, attempt, canUserSignUp)
      == Run([Reject(SessionError("Sign Up Error", "Max user sign up exceeded", 401))], false,
             Some(SessionError("Sign Up Error", "Max user sign up exceeded", 401)), accounts)
  {
  }

  /** When the gate admits the current count and the datastore stores the
      account, exactly one account is added, under the subject's id, carrying
      the first e-mail, the given and family names, the subject id and the
      access token; the attempt logs in as that account and `session.error`
      is left as it was. */
  lemma VerifyCreatesAccount(accounts: map<ProfileId, Account>, pending: Option<SessionError>,
                             attempt: Attempt, canUserSignUp: Option<nat> -> bool)
    requires !attempt.faults.lookup && attempt.profile.id !in accounts && !attempt.faults.count
    requires canUserSignUp(Some(|accounts|)) && |attempt.profile.emails| > 0 && !attempt.faults.create
    ensures var run := VerifyRun(accounts, pending, true, attempt, canUserSignUp);
      var p := attempt.profile;
      && run.accounts.Keys == accounts.Keys + {p.id}
      && |run.accounts| == |accounts| + 1
      && (forall id :: id in accounts ==> run.accounts[id] == accounts[id])
      && run.accounts[p.id] == Account(attempt.newId, p.id, p.emails[0], p.givenName, p.familyName, attempt.accessToken)
      && run.calls == [Accept(MapUserToSessionUser(run.accounts[p.id]))]
      && !run.threw && run.error == pending
  {
  }

  /** When the gate admits the count but the datastore fails to store the
      account, the attempt is rejected with "User save failed" (500), nothing
      is added, and the callback then throws: as written, the `done` for the
      error has no `return`, and `mapUserToSessionUser` is then applied to the
      undefined account. */
  lemma VerifyCreateFails(accounts: map<ProfileId, Account>, pending: Option<SessionError>,
                          attempt: Attempt, canUserSignUp: Option<nat> -> bool)
    requires !attempt.faults.lookup && attempt.profile.id !in accounts && !attempt.faults.count
    requires canUserSignUp(Some(|accounts|)) && |attempt.profile.emails| > 0 && attempt.faults.create
    ensures VerifyRun(accounts, pending, true, attempt, canUserSignUp)
      == Run([Reject(SessionError("App Error", "User save failed", 500))], true,
             Some(SessionError("App Error", "User save failed", 500)), accounts)
  {
  }

  /** Over every run: `done` is called at most twice, and twice only after a
      count error; the last rejection passed to `done` is what `session.error`
      holds (also when a success follows it); a run without rejections leaves
      `session.error` alone; the table
      is unchanged or gains exactly the new account; the sign-up flag is not
      an output at all, so verify never writes it. */
  lemma VerifyRunShape(accounts: map<ProfileId, Account>, pending: Option<SessionError>, signup: bool,
                       attempt: Attempt, canUserSignUp: Option<nat> -> bool)
    ensures var run := VerifyRun(accounts, pending, signup, attempt, canUserSignUp);
      && |run.calls| <= 2
      && (|run.calls| == 2 ==> attempt.faults.count)
      && (forall i :: 0 <= i < |run.calls| && run.calls[i].Reject?
                      && (forall j :: i < j < |run.calls| ==> run.calls[j].Accept?) ==>
            run.error == Some(run.calls[i].error))
      && ((forall i :: 0 <= i < |run.calls| ==> run.calls[i].Accept?) ==> run.error == pending)
      && (run.accounts == accounts
          || (attempt.profile.id !in accounts && |attempt.profile.emails| > 0
              && run.accounts == accounts[attempt.profile.id := NewAccount(attempt)]))
  {
    var run := VerifyRun(accounts, pending, signup, attempt, canUserSignUp);
    if run.calls != [] && run.error != pending {
      // every run that writes `session.error` reported a rejection first
      assert run.calls[0].Reject?;
    }
    if !attempt.faults.lookup && attempt.profile.id !in accounts && signup && attempt.faults.count {
      // the count error's rejection, then at most one more call from the gate on
      var rest := GateAndCreate(accounts, Some(DataRetrievalFailed), None, attempt, canUserSignUp);
      assert run == Prepend(Reject(DataRetrievalFailed), rest);
      assert |rest.calls| <= 1;
      if |rest.calls| == 1 && rest.calls[0].Reject? {
        // the later rejection is the last call, and it is what the slot holds
        assert run.calls[1] == rest.calls[0] && rest.error == Some(rest.calls[0].error);
      }
    }
  }

  /** Every run keeps the table keyed by subject id: the only account it can
      add is stored under the subject id it carries. */
  lemma VerifyKeepsKeying(accounts: map<ProfileId, Account>, pending: Option<SessionError>, signup: bool,
                          attempt: Attempt, canUserSignUp: Option<nat> -> bool)
    requires KeyedByProfileId(accounts)
    ensures KeyedByProfileId(VerifyRun(accounts, pending, signup, attempt, canUserSignUp).accounts)
  {
    VerifyRunShape(accounts, pending, signup, attempt, canUserSignUp);
  }

  // ---------------------------------------------------------------------------
  // The two missing `return`s

  /** As written, a count error does not end the callback: the gate is asked
      about an undefined count. If it refuses, `done` is called again with "Max
      user sign up exceeded", which then sits in `session.error` instead of the
      error the first call reported. If it admits, then with an e-mail and a
      working store an account is created after the attempt was already
      rejected; with a failing store `done` is called again with "User save
      failed" and the callback throws; without an e-mail the callback throws
      before any second call. */
  lemma CountErrorFallsThrough(accounts: map<ProfileId, Account>, pending: Option<SessionError>,
                               attempt: Attempt, canUserSignUp: Option<nat> -> bool)
    requires !attempt.faults.lookup && attempt.profile.id !in accounts && attempt.faults.count
    ensures var run := VerifyRun(accounts, pending, true, attempt, canUserSignUp);
      && !canUserSignUp(None) ==>
           run.calls == [Reject(DataRetrievalFailed), Reject(MaxSignUpExceeded)]
           && run.error == Some(MaxSignUpExceeded) != Some(run.calls[0].error)
    ensures var run := VerifyRun(accounts, pending, true, attempt, canUserSignUp);
      && canUserSignUp(None) && |attempt.profile.emails| > 0 && !attempt.faults.create ==>
           |run.calls| == 2 && run.calls[0] == Reject(DataRetrievalFailed) && run.calls[1].Accept?
           && attempt.profile.id in run.accounts && |run.accounts| == |accounts| + 1
    ensures var run := VerifyRun(accounts, pending, true, attempt, canUserSignUp);
      && canUserSignUp(None) && |attempt.profile.emails| > 0 && attempt.faults.create ==>
           run.calls == [Reject(DataRetrievalFailed), Reject(UserSaveFailed)]
           && run.threw && run.error == Some(UserSaveFailed) && run.accounts == accounts
    ensures var run := VerifyRun(accounts, pending, true, attempt, canUserSignUp);
      && canUserSignUp(None) && |attempt.profile.emails| == 0 ==>
           run.calls == [Reject(DataRetrievalFailed)]
           && run.threw && run.error == Some(DataRetrievalFailed) && run.accounts == accounts
  {
  }

  /** With the `return`s in place, `done` is called exactly once unless the
      profile has no e-mail; a rejection is exactly what `session.error`
      holds and leaves the table as it was; a success leaves `session.error`
      alone; nothing throws on a datastore error. */
  lemma IntendedSingleDone(accounts: map<ProfileId, Account>, pending: Option<SessionError>, signup: bool,
                           attempt: Attempt, canUserSignUp: Option<nat> -> bool)
    ensures var run := VerifyIntended(accounts, pending, signup, attempt, canUserSignUp);
      && (|run.calls| == 1 || (run.calls == [] && run.threw && |attempt.profile.emails| == 0))
      && (run.threw ==> run.calls == [])
      && (run.calls != [] && run.calls[0].Reject? ==>
            run.error == Some(run.calls[0].error) && run.accounts == accounts)
      && (run.calls != [] && run.calls[0].Accept? ==> run.error == pending)
  {
  }

  /** The intended callback reports the same first outcome as the one as
      written, and agrees with it entirely when neither the count nor the
      create fails. */
  lemma IntendedAgreesWithWritten(accounts: map<ProfileId, Account>, pending: Option<SessionError>, signup: bool,
                                  attempt: Attempt, canUserSignUp: Option<nat> -> bool)
    ensures var written := VerifyRun(accounts, pending, signup, attempt, canUserSignUp);
      var intended := VerifyIntended(accounts, pending, signup, attempt, canUserSignUp);
      && (written.calls == [] <==> intended.calls == [])
      && (written.calls != [] ==> written.calls[0] == intended.calls[0])
      && (!attempt.faults.count && !attempt.faults.create ==> written == intended)
  {
  }

  // ---------------------------------------------------------------------------
  // The callback performed on a session and an account table

  /** The datastore's account table, keyed by the provider's subject id. */
  class AccountStore {
    var accounts: map<ProfileId, Account>

    constructor ()
      ensures accounts == map[] && KeyedByProfileId(accounts)
    {
      accounts := map[];
    }
  }

  /** The verify callback, performed on `session` and `store` as written:
      it returns the `done` calls in order and whether a `TypeError` escaped. */
  method Verify(session: Session, store: AccountStore, attempt: Attempt, canUserSignUp: Option<nat> -> bool)
    returns (calls: seq<Done>, threw: bool)
    modifies session`error, store`accounts
    ensures Run(calls, threw, session.error, store.accounts)
      == VerifyRun(old(store.accounts), old(session.error), old(session.signup), attempt, canUserSignUp)
    ensures session.signup == old(session.signup)
    ensures KeyedByProfileId(old(store.accounts)) ==> KeyedByProfileId(store.accounts)
  {
    calls, threw := [], false;
    var profile := attempt.profile;
    if attempt.faults.lookup {
      session.error := Some(DataRetrievalFailed);
      calls := [Reject(DataRetrievalFailed)];
      return;
    }
    if profile.id in store.accounts {
      calls := [Accept(MapUserToSessionUser(store.accounts[profile.id]))];
      return;
    }
    if !session.signup {
      session.error := Some(LoginRejected);
      calls := [Reject(LoginRejected)];
      return;
    }
    var count: Option<nat>;
    if attempt.faults.count {
      session.error := Some(DataRetrievalFailed);
      calls := [Reject(DataRetrievalFailed)];
      count := None;  // no `return`: execution goes on with `count` undefined
    } else {
      count := Some(|store.accounts|);
    }
    if !canUserSignUp(count) {
      session.error := Some(MaxSignUpExceeded);
      calls := calls + [Reject(MaxSignUpExceeded)];
      return;
    }
    if |profile.emails| == 0 {
      threw := true;  // `profile.emails[0].value` on an empty list
      return;
    }
    var account := NewAccount(attempt);
    if attempt.faults.create {
      session.error := Some(UserSaveFailed);
      calls := calls + [Reject(UserSaveFailed)];
      threw := true;  // no `return`: `mapUserToSessionUser(undefined)` throws
      return;
    }
    store.accounts := store.accounts[profile.id := account];
    calls := calls + [Accept(MapUserToSessionUser(account))];
  }
}
