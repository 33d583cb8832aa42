/** The requests of one session, handled one after the other against the
    shared account table: this is how a rejection reason crosses from one
    request to a later one, and how the sign-up flag set by one request is
    consulted by another. The lemmas here state what holds over any such
    sequence of requests. */
module SessionLifetime {
  import opened AuthTypes
  import opened SessionGuards
  import opened Verification

  /** A request that reaches one of the core's handlers. */
  datatype Request =
    | SignIn(attempt: Attempt)        // provider callback, running the verify callback
    | SignUpCode(code: string)        // POST /api/signup
    | Page(authenticated: bool)       // a page behind `ensureAuthenticated`
    | Api(authenticated: bool)        // an API route behind `ensureApiAuthenticated`

  /** The session's two fields and the account table. */
  datatype World = World(session: SessionState, accounts: map<ProfileId, Account>)

  /** The state after one request; a sign-in uses the callback as written. */
  function Step(w: World, r: Request, canUserSignUp: Option<nat> -> bool, isValidSignUpCode: string -> bool): World
  {
    match r
    case SignIn(attempt) =>
      var run := VerifyRun(w.accounts, w.session.error, w.session.signup, attempt, canUserSignUp);
      World(w.session.(error := run.error), run.accounts)
    case SignUpCode(code) => w.(session := SignUpSubmit(code, isValidSignUpCode, w.session).session)
    case Page(authenticated) => w.(session := PageGuard(authenticated, w.session).session)
    case Api(authenticated) => w.(session := ApiGuard(authenticated, w.session).session)
  }

  /** The state after a sequence of requests, in order. */
  function Serve(w: World, reqs: seq<Request>, canUserSignUp: Option<nat> -> bool,
                 isValidSignUpCode: string -> bool): World
    decreases |reqs|
  {
    if reqs == [] then w
    else Serve(Step(w, reqs[0], canUserSignUp, isValidSignUpCode), reqs[1..], canUserSignUp, isValidSignUpCode)
  }

  /** Some request submits a code the configuration accepts. */
  predicate HasValidCode(reqs: seq<Request>, isValidSignUpCode: string -> bool)
  {
    exists i :: 0 <= i < |reqs| && reqs[i].SignUpCode? && isValidSignUpCode(reqs[i].code)
  }

  /** Some sign-in request is for the subject `id`. */
  predicate HasSignInFor(reqs: seq<Request>, id: ProfileId)
  {
    exists i :: 0 <= i < |reqs| && reqs[i].SignIn? && reqs[i].attempt.profile.id == id
  }

  /** The number of sign-in requests. */
  function SignIns(reqs: seq<Request>): nat
  {
    if reqs == [] then 0 else (if reqs[0].SignIn? then 1 else 0) + SignIns(reqs[1..])
  }

  /** None of the modelled handlers clears the sign-up flag: once a valid
      code was submitted, the session keeps its sign-up permission, also after
      an account has been created with it (logging out, which destroys the
      whole session, is not among these requests). */
  lemma {:induction false} SignUpFlagNeverCleared(w: World, reqs: seq<Request>, canUserSignUp: Option<nat> -> bool,
                                                  isValidSignUpCode: string -> bool)
    requires w.session.signup
    ensures Serve(w, reqs, canUserSignUp, isValidSignUpCode).session.signup
    decreases |reqs|
  {
    if reqs != [] {
      SignUpFlagNeverCleared(Step(w, reqs[0], canUserSignUp, isValidSignUpCode), reqs[1..],
                             canUserSignUp, isValidSignUpCode);
    }
  }

  /** Only a valid sign-up code sets the sign-up flag. */
  lemma {:induction false} SignUpFlagOnlyByCode(w: World, reqs: seq<Request>, canUserSignUp: Option<nat> -> bool,
                                                isValidSignUpCode: string -> bool)
    requires !w.session.signup
    requires Serve(w, reqs, canUserSignUp, isValidSignUpCode).session.signup
    ensures HasValidCode(reqs, isValidSignUpCode)
    decreases |reqs|
  {
    var w' := Step(w, reqs[0], canUserSignUp, isValidSignUpCode);
    if w'.session.signup {
      assert reqs[0].SignUpCode? && isValidSignUpCode(reqs[0].code);
    } else {
      SignUpFlagOnlyByCode(w', reqs[1..], canUserSignUp, isValidSignUpCode);
      var i :| 0 <= i < |reqs[1..]| && reqs[1..][i].SignUpCode? && isValidSignUpCode(reqs[1..][i].code);
      assert reqs[i + 1] == reqs[1..][i];
    }
  }

  /** Self-provisioning is gated by the code: a session that has no sign-up
      permission and submits no valid code creates no account, whatever it
      signs in with and whatever the datastore does. */
  lemma {:induction false} NoAccountWithoutSignUp(w: World, reqs: seq<Request>, canUserSignUp: Option<nat> -> bool,
                                                  isValidSignUpCode: string -> bool)
    requires !w.session.signup && !HasValidCode(reqs, isValidSignUpCode)
    ensures Serve(w, reqs, canUserSignUp, isValidSignUpCode).accounts == w.accounts
    ensures !Serve(w, reqs, canUserSignUp, isValidSignUpCode).session.signup
    decreases |reqs|
  {
    if reqs != [] {
      var w' := Step(w, reqs[0], canUserSignUp, isValidSignUpCode);
      assert !(reqs[0].SignUpCode? && isValidSignUpCode(reqs[0].code));
      assert w'.accounts == w.accounts && !w'.session.signup;
      forall i | 0 <= i < |reqs[1..]| && reqs[1..][i].SignUpCode?
        ensures !isValidSignUpCode(reqs[1..][i].code)
      {
        assert reqs[1..][i] == reqs[i + 1];
      }
      NoAccountWithoutSignUp(w', reqs[1..], canUserSignUp, isValidSignUpCode);
    }
  }

  /** The core never deletes or alters an account: every account present
      before is present after, unchanged. */
  lemma {:induction false} AccountsKept(w: World, reqs: seq<Request>, canUserSignUp: Option<nat> -> bool,
                                        isValidSignUpCode: string -> bool)
    ensures var after := Serve(w, reqs, canUserSignUp, isValidSignUpCode).accounts;
      forall id :: id in w.accounts ==> id in after && after[id] == w.accounts[id]
    decreases |reqs|
  {
    if reqs != [] {
      var w' := Step(w, reqs[0], canUserSignUp, isValidSignUpCode);
      if reqs[0].SignIn? {
        VerifyRunShape(w.accounts, w.session.error, w.session.signup, reqs[0].attempt, canUserSignUp);
      }
      AccountsKept(w', reqs[1..], canUserSignUp, isValidSignUpCode);
    }
  }

  /** Every account added during the session is for a subject that signed
      in during it, and there are at most as many new accounts as sign-in
      requests. */
  lemma {:induction false} NewAccountsFromSignIns(w: World, reqs: seq<Request>, canUserSignUp: Option<nat> -> bool,
                                                  isValidSignUpCode: string -> bool)
    ensures var after := Serve(w, reqs, canUserSignUp, isValidSignUpCode).accounts;
      forall id :: id in after && id !in w.accounts ==> HasSignInFor(reqs, id)
    ensures |Serve(w, reqs, canUserSignUp, isValidSignUpCode).accounts| <= |w.accounts| + SignIns(reqs)
    decreases |reqs|
  {
    if reqs != [] {
      var w' := Step(w, reqs[0], canUserSignUp, isValidSignUpCode);
      var after := Serve(w, reqs, canUserSignUp, isValidSignUpCode).accounts;
      assert after == Serve(w', reqs[1..], canUserSignUp, isValidSignUpCode).accounts;
      if reqs[0].SignIn? {
        VerifyRunShape(w.accounts, w.session.error, w.session.signup, reqs[0].attempt, canUserSignUp);
        assert w'.accounts.Keys <= w.accounts.Keys + {reqs[0].attempt.profile.id};
        assert |w'.accounts| <= |w.accounts| + 1;
      } else {
        assert w'.accounts == w.accounts;
      }
      NewAccountsFromSignIns(w', reqs[1..], canUserSignUp, isValidSignUpCode);
      forall id | id in after && id !in w.accounts
        ensures HasSignInFor(reqs, id)
      {
        if id in w'.accounts {
          assert reqs[0].SignIn? && reqs[0].attempt.profile.id == id;
        } else {
          var i :| 0 <= i < |reqs[1..]| && reqs[1..][i].SignIn? && reqs[1..][i].attempt.profile.id == id;
          assert reqs[i + 1] == reqs[1..][i];
        }
      }
    }
  }

  /** The table stays keyed by subject id over any sequence of requests, so
      one subject never has two accounts. */
  lemma {:induction false} KeyingKept(w: World, reqs: seq<Request>, canUserSignUp: Option<nat> -> bool,
                                      isValidSignUpCode: string -> bool)
    requires KeyedByProfileId(w.accounts)
    ensures KeyedByProfileId(Serve(w, reqs, canUserSignUp, isValidSignUpCode).accounts)
    decreases |reqs|
  {
    if reqs != [] {
      if reqs[0].SignIn? {
        VerifyKeepsKeying(w.accounts, w.session.error, w.session.signup, reqs[0].attempt, canUserSignUp);
      }
      KeyingKept(Step(w, reqs[0], canUserSignUp, isValidSignUpCode), reqs[1..], canUserSignUp, isValidSignUpCode);
    }
  }

  /** The pending-error slot only ever holds one of the core's six error
      records (or nothing): no raw datastore error reaches it. */
  lemma {:induction false} PendingErrorKnown(w: World, reqs: seq<Request>, canUserSignUp: Option<nat> -> bool,
                                             isValidSignUpCode: string -> bool)
    requires w.session.error.Some? ==> KnownError(w.session.error.value)
    ensures var e := Serve(w, reqs, canUserSignUp, isValidSignUpCode).session.error;
      e.Some? ==> KnownError(e.value)
    decreases |reqs|
  {
    if reqs != [] {
      var w' := Step(w, reqs[0], canUserSignUp, isValidSignUpCode);
      assert w'.session.error.Some? ==> KnownError(w'.session.error.value);
      PendingErrorKnown(w', reqs[1..], canUserSignUp, isValidSignUpCode);
    }
  }

  /** A valid code followed by a sign-in of an unknown subject that the gate
      admits creates that subject's account and nothing else: the table grows
      by one. */
  lemma SignUpThenSignIn(w: World, code: string, attempt: Attempt, canUserSignUp: Option<nat> -> bool,
                         isValidSignUpCode: string -> bool)
    requires isValidSignUpCode(code)
    requires attempt.faults == StoreFaults(false, false, false)
    requires attempt.profile.id !in w.accounts && |attempt.profile.emails| > 0
    requires canUserSignUp(Some(|w.accounts|))
    ensures var after := Serve(w, [SignUpCode(code), SignIn(attempt)], canUserSignUp, isValidSignUpCode);
      && after.accounts == w.accounts[attempt.profile.id := NewAccount(attempt)]
      && |after.accounts| == |w.accounts| + 1
      && after.session == SessionState(w.session.error, true)
  {
    var w1 := Step(w, SignUpCode(code), canUserSignUp, isValidSignUpCode);
    assert [SignUpCode(code), SignIn(attempt)][1..] == [SignIn(attempt)];
    assert Serve(w, [SignUpCode(code), SignIn(attempt)], canUserSignUp, isValidSignUpCode)
        == Serve(w1, [SignIn(attempt)], canUserSignUp, isValidSignUpCode);
  }

  /** The pending-error slot carries a rejection to the next request: when a
      sign-in ends in a rejection, an unauthenticated API request right after
      it is answered with that rejection and its code as the status. */
  lemma RejectionReachesNextApiRequest(w: World, attempt: Attempt, canUserSignUp: Option<nat> -> bool,
                                       isValidSignUpCode: string -> bool)
    ensures var run := VerifyRun(w.accounts, w.session.error, w.session.signup, attempt, canUserSignUp);
      var after := Step(w, SignIn(attempt), canUserSignUp, isValidSignUpCode);
      run.calls != [] && run.calls[|run.calls| - 1].Reject? ==>
        var e := run.calls[|run.calls| - 1].error;
        ApiGuard(false, after.session).reply == Json(e.code, e)
  {
    VerifyRunShape(w.accounts, w.session.error, w.session.signup, attempt, canUserSignUp);
  }
}
