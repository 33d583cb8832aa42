/** The per-session state the handlers share (`session.error`, the single
    pending-error slot, and `session.signup`), the two route guards and the
    sign-up-code handler. Each handler is given as a function on the session
    state, which specifies it, and as a method of `Session`, which performs
    it in place. */
module SessionGuards {
  import opened AuthTypes

  /** The two session fields the core reads and writes. */
  datatype SessionState = SessionState(error: Option<SessionError>, signup: bool)

  /** What a handler does with the response: pass to the next handler,
      redirect, send a bare status, or send an error body with a status. */
  datatype Reply = Next | Redirect(location: string) | Status(code: int) | Json(status: int, body: SessionError)

  /** A handler's reply together with the session state it leaves. */
  datatype Handled = Handled(reply: Reply, session: SessionState)

  /** `ensureAuthenticated`: an authenticated request clears the pending
      error and proceeds; any other request is redirected to the login page
      with the session untouched. */
  function PageGuard(authenticated: bool, s: SessionState): Handled
  {
    if authenticated then Handled(Next, s.(error := None))
    else Handled(Redirect("/login"), s)
  }

  /** The body an unauthenticated API request is answered with. */
  function PendingOrDefault(pending: Option<SessionError>): SessionError
  {
    if pending.Some? then pending.value else LoginRequired
  }

  /** `ensureApiAuthenticated`: an authenticated request clears the pending
      error and proceeds; any other request is answered with the pending
      error (or the default one), which is written back into the slot. */
  function ApiGuard(authenticated: bool, s: SessionState): Handled
  {
    if authenticated then Handled(Next, s.(error := None))
    else
      var err := PendingOrDefault(s.error);
      Handled(Json(err.code, err), s.(error := Some(err)))
  }

  /** The `/api/signup` handler, with the configured code check as a
      parameter. */
  function SignUpSubmit(signUpCode: string, isValidSignUpCode: string -> bool, s: SessionState): Handled
  {
    if isValidSignUpCode(signUpCode) then Handled(Status(200), s.(signup := true))
    else Handled(Json(401, InvalidSignUpCode), s.(error := Some(InvalidSignUpCode)))
  }

  /** Both guards let an authenticated request through and clear the pending
      error, so a later unauthenticated API request gets the default error
      and never a stale one; neither guard ever touches the sign-up flag. */
  lemma GuardsAdmitAuthenticated(s: SessionState)
    ensures PageGuard(true, s) == Handled(Next, SessionState(None, s.signup))
    ensures ApiGuard(true, s) == Handled(Next, SessionState(None, s.signup))
    ensures ApiGuard(false, PageGuard(true, s).session).reply == Json(401, LoginRequired)
    ensures ApiGuard(false, ApiGuard(true, s).session).reply == Json(401, LoginRequired)
  {
  }

  /** An unauthenticated page request goes to `/login` and leaves the pending
      error where it was, for the login page to show. */
  lemma PageGuardRedirects(s: SessionState)
    ensures PageGuard(false, s) == Handled(Redirect("/login"), s)
  {
  }

  /** An unauthenticated API request is answered with the pending error, or
      the default "A valid login session is required" when there is none; the
      status equals the body's code, and the body is what the slot holds
      afterwards. */
  lemma ApiGuardRelaysPending(s: SessionState)
    ensures var h := ApiGuard(false, s);
      && h.reply.Json?
      && h.reply.status == h.reply.body.code
      && (s.error.Some? ==> h.reply.body == s.error.value)
      && (s.error.None? ==> h.reply.body == LoginRequired && h.reply.status == 401)
      && h.session == SessionState(Some(h.reply.body), s.signup)
  {
  }

  /** Two unauthenticated API requests in a row get the same answer, and the
      second leaves the session as the first did. */
  lemma ApiGuardIdempotent(s: SessionState)
    ensures ApiGuard(false, ApiGuard(false, s).session) == ApiGuard(false, s)
  {
  }

  /** A valid code turns the sign-up flag on and answers 200, leaving the
      pending error alone; an invalid one sets the pending error to "Invalid
      sign up code..." and answers it with 401, leaving the flag alone. */
  lemma SignUpSubmitOutcome(signUpCode: string, isValidSignUpCode: string -> bool, s: SessionState)
    ensures isValidSignUpCode(signUpCode) ==>
      SignUpSubmit(signUpCode, isValidSignUpCode, s) == Handled(Status(200), SessionState(s.error, true))
    ensures !isValidSignUpCode(signUpCode) ==>
      SignUpSubmit(signUpCode, isValidSignUpCode, s)
        == Handled(Json(401, InvalidSignUpCode), SessionState(Some(InvalidSignUpCode), s.signup))
  {
  }

  /** A session (`req.session`) as the handlers update it in place. */
  class Session {
    var error: Option<SessionError>
    var signup: bool

    /** A fresh session has no pending error and no sign-up permission. */
    constructor ()
      ensures error == None && !signup
    {
      error := None;
      signup := false;
    }

    function State(): SessionState
      reads this
    {
      SessionState(error, signup)
    }

    /** `ensureAuthenticated`, performed on this session. */
    method EnsureAuthenticated(authenticated: bool) returns (reply: Reply)
      modifies this`error
      ensures authenticated ==> reply == Next && error == None
      ensures !authenticated ==> reply == Redirect("/login") && error == old(error)
      ensures Handled(reply, State()) == PageGuard(authenticated, old(State()))
    {
      if authenticated {
        error := None;
        return Next;
      }
      reply := Redirect("/login");
    }

    /** `ensureApiAuthenticated`, performed on this session. */
    method EnsureApiAuthenticated(authenticated: bool) returns (reply: Reply)
      modifies this`error
      ensures authenticated ==> reply == Next && error == None
      ensures !authenticated ==> error.Some? && reply == Json(error.value.code, error.value)
      ensures !authenticated && old(error).Some? ==> error == old(error)
      ensures !authenticated && old(error).None? ==> error == Some(LoginRequired)
      ensures Handled(reply, State()) == ApiGuard(authenticated, old(State()))
    {
      if authenticated {
        error := None;
        return Next;
      } else {
        var err := if error.Some? then error.value else LoginRequired;
        error := Some(err);
        reply := Json(err.code, err);
      }
    }

    /** The `/api/signup` handler, performed on this session. */
    method SignUp(signUpCode: string, isValidSignUpCode: string -> bool) returns (reply: Reply)
      modifies this
      ensures isValidSignUpCode(signUpCode) ==> reply == Status(200) && signup && error == old(error)
      ensures !isValidSignUpCode(signUpCode) ==>
        reply == Json(401, InvalidSignUpCode) && error == Some(InvalidSignUpCode) && signup == old(signup)
      ensures Handled(reply, State()) == SignUpSubmit(signUpCode, isValidSignUpCode, old(State()))
    {
      if isValidSignUpCode(signUpCode) {
        signup := true;
        reply := Status(200);
      } else {
        var err := InvalidSignUpCode;
        error := Some(err);
        reply := Json(401, err);
      }
    }
  }
}
