/** The session state every page reads (frontend/src/context/AuthContext.tsx): who is signed
 *  in, whether the start-up session check has settled, and its bounded retries while the
 *  server cannot be reached. */
module AuthContext {
  import opened Common

  const MAX_RETRIES := 12
  const RETRY_DELAY_MS := 5000
  const TOO_MANY_REQUESTS := "Too many requests. Please try again shortly."
  const LOGIN_PATH := "/login"

  datatype Phase = Checking | Resolved | Unreachable

  datatype User = User(id: string, email: string, name: string)

  /** The provider's state: the `user`, `loginSuccess` and `authPhase` state, the retry
   *  counter, whether a retry timer is set and not cleared, and the `datapulse_user` entry
   *  of local storage. */
  datatype Session = Session(user: Option<User>, loginSuccess: bool, phase: Phase,
                             retryCount: nat, retryPending: bool, stored: Option<User>)

  /** What the session request ended with: a reply (with or without a user), an error
   *  response with its status, or no response at all (also any error that is not an HTTP
   *  client error). */
  datatype Outcome = Reply(replyUser: Option<User>) | ErrorResponse(status: nat) | NoResponse

  function Initial(stored: Option<User>): Session
  {
    Session(None, false, Checking, 0, false, stored)
  }

  /** The counter never passes the limit. */
  predicate Bounded(s: Session)
  {
    s.retryCount <= MAX_RETRIES
  }

  /** `isAuthResolved` and `isAuthenticated`. */
  predicate IsAuthResolved(s: Session)
  {
    s.phase == Resolved
  }

  predicate IsAuthenticated(s: Session)
  {
    s.user.Some?
  }

  /** `saveAuth`: the user is kept and stored. */
  function SaveAuth(s: Session, u: User): (r: Session)
    ensures r.user == Some(u) && r.stored == Some(u) && r.loginSuccess
    ensures r.phase == s.phase && r.retryCount == s.retryCount && r.retryPending == s.retryPending
  {
    s.(user := Some(u), stored := Some(u), loginSuccess := true)
  }

  /** `clearAuth`: nobody is signed in, nothing is stored, the counter is back to zero and a
   *  pending retry is cancelled. */
  function ClearAuth(s: Session): (r: Session)
    ensures !IsAuthenticated(r) && !r.loginSuccess && r.stored.None?
    ensures r.retryCount == 0 && !r.retryPending && r.phase == s.phase
  {
    s.(user := None, loginSuccess := false, stored := None, retryCount := 0, retryPending := false)
  }

  /** One run of `checkSession`; the flag says whether a retry was scheduled. */
  function CheckStep(s: Session, outcome: Outcome): (Session, bool)
  {
    match outcome
    case Reply(u) =>
      var saved := if u.Some? then SaveAuth(s, u.value) else s;
      (saved.(phase := Resolved, retryCount := 0), false)
    case NoResponse =>
      if s.retryCount < MAX_RETRIES then (s.(retryCount := s.retryCount + 1, retryPending := true), true)
      else (s.(phase := Unreachable), false)
    case ErrorResponse(_) =>
      (ClearAuth(s).(phase := Resolved), false)
  }

  /** A reply settles the check with the counter reset, signing in its user if it has one. */
  lemma ReplySettles(s: Session, u: Option<User>)
    ensures var (r, retry) := CheckStep(s, Reply(u));
      && IsAuthResolved(r) && r.retryCount == 0 && !retry
      && (u.Some? ==> r.user == u && r.stored == u && r.loginSuccess)
      && (u.None? ==> r.user == s.user && r.stored == s.stored)
  {
  }

  /** An error response settles the check signed out. */
  lemma ErrorResponseSignsOut(s: Session, status: nat)
    ensures var (r, retry) := CheckStep(s, ErrorResponse(status));
      IsAuthResolved(r) && !IsAuthenticated(r) && r.stored.None? && r.retryCount == 0 && !retry
  {
  }

  /** Without a response the check retries, with the phase and the user untouched, until
   *  the counter reaches the limit; then it gives up as unreachable. */
  lemma NoResponseRetries(s: Session)
    requires Bounded(s)
    ensures var (r, retry) := CheckStep(s, NoResponse);
      && Bounded(r) && r.user == s.user && r.stored == s.stored
      && (retry <==> s.retryCount < MAX_RETRIES)
      && (retry ==> r.retryCount == s.retryCount + 1 && r.phase == s.phase)
      && (!retry ==> r.phase == Unreachable && r.retryCount == s.retryCount)
  {
  }

  /** `n` checks in a row that all get no response. */
  function NoResponses(s: Session, n: nat): Session
    decreases n
  {
    if n == 0 then s else NoResponses(CheckStep(s, NoResponse).0, n - 1)
  }

  /** From a fresh counter, a server that never answers is retried exactly twelve times: the
   *  phase is unchanged after up to twelve failures and unreachable after the thirteenth. */
  lemma {:induction false} AtMostTwelveRetries(s: Session, n: nat)
    requires Bounded(s)
    ensures NoResponses(s, n).retryCount == if s.retryCount + n <= MAX_RETRIES then s.retryCount + n else MAX_RETRIES
    ensures s.retryCount + n <= MAX_RETRIES ==> NoResponses(s, n).phase == s.phase
    ensures s.retryCount + n > MAX_RETRIES ==> NoResponses(s, n).phase == Unreachable
    ensures NoResponses(s, n).user == s.user
    decreases n
  {
    if n > 0 {
      var next := CheckStep(s, NoResponse).0;
      AtMostTwelveRetries(next, n - 1);
      if s.retryCount == MAX_RETRIES && n > 1 {
        StaysUnreachable(next, n - 1);
      }
    }
  }

  lemma {:induction false} StaysUnreachable(s: Session, n: nat)
    requires s.retryCount == MAX_RETRIES && s.phase == Unreachable
    ensures NoResponses(s, n) == s
    decreases n
  {
    if n > 0 {
      StaysUnreachable(CheckStep(s, NoResponse).0, n - 1);
    }
  }

  /** `handleError`: the message shown, and whether the error is thrown again (every status
   *  but 401, and no status at all). */
  function HandleError(status: Option<nat>, detail: Option<string>, fallback: string): (r: (string, bool))
    ensures r.1 <==> status != Some(401)
    ensures status == Some(429) ==> r.0 == TOO_MANY_REQUESTS
    ensures status != Some(429) ==> r.0 == (if detail.Some? && detail.value != [] then detail.value else fallback)
  {
    var message := if status == Some(429) then TOO_MANY_REQUESTS
                   else if detail.Some? && detail.value != [] then detail.value else fallback;
    (message, status != Some(401))
  }

  /** What an e-mail or Google sign-in request ended with. */
  datatype LoginOutcome = LoggedIn(u: User) | Refused(status: Option<nat>, detail: Option<string>)

  class AuthProvider {
    var session: Session
    var loading: bool

    predicate Valid()
      reads this
    {
      Bounded(session)
    }

    constructor (stored: Option<User>)
      ensures Valid() && session == Initial(stored) && !loading
    {
      session := Initial(stored);
      loading := false;
    }

    /** `checkSession`: returns the signed-in user (the promise's value) and whether a
     *  retry was scheduled in `RETRY_DELAY_MS`. */
    method CheckSession(outcome: Outcome) returns (user: Option<User>, retry: bool)
      requires Valid()
      modifies this
      ensures Valid()
      ensures (session, retry) == CheckStep(old(session), outcome)
      ensures user == (if outcome.Reply? then outcome.replyUser else None)
      ensures loading == old(loading)
    {
      user := None;
      retry := false;
      match outcome {
        case Reply(u) =>
          if u.Some? {
            session := SaveAuth(session, u.value);
          }
          session := session.(phase := Resolved, retryCount := 0);
          user := u;
        case NoResponse =>
          if session.retryCount < MAX_RETRIES {
            session := session.(retryCount := session.retryCount + 1, retryPending := true);
            retry := true;
          } else {
            session := session.(phase := Unreachable);
          }
        case ErrorResponse(_) =>
          session := ClearAuth(session);
          session := session.(phase := Resolved);
      }
    }

    /** `login` and `googleLogin`: a success signs in and settles the phase. A refusal shows
     *  `handleError`'s message; only for a 401 does `clearAuth` run, because for any other
     *  status `handleError` has already thrown. Either way the error reaches the caller. */
    method Login(outcome: LoginOutcome, fallback: string) returns (toast: Option<string>, thrown: bool)
      requires Valid()
      modifies this
      ensures Valid()
      ensures outcome.LoggedIn? ==>
        session == SaveAuth(old(session), outcome.u).(phase := Resolved) && toast.None? && !thrown
      ensures outcome.Refused? ==>
        && thrown
        && toast == Some(HandleError(outcome.status, outcome.detail, fallback).0)
        && session == (if outcome.status == Some(401) then ClearAuth(old(session)) else old(session))
      ensures !loading
    {
      loading := true;
      match outcome {
        case LoggedIn(u) =>
          session := SaveAuth(session, u);
          session := session.(phase := Resolved);
          toast, thrown := None, false;
        case Refused(status, detail) =>
          var handled := HandleError(status, detail, fallback);
          var message, rethrow := handled.0, handled.1;
          toast := Some(message);
          if !rethrow {
            session := ClearAuth(session);
          }
          thrown := true;
      }
      loading := false;
    }

    /** `sendPasswordReset`: `true` when sent, `false` only after a 401; every other failure
     *  rejects (`None`). */
    method SendPasswordReset(failure: Option<Option<nat>>) returns (sent: Option<bool>)
      modifies this
      ensures failure.None? ==> sent == Some(true)
      ensures failure.Some? ==> (sent == Some(false) <==> failure.value == Some(401))
      ensures failure.Some? && failure.value != Some(401) ==> sent.None?
      ensures session == old(session) && !loading
    {
      loading := true;
      if failure.None? {
        sent := Some(true);
      } else if failure.value == Some(401) {
        sent := Some(false);
      } else {
        sent := None;
      }
      loading := false;
    }

    /** `logout`: whatever the request does, the session ends signed out and settled, and
     *  the page goes to the sign-in route. */
    method Logout() returns (navigateTo: string)
      modifies this
      ensures session == ClearAuth(old(session)).(phase := Resolved)
      ensures navigateTo == LOGIN_PATH && loading == old(loading)
    {
      session := ClearAuth(session);
      session := session.(phase := Resolved);
      navigateTo := LOGIN_PATH;
    }
  }

  /** After a logout the context reports a settled, signed-out session with a fresh counter,
   *  so a later check may retry twelve times again. */
  lemma LogoutSignsOut(s: Session)
    ensures var r := ClearAuth(s).(phase := Resolved);
      IsAuthResolved(r) && !IsAuthenticated(r) && r.retryCount == 0 && !r.retryPending && Bounded(r)
  {
  }
}
