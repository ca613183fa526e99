/**
 * The session store: who is signed in, with which token, and the status of
 * the last login attempt. Only the user, the token and the authenticated flag
 * are persisted; on reload the session is restored only when both a token
 * and a user came back.
 */
module Auth {
  import opened Wrappers
  import opened Types

  datatype Role = Administrador | Cajero

  datatype User = User(id: Id, name: string, email: string, role: Role)

  /**
   * What the credential check answers: a user and token, or a failure with
   * the thrown error's message (`None` when what was thrown was not an
   * `Error`).
   */
  datatype LoginOutcome = Granted(user: User, token: string) | Rejected(message: Option<string>)

  const UnexpectedErrorMessage := "Error inesperado"

  /** All five fields of the store, as one value. */
  datatype Session = Session(
    user: Option<User>,
    token: Option<string>,
    status: LoadStatus,
    error: Option<string>,
    isAuthenticated: bool)

  /** The part of the session written to storage. */
  datatype PersistedAuth = PersistedAuth(user: Option<User>, token: Option<string>, isAuthenticated: bool)

  const SignedOut := Session(None, None, Idle, None, false)

  /** An authenticated session always has a user and a token. */
  predicate Consistent(s: Session) {
    s.isAuthenticated ==> s.user.Some? && s.token.Some?
  }

  /** The session a finished login leaves, from any session. */
  function AfterLogin(outcome: LoginOutcome): (s: Session)
    ensures Consistent(s)
    ensures s.isAuthenticated <==> outcome.Granted?
    ensures s.isAuthenticated <==> s.status == Success
    ensures outcome.Rejected? ==> s.status == Error && s.user == None && s.token == None
    ensures outcome.Rejected? ==> s.error == Some(outcome.message.GetOr(UnexpectedErrorMessage))
    ensures outcome.Granted? ==> s.user == Some(outcome.user) && s.token == Some(outcome.token) && s.error == None
  {
    match outcome
    case Granted(u, t) => Session(Some(u), Some(t), Success, None, true)
    case Rejected(m) => Session(None, None, Error, Some(m.GetOr(UnexpectedErrorMessage)), false)
  }

  /** The saved record: the session's user, token and flag, nothing else. */
  function Partialize(s: Session): (p: PersistedAuth)
    ensures p.user == s.user && p.token == s.token && p.isAuthenticated == s.isAuthenticated
  {
    PersistedAuth(s.user, s.token, s.isAuthenticated)
  }

  /** What `onRehydrateStorage` makes of a session: authenticated, or fully signed out. */
  function Rehydrated(s: Session): (r: Session)
    ensures Consistent(r)
    ensures r.isAuthenticated <==> Truthy(s.token) && s.user.Some?
    ensures r.isAuthenticated ==> r == s.(isAuthenticated := true, status := Success, error := None)
    ensures !r.isAuthenticated ==> r == SignedOut
  {
    if Truthy(s.token) && s.user.Some? then s.(isAuthenticated := true, status := Success, error := None)
    else SignedOut
  }

  /** Loading saved fields over a session, as the persistence layer merges them. */
  function Merge(s: Session, saved: PersistedAuth): (r: Session)
    ensures Partialize(r) == saved
    ensures r.status == s.status && r.error == s.error
  {
    s.(user := saved.user, token := saved.token, isAuthenticated := saved.isAuthenticated)
  }

  /**
   * Only the user, the token and the flag are saved: the saved record ignores
   * status and error, and loading it back restores exactly those three fields.
   */
  lemma SavedFieldsRoundTrip(s: Session, start: Session, status: LoadStatus, error: Option<string>)
    ensures Partialize(s.(status := status, error := error)) == Partialize(s)
    ensures Merge(start, Partialize(s)) == start.(user := s.user, token := s.token, isAuthenticated := s.isAuthenticated)
  {
  }

  /** Rehydrating twice is rehydrating once. */
  lemma RehydrateIsIdempotent(s: Session)
    ensures Rehydrated(Rehydrated(s)) == Rehydrated(s)
  {
  }

  /**
   * A reload after a successful login with a non-empty token restores the
   * same session; after a failed login it yields the signed-out session.
   */
  lemma ReloadRestoresLogin(start: Session, outcome: LoginOutcome)
    ensures outcome.Granted? && outcome.token != "" ==>
      Rehydrated(Merge(start, Partialize(AfterLogin(outcome)))) == AfterLogin(outcome)
    ensures outcome.Rejected? ==>
      Rehydrated(Merge(start, Partialize(AfterLogin(outcome)))) == SignedOut
  {
  }

  /** What is stored does not depend on status or error, so those never survive a reload. */
  lemma ReloadForgetsStatusAndError(s: Session, start: Session)
    ensures !Rehydrated(Merge(start, Partialize(s))).isAuthenticated ==>
      Rehydrated(Merge(start, Partialize(s))).error == None
    ensures Rehydrated(Merge(start, Partialize(s))).status in {Idle, Success}
  {
  }

  class AuthStore {
    var user: Option<User>
    var token: Option<string>
    var status: LoadStatus
    var error: Option<string>
    var isAuthenticated: bool

    function Current(): Session
      reads this
    {
      Session(user, token, status, error, isAuthenticated)
    }

    ghost predicate Valid()
      reads this
    {
      Consistent(Current())
    }

    constructor ()
      ensures Valid() && Current() == SignedOut
    {
      user := None;
      token := None;
      status := Idle;
      error := None;
      isAuthenticated := false;
    }

    /** The first step of `login`: loading, with the error cleared and the session otherwise kept. */
    method BeginLogin()
      requires Valid()
      modifies this
      ensures Valid()
      ensures Current() == old(Current()).(status := Loading, error := None)
    {
      status := Loading;
      error := None;
    }

    /**
     * `login` with the credential check's answer as input; `ok` is false
     * exactly when the original rethrows.
     */
    method Login(outcome: LoginOutcome) returns (ok: bool)
      requires Valid()
      modifies this
      ensures Valid()
      ensures Current() == AfterLogin(outcome)
      ensures ok <==> outcome.Granted?
    {
      BeginLogin();
      match outcome {
        case Granted(u, t) =>
          user := Some(u);
          token := Some(t);
          isAuthenticated := true;
          status := Success;
          error := None;
          ok := true;
        case Rejected(m) =>
          status := Error;
          error := Some(m.GetOr(UnexpectedErrorMessage));
          isAuthenticated := false;
          user := None;
          token := None;
          ok := false;
      }
    }

    /** Signs out from any state; calling it again changes nothing. */
    method Logout()
      modifies this
      ensures Valid()
      ensures Current() == SignedOut
    {
      user := None;
      token := None;
      isAuthenticated := false;
      status := Idle;
      error := None;
    }

    /** Loads saved fields over the current ones. */
    method Hydrate(saved: PersistedAuth)
      modifies this
      ensures Current() == Merge(old(Current()), saved)
    {
      user := saved.user;
      token := saved.token;
      isAuthenticated := saved.isAuthenticated;
    }

    /** `onRehydrateStorage`: normalises whatever was loaded, so the store is consistent afterwards. */
    method OnRehydrate()
      modifies this
      ensures Valid()
      ensures Current() == Rehydrated(old(Current()))
    {
      if token.Some? && token.value != "" && user.Some? {
        isAuthenticated := true;
        status := Success;
        error := None;
      } else {
        isAuthenticated := false;
        user := None;
        token := None;
        status := Idle;
        error := None;
      }
    }
  }
}
