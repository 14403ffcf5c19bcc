/** The signed-in session of the Android app
    (app/src/main/java/com/example/uinavegacion/data/SessionManager.kt):
    either a regular user or an administrator is signed in, never both,
    plus the authentication token of the remote services. */
module Session {
  import opened Wrappers
  import opened Text

  /** The fields of a `users` row the session hands out. */
  datatype UserEntity = UserEntity(
    id: int, remoteId: Option<string>, name: string, email: string,
    phone: string, profilePhotoUri: Option<string>, isBlocked: bool)

  /** The fields of an `admins` row the session hands out. */
  datatype AdminEntity = AdminEntity(
    id: int, name: string, email: string, phone: string, role: string,
    profilePhotoUri: Option<string>)

  /** The session's four fields; `loggedIn` is unset until the first
      sign-in or sign-out. */
  datatype SessionState = SessionState(
    user: Option<UserEntity>, admin: Option<AdminEntity>,
    loggedIn: Option<bool>, token: Option<string>)

  const INITIAL := SessionState(None, None, None, None)

  datatype SessionOp =
    | LoginUser(u: UserEntity)
    | LoginAdmin(a: AdminEntity)
    | Logout
    | SaveToken(t: string)

  /** The session invariant: user and administrator exclude each other, and
      the logged-in flag is true exactly when one of them is set. */
  predicate Exclusive(s: SessionState) {
    && !(s.user.Some? && s.admin.Some?)
    && ((s.user.Some? || s.admin.Some?) <==> s.loggedIn == Some(true))
  }

  /** What one operation does to the session. */
  function Apply(s: SessionState, op: SessionOp): (r: SessionState)
    ensures op.LoginUser? ==> r.user == Some(op.u) && r.admin.None? && r.loggedIn == Some(true)
    ensures op.LoginAdmin? ==> r.admin == Some(op.a) && r.user.None? && r.loggedIn == Some(true)
    ensures op.Logout? ==> r == SessionState(None, None, Some(false), None)
    ensures op.SaveToken? ==> r == s.(token := Some(op.t))
    ensures !op.Logout? && !op.SaveToken? ==> r.token == s.token
  {
    match op
    case LoginUser(u) => s.(user := Some(u), admin := None, loggedIn := Some(true))
    case LoginAdmin(a) => s.(admin := Some(a), user := None, loggedIn := Some(true))
    case Logout => s.(user := None, admin := None, loggedIn := Some(false), token := None)
    case SaveToken(t) => s.(token := Some(t))
  }

  function Run(s: SessionState, ops: seq<SessionOp>): SessionState
    decreases |ops|
  {
    if ops == [] then s else Run(Apply(s, ops[0]), ops[1..])
  }

  // ----- queries -----

  /** `hasToken`: a token is set and not blank. */
  predicate HasToken(s: SessionState): (b: bool)
    ensures b ==> s.token.Some? && |s.token.value| > 0
  {
    s.token.Some? && !IsBlank(s.token.value)
  }

  /** `isAdmin`: an administrator is signed in, and then, in a session
      that keeps the invariant, no regular user is. */
  predicate IsAdmin(s: SessionState): (b: bool)
    ensures Exclusive(s) && b ==> GetCurrentUserId(s).None? && s.loggedIn == Some(true)
  {
    s.admin.Some?
  }

  /** `getCurrentUserEmail`: the user's e-mail, else the administrator's. */
  function GetCurrentUserEmail(s: SessionState): (r: Option<string>)
    ensures s.user.Some? ==> r == Some(s.user.value.email)
    ensures s.user.None? && s.admin.Some? ==> r == Some(s.admin.value.email)
    ensures r.None? <==> s.user.None? && s.admin.None?
  {
    if s.user.Some? then Some(s.user.value.email)
    else if s.admin.Some? then Some(s.admin.value.email)
    else None
  }

  /** `getCurrentUserId`: only a regular user has one. */
  function GetCurrentUserId(s: SessionState): (r: Option<int>)
    ensures r.Some? <==> s.user.Some?
    ensures r.Some? ==> r.value == s.user.value.id
  {
    if s.user.Some? then Some(s.user.value.id) else None
  }

  /** `isModerator`: the signed-in administrator's role is "MODERATOR". */
  predicate IsModerator(s: SessionState): (b: bool)
    ensures b ==> IsAdmin(s)
  {
    s.admin.Some? && s.admin.value.role == "MODERATOR"
  }

  // ----- lemmas -----

  /** Every operation keeps the user and the administrator exclusive. */
  lemma ApplyKeepsExclusive(s: SessionState, op: SessionOp)
    requires Exclusive(s)
    ensures Exclusive(Apply(s, op))
  {
  }

  /** After any sequence of operations from the initial session, the user
      and the administrator are never both set. */
  lemma {:induction false} RunKeepsExclusive(s: SessionState, ops: seq<SessionOp>)
    requires Exclusive(s)
    ensures Exclusive(Run(s, ops))
    ensures !(Run(s, ops).user.Some? && Run(s, ops).admin.Some?)
    decreases |ops|
  {
    if ops != [] {
      ApplyKeepsExclusive(s, ops[0]);
      RunKeepsExclusive(Apply(s, ops[0]), ops[1..]);
    }
  }

  lemma InitialExclusive()
    ensures Exclusive(INITIAL)
    ensures !IsAdmin(INITIAL) && GetCurrentUserEmail(INITIAL).None? && !HasToken(INITIAL)
  {
  }

  /** A signed-in user is who the session answers for: their id and e-mail,
      and no administrator rights. */
  lemma AfterLoginUser(s: SessionState, u: UserEntity)
    ensures var r := Apply(s, LoginUser(u));
      && GetCurrentUserId(r) == Some(u.id) && GetCurrentUserEmail(r) == Some(u.email)
      && !IsAdmin(r) && !IsModerator(r) && r.token == s.token
  {
  }

  /** A signed-in administrator answers with their own e-mail and no user
      id; moderator rights follow their role. */
  lemma AfterLoginAdmin(s: SessionState, a: AdminEntity)
    ensures var r := Apply(s, LoginAdmin(a));
      && GetCurrentUserId(r).None? && GetCurrentUserEmail(r) == Some(a.email)
      && IsAdmin(r) && (IsModerator(r) <==> a.role == "MODERATOR")
  {
  }

  /** After sign-out nobody is signed in and no token is held. */
  lemma AfterLogout(s: SessionState)
    ensures var r := Apply(s, Logout);
      && GetCurrentUserEmail(r).None? && GetCurrentUserId(r).None?
      && !IsAdmin(r) && !IsModerator(r) && !HasToken(r) && r.token.None?
  {
  }

  /** A saved token is the one handed back, and counts as held unless blank. */
  lemma AfterSaveToken(s: SessionState, t: string)
    ensures var r := Apply(s, SaveToken(t));
      && r.token == Some(t) && (HasToken(r) <==> !IsBlank(t))
      && r.user == s.user && r.admin == s.admin
  {
  }

  /** The `SessionManager` singleton. */
  class SessionManager {
    var currentUser: Option<UserEntity>
    var currentAdmin: Option<AdminEntity>
    var isLoggedIn: Option<bool>
    var authToken: Option<string>

    function State(): SessionState
      reads this
    {
      SessionState(currentUser, currentAdmin, isLoggedIn, authToken)
    }

    ghost predicate Valid()
      reads this
    {
      Exclusive(State())
    }

    constructor ()
      ensures Valid() && State() == INITIAL
    {
      currentUser := None;
      currentAdmin := None;
      isLoggedIn := None;
      authToken := None;
    }

    method LoginUser(user: UserEntity)
      requires Valid()
      modifies this
      ensures Valid()
      ensures State() == Apply(old(State()), SessionOp.LoginUser(user))
    {
      currentUser := Some(user);
      currentAdmin := None;
      isLoggedIn := Some(true);
    }

    method LoginAdmin(admin: AdminEntity)
      requires Valid()
      modifies this
      ensures Valid()
      ensures State() == Apply(old(State()), SessionOp.LoginAdmin(admin))
    {
      currentAdmin := Some(admin);
      currentUser := None;
      isLoggedIn := Some(true);
    }

    method Logout()
      requires Valid()
      modifies this
      ensures Valid()
      ensures State() == Apply(old(State()), SessionOp.Logout)
    {
      currentUser := None;
      currentAdmin := None;
      isLoggedIn := Some(false);
      authToken := None;
    }

    method SaveToken(token: string)
      requires Valid()
      modifies this
      ensures Valid()
      ensures State() == Apply(old(State()), SessionOp.SaveToken(token))
    {
      authToken := Some(token);
    }

    /** `getToken`. */
    function GetToken(): (r: Option<string>)
      reads this
      ensures r == State().token
    {
      authToken
    }
  }
}
