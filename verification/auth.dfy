/** The session state machine: a pure reducer over the session record, plus
    the operations around it that also touch the store (restoring a saved
    session, signing in, signing out, editing the profile). The remote
    sign-in call is a parameter: its outcome is either a user with a token
    or a failure. */
module Auth {
  import opened Types
  import opened Storage

  datatype Session = Session(user: Option<User>, token: Option<string>, isAuthenticated: bool, isLoading: bool)

  /** The state before the saved session has been looked at. */
  const InitialSession := Session(None, None, false, true)

  const SignedOut := Session(None, None, false, false)

  datatype AuthAction =
    | LoginSuccess(user: User, token: string)
    | Logout
    | UpdateProfile(updates: UserPatch)
    | SetLoading(loading: bool)
    | Unrecognised

  /** `authReducer`. */
  function AuthReduce(s: Session, a: AuthAction): (r: Session)
    ensures a.LoginSuccess? ==> r.user == Some(a.user) && r.token == Some(a.token) && r.isAuthenticated && !r.isLoading
    ensures a.Logout? ==> r == SignedOut
    ensures a.UpdateProfile? ==> r.(user := s.user) == s && (r.user.Some? <==> s.user.Some?)
    ensures a.UpdateProfile? && s.user.Some? ==> r.user == Some(MergeUser(s.user.value, a.updates))
    ensures a.SetLoading? ==> r.(isLoading := s.isLoading) == s && r.isLoading == a.loading
    ensures a.Unrecognised? ==> r == s
  {
    match a
    case LoginSuccess(u, t) => s.(user := Some(u), token := Some(t), isAuthenticated := true, isLoading := false)
    case Logout => SignedOut
    case UpdateProfile(p) => s.(user := if s.user.Some? then Some(MergeUser(s.user.value, p)) else None)
    case SetLoading(b) => s.(isLoading := b)
    case Unrecognised => s
  }

  /** Authenticated exactly when a user is present, and never without a
      token. */
  predicate Consistent(s: Session) {
    (s.isAuthenticated <==> s.user.Some?) && (s.isAuthenticated ==> s.token.Some?)
  }

  /** Every action keeps a consistent session consistent. */
  lemma ReducePreservesConsistency(s: Session, a: AuthAction)
    requires Consistent(s)
    ensures Consistent(AuthReduce(s, a))
  {
  }

  /** The start-up effect: authenticate from the store only when both the
      saved user and a non-empty saved token are there; otherwise just stop
      loading. */
  function Restore(s: Session, store: Store): (r: Session)
    ensures GetUser(store).Some? && Present(GetToken(store)) ==>
              r.isAuthenticated && r.user == GetUser(store) && r.token == GetToken(store) && !r.isLoading
    ensures !(GetUser(store).Some? && Present(GetToken(store))) ==> r == s.(isLoading := false)
  {
    var user, token := GetUser(store), GetToken(store);
    if user.Some? && Present(token) then AuthReduce(s, LoginSuccess(user.value, token.value))
    else AuthReduce(s, SetLoading(false))
  }

  datatype AuthStep = AuthStep(session: Session, store: Store, ok: bool)

  /** The completion of `login` and of `register`: both start loading, call
      the remote service, and on success save the user and token and sign
      in; on failure they stop loading and report failure. */
  function SignIn(s: Session, store: Store, outcome: Option<(User, string)>): (r: AuthStep)
    ensures r.ok <==> outcome.Some?
    ensures outcome.Some? ==>
              r.session == s.(user := Some(outcome.value.0), token := Some(outcome.value.1),
                              isAuthenticated := true, isLoading := false)
              && GetUser(r.store) == Some(outcome.value.0) && GetToken(r.store) == Some(outcome.value.1)
    ensures outcome.Some? ==> r.store.(user := store.user, token := store.token) == store
    ensures outcome.None? ==> r.session == s.(isLoading := false) && r.store == store
  {
    var loading := AuthReduce(s, SetLoading(true));
    match outcome
    case Some((user, token)) =>
      AuthStep(AuthReduce(loading, LoginSuccess(user, token)), SetToken(SetUser(store, user), token), true)
    case None =>
      AuthStep(AuthReduce(loading, SetLoading(false)), store, false)
  }

  /** `logout`: wipe the store and sign out, from any state. */
  function SignOut(s: Session, store: Store): (r: AuthStep)
    ensures r.session == SignedOut
    ensures GetUser(r.store) == None && GetToken(r.store) == None
    ensures forall u :: GetAccounts(r.store, u) == [] && GetTransactions(r.store, u) == [] && GetBudgets(r.store, u) == []
    ensures GetCategories(r.store) == [] && GetTheme(r.store) == Light
  {
    AuthStep(AuthReduce(s, Logout), ClearAll(store), true)
  }

  /** `updateProfile`: with a signed-in user, save the merged user and merge
      the patch into the session; without one, do nothing. */
  function EditProfile(s: Session, store: Store, p: UserPatch): (r: AuthStep)
    ensures s.user.None? ==> r.session == s && r.store == store
    ensures s.user.Some? ==> r.session.user == GetUser(r.store) == Some(MergeUser(s.user.value, p))
    ensures r.store.(user := store.user) == store
    ensures r.session.(user := s.user) == s
  {
    if s.user.Some? then
      var updated := MergeUser(s.user.value, p);
      AuthStep(AuthReduce(s, UpdateProfile(p)), SetUser(store, updated), true)
    else AuthStep(s, store, true)
  }

  /** A successful sign-in with a non-empty token survives a restart: the
      restored session is the signed-in one. */
  lemma SignInSurvivesRestart(s: Session, store: Store, user: User, token: string)
    requires token != ""
    ensures Restore(InitialSession, SignIn(s, store, Some((user, token))).store) == Session(Some(user), Some(token), true, false)
  {
  }

  /** An empty token signs the user in for this run only: a restart treats
      it as no token and finds no session. */
  lemma EmptyTokenNotRestored(s: Session, store: Store, user: User)
    ensures SignIn(s, store, Some((user, ""))).session.isAuthenticated
    ensures !Restore(InitialSession, SignIn(s, store, Some((user, ""))).store).isAuthenticated
  {
  }

  /** After signing out, a restart finds no session. */
  lemma SignOutSurvivesRestart(s: Session, store: Store)
    ensures Restore(InitialSession, SignOut(s, store).store) == SignedOut
  {
  }

  /** A profile edit survives a restart: the restored user is the edited
      one. */
  lemma EditSurvivesRestart(s: Session, store: Store, p: UserPatch)
    requires s.user.Some? && Present(GetToken(store))
    ensures Restore(InitialSession, EditProfile(s, store, p).store).user == EditProfile(s, store, p).session.user
  {
  }
}
