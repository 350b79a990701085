/** The root router: which of its three views it renders for a session. */
module Routes {
  import opened Common
  import opened AuthContext

  datatype View = LoadingView | AppRoutes | AuthRoutes

  /** `Routes`: the loading screen while the provider is busy, otherwise the
      signed-in routes exactly when `user.id` is truthy. */
  function SelectView(loading: bool, user: User): (v: View)
    ensures v == LoadingView <==> loading
    ensures v == AppRoutes <==> !loading && HasId(user)
    ensures v == AuthRoutes <==> !loading && !HasId(user)
  {
    if loading then LoadingView
    else if HasId(user) then AppRoutes
    else AuthRoutes
  }

  function ViewOf(s: Session): View {
    SelectView(s.loading, s.user)
  }

  /** A freshly mounted provider shows the loading screen. */
  lemma InitialShowsLoading(store: Store)
    ensures ViewOf(Initial(store)) == LoadingView
  {
  }

  /** No operation of the provider leaves the loading screen up. */
  lemma OperationsSettle(s: Session, reply: Reply<SessionResponse>, a: bool, b: bool)
    ensures ViewOf(SignIn(s, reply, a, b).session) != LoadingView
    ensures ViewOf(SignOut(s, a, b).session) != LoadingView
    ensures ViewOf(LoadUserData(s, a, b).session) != LoadingView
  {
  }

  /** A committed sign-in of a user with an id shows the signed-in routes. */
  lemma SignInShowsApp(s: Session, d: SessionResponse)
    requires Complete(d) && HasId(d.user.value)
    ensures ViewOf(SignIn(s, Ok(d), true, true).session) == AppRoutes
  {
  }

  /** Signing out shows the sign-in routes even when a removal fails. */
  lemma SignOutShowsAuth(s: Session, removeUserOk: bool, removeTokensOk: bool)
    ensures ViewOf(SignOut(s, removeUserOk, removeTokensOk).session) == AuthRoutes
  {
  }

  /** Restoring from an empty store shows the sign-in routes; restoring a
      stored user with an id and a token shows the signed-in routes. */
  lemma RestoreShows(store: Store)
    ensures store.user.None? ==> ViewOf(LoadUserData(Initial(store), true, true).session) == AuthRoutes
    ensures store.user.Some? && HasId(store.user.value) && store.tokens.Some? && Truthy(store.tokens.value.token) ==>
      ViewOf(LoadUserData(Initial(store), true, true).session) == AppRoutes
  {
  }
}
