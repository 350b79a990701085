/** The session provider: the signed-in user, the loading flag the router
    watches, the `Authorization` default header of the HTTP client, and the
    two persisted records (user record, token pair).

    Every operation is written as the sequence of effects the source performs,
    in source order; the session after the operation is the replay of those
    effects over the session before it. Storage and HTTP results are inputs. */
module AuthContext {
  import opened Common

  /** The user record; `NoUser` is the empty object `{}` the provider starts
      with and resets to. */
  datatype User = NoUser | User(id: string, name: string, email: string, avatar: string, tel: string)

  /** `user.id` is truthy. */
  predicate HasId(u: User) {
    u.User? && Truthy(u.id)
  }

  datatype TokenPair = TokenPair(token: string, refreshToken: string)

  /** The persistent store: one slot for the user record, one for the tokens. */
  datatype Store = Store(user: Option<User>, tokens: Option<TokenPair>)

  datatype Session = Session(user: User, loading: bool, authorization: Option<string>, store: Store)

  function Bearer(token: string): string {
    "Bearer " + token
  }

  /** The provider's state on mount, over whatever the store holds. */
  function Initial(store: Store): (s: Session)
    ensures s.user == NoUser && !HasId(s.user)
    ensures s.loading
    ensures s.store == store
  {
    Session(NoUser, true, None, store)
  }

  /** One observable step of an operation. */
  datatype Effect =
    | SetLoading(on: bool)
    | SetUser(user: User)
    | SetAuthorization(header: string)
    | SaveUser(saved: User)
    | SaveTokens(tokens: TokenPair)
    | RemoveUser
    | RemoveTokens

  function ApplyEffect(s: Session, e: Effect): Session {
    match e
    case SetLoading(on) => s.(loading := on)
    case SetUser(u) => s.(user := u)
    case SetAuthorization(h) => s.(authorization := Some(h))
    case SaveUser(u) => s.(store := s.store.(user := Some(u)))
    case SaveTokens(t) => s.(store := s.store.(tokens := Some(t)))
    case RemoveUser => s.(store := s.store.(user := None))
    case RemoveTokens => s.(store := s.store.(tokens := None))
  }

  /** Replays effects in order. */
  function Apply(s: Session, es: seq<Effect>): Session
    decreases |es|
  {
    if |es| == 0 then s else Apply(ApplyEffect(s, es[0]), es[1..])
  }

  lemma {:induction false} ApplyConcat(s: Session, a: seq<Effect>, b: seq<Effect>)
    ensures Apply(s, a + b) == Apply(Apply(s, a), b)
    decreases |a|
  {
    if |a| == 0 {
      assert a + b == b;
    } else {
      assert (a + b)[1..] == a[1..] + b;
      ApplyConcat(ApplyEffect(s, a[0]), a[1..], b);
    }
  }

  /** The parts of a session an effect can write. */
  datatype Field = UserField | LoadingField | AuthorizationField | StoredUserField | StoredTokensField

  predicate Writes(e: Effect, f: Field) {
    match e
    case SetLoading(_) => f == LoadingField
    case SetUser(_) => f == UserField
    case SetAuthorization(_) => f == AuthorizationField
    case SaveUser(_) => f == StoredUserField
    case RemoveUser => f == StoredUserField
    case SaveTokens(_) => f == StoredTokensField
    case RemoveTokens => f == StoredTokensField
  }

  /** `s` and `t` hold the same value in field `f`. */
  predicate Agree(s: Session, t: Session, f: Field) {
    match f
    case UserField => s.user == t.user
    case LoadingField => s.loading == t.loading
    case AuthorizationField => s.authorization == t.authorization
    case StoredUserField => s.store.user == t.store.user
    case StoredTokensField => s.store.tokens == t.store.tokens
  }

  /** Effects that do not write a field leave it as it was. */
  lemma {:induction false} ApplyFrame(s: Session, es: seq<Effect>, f: Field)
    requires forall i :: 0 <= i < |es| ==> !Writes(es[i], f)
    ensures Agree(Apply(s, es), s, f)
    decreases |es|
  {
    if |es| > 0 {
      ApplyFrame(ApplyEffect(s, es[0]), es[1..], f);
    }
  }

  /** A field ends up holding what its last writer put there. */
  lemma LastWriter(s: Session, es: seq<Effect>, i: nat, f: Field)
    requires i < |es| && Writes(es[i], f)
    requires forall j :: i < j < |es| ==> !Writes(es[j], f)
    ensures Agree(Apply(s, es), ApplyEffect(s, es[i]), f)
  {
    assert es == es[..i] + ([es[i]] + es[i + 1..]);
    ApplyConcat(s, es[..i], [es[i]] + es[i + 1..]);
    var mid := ApplyEffect(Apply(s, es[..i]), es[i]);
    ApplyConcat(Apply(s, es[..i]), [es[i]], es[i + 1..]);
    ApplyFrame(mid, es[i + 1..], f);
  }

  datatype Failure = RequestFailed | StorageFailed

  /** How an awaited operation settles: it resolves, or it rethrows. */
  datatype Outcome = Resolved | Threw(failure: Failure)

  /** The effects of an operation and how it settles. */
  datatype Run = Run(effects: seq<Effect>, outcome: Outcome)

  /** The result of an operation: the session after it, and its run. */
  datatype Step = Step(session: Session, run: Run)

  function Perform(s: Session, run: Run): (r: Step)
    ensures r.run == run
  {
    Step(Apply(s, run.effects), run)
  }

  /** The body of `data` returned by `POST /sessions`. */
  datatype SessionResponse = SessionResponse(user: Option<User>, token: string, refreshToken: string)

  /** The guard of `signIn`: user, token and refresh token are all truthy. */
  predicate Complete(d: SessionResponse) {
    d.user.Some? && Truthy(d.token) && Truthy(d.refreshToken)
  }

  /** `storageUserAndTokenSave`: the user record is saved, then the token
      pair; a failing save skips what follows and rethrows; the loading flag
      is raised first and lowered in `finally`. */
  function SaveUserAndTokens(u: User, token: string, refreshToken: string, userSaveOk: bool, tokensSaveOk: bool): Run {
    if !userSaveOk then
      Run([SetLoading(true), SetLoading(false)], Threw(StorageFailed))
    else if !tokensSaveOk then
      Run([SetLoading(true), SaveUser(u), SetLoading(false)], Threw(StorageFailed))
    else
      Run([SetLoading(true), SaveUser(u), SaveTokens(TokenPair(token, refreshToken)), SetLoading(false)], Resolved)
  }

  /** `userAndTokenUpdate`: the header first, then the in-memory user. */
  function UserAndTokenUpdate(u: User, token: string): seq<Effect> {
    [SetAuthorization(Bearer(token)), SetUser(u)]
  }

  /** The effects of `signIn` given the reply of `POST /sessions` and the
      results of the two saves. */
  function SignInRun(reply: Reply<SessionResponse>, userSaveOk: bool, tokensSaveOk: bool): Run {
    match reply
    case Rejected => Run([SetLoading(false)], Threw(RequestFailed))
    case Ok(d) =>
      if !Complete(d) then Run([SetLoading(false)], Resolved)
      else
        var save := SaveUserAndTokens(d.user.value, d.token, d.refreshToken, userSaveOk, tokensSaveOk);
        if save.outcome.Threw? then Run(save.effects + [SetLoading(false)], save.outcome)
        else Run(save.effects + UserAndTokenUpdate(d.user.value, d.token) + [SetLoading(false)], Resolved)
  }

  /** `signIn`: all-or-nothing with respect to the in-memory user and the
      header; the store may keep the user record when only the token save
      fails. */
  function SignIn(s: Session, reply: Reply<SessionResponse>, userSaveOk: bool, tokensSaveOk: bool): (r: Step)
    ensures !r.session.loading
    ensures reply.Rejected? ==> r.run.outcome == Threw(RequestFailed) && r.session == s.(loading := false)
    ensures reply.Ok? && !Complete(reply.data) ==> r.run.outcome == Resolved && r.session == s.(loading := false)
    ensures reply.Ok? && Complete(reply.data) && userSaveOk && tokensSaveOk ==>
      var d := reply.data;
      && r.run.outcome == Resolved
      && r.session.user == d.user.value
      && r.session.authorization == Some(Bearer(d.token))
      && r.session.store == Store(Some(d.user.value), Some(TokenPair(d.token, d.refreshToken)))
    ensures reply.Ok? && Complete(reply.data) && !(userSaveOk && tokensSaveOk) ==>
      && r.run.outcome == Threw(StorageFailed)
      && r.session.user == s.user
      && r.session.authorization == s.authorization
      && r.session.store == (if userSaveOk then s.store.(user := reply.data.user) else s.store)
  {
    if reply.Ok? && Complete(reply.data) && userSaveOk && tokensSaveOk then
      SignInCommitsEffects(s, reply.data);
      Perform(s, SignInRun(reply, userSaveOk, tokensSaveOk))
    else if reply.Ok? && Complete(reply.data) then
      SignInSaveFailsEffects(s, reply.data, userSaveOk, tokensSaveOk);
      Perform(s, SignInRun(reply, userSaveOk, tokensSaveOk))
    else
      Perform(s, SignInRun(reply, userSaveOk, tokensSaveOk))
  }

  /** When both saves succeed, the trace of `signIn` sets user, header and
      both store records, and ends with loading off. */
  lemma SignInCommitsEffects(s: Session, d: SessionResponse)
    requires Complete(d)
    ensures
      var t := Apply(s, SignInRun(Ok(d), true, true).effects);
      && !t.loading && t.user == d.user.value && t.authorization == Some(Bearer(d.token))
      && t.store == Store(Some(d.user.value), Some(TokenPair(d.token, d.refreshToken)))
  {
    var u := d.user.value;
    var es := SignInRun(Ok(d), true, true).effects;
    assert es == [SetLoading(true), SaveUser(u), SaveTokens(TokenPair(d.token, d.refreshToken)),
                  SetLoading(false), SetAuthorization(Bearer(d.token)), SetUser(u), SetLoading(false)];
    LastWriter(s, es, 6, LoadingField);
    LastWriter(s, es, 5, UserField);
    LastWriter(s, es, 4, AuthorizationField);
    LastWriter(s, es, 1, StoredUserField);
    LastWriter(s, es, 2, StoredTokensField);
  }

  /** When a save fails, the trace of `signIn` leaves user and header alone
      and keeps only a user record whose save succeeded. */
  lemma SignInSaveFailsEffects(s: Session, d: SessionResponse, userSaveOk: bool, tokensSaveOk: bool)
    requires Complete(d) && !(userSaveOk && tokensSaveOk)
    ensures
      var t := Apply(s, SignInRun(Ok(d), userSaveOk, tokensSaveOk).effects);
      && !t.loading && t.user == s.user && t.authorization == s.authorization
      && t.store == (if userSaveOk then s.store.(user := d.user) else s.store)
  {
    var u := d.user.value;
    var es := SignInRun(Ok(d), userSaveOk, tokensSaveOk).effects;
    if !userSaveOk {
      assert es == [SetLoading(true), SetLoading(false), SetLoading(false)];
      LastWriter(s, es, 2, LoadingField);
      ApplyFrame(s, es, StoredUserField);
    } else {
      assert es == [SetLoading(true), SaveUser(u), SetLoading(false), SetLoading(false)];
      LastWriter(s, es, 3, LoadingField);
      LastWriter(s, es, 1, StoredUserField);
    }
    ApplyFrame(s, es, UserField);
    ApplyFrame(s, es, AuthorizationField);
    ApplyFrame(s, es, StoredTokensField);
  }

  /** The effects of `signOut` given the results of the two removals. */
  function SignOutRun(removeUserOk: bool, removeTokensOk: bool): Run {
    if !removeUserOk then
      Run([SetLoading(true), SetUser(NoUser), SetLoading(false)], Threw(StorageFailed))
    else if !removeTokensOk then
      Run([SetLoading(true), SetUser(NoUser), RemoveUser, SetLoading(false)], Threw(StorageFailed))
    else
      Run([SetLoading(true), SetUser(NoUser), RemoveUser, RemoveTokens, SetLoading(false)], Resolved)
  }

  /** `signOut`: the in-memory user is cleared before the store is touched,
      so it is cleared even when a removal fails; a failing user-record
      removal skips the token removal; the header is left as it was. */
  function SignOut(s: Session, removeUserOk: bool, removeTokensOk: bool): (r: Step)
    ensures r.session.user == NoUser
    ensures !r.session.loading
    ensures r.session.authorization == s.authorization
    ensures r.run.outcome == Resolved <==> removeUserOk && removeTokensOk
    ensures r.run.outcome.Threw? ==> r.run.outcome.failure == StorageFailed
    ensures !removeUserOk ==> r.session.store == s.store
    ensures removeUserOk && !removeTokensOk ==> r.session.store == s.store.(user := None)
    ensures removeUserOk && removeTokensOk ==> r.session.store == Store(None, None)
  {
    Perform(s, SignOutRun(removeUserOk, removeTokensOk))
  }

  /** The effects of `loadUserData` over the records in `store`, given
      whether each of the two reads succeeds. The user record is read first;
      a failing read skips what follows. */
  function LoadUserDataRun(store: Store, userReadOk: bool, tokensReadOk: bool): Run {
    if !userReadOk || !tokensReadOk then
      Run([SetLoading(true), SetLoading(false)], Threw(StorageFailed))
    else if store.user.Some? && store.tokens.Some? && Truthy(store.tokens.value.token) then
      Run([SetLoading(true)] + UserAndTokenUpdate(store.user.value, store.tokens.value.token) + [SetLoading(false)], Resolved)
    else
      Run([SetLoading(true), SetLoading(false)], Resolved)
  }

  /** `loadUserData`: restores the user and the header only when a user
      record and a truthy token are both stored; never writes the store. */
  function LoadUserData(s: Session, userReadOk: bool, tokensReadOk: bool): (r: Step)
    ensures !r.session.loading
    ensures r.session.store == s.store
    ensures r.run.outcome == Resolved <==> userReadOk && tokensReadOk
    ensures userReadOk && tokensReadOk && s.store.user.Some? && s.store.tokens.Some? && Truthy(s.store.tokens.value.token) ==>
      r.session.user == s.store.user.value && r.session.authorization == Some(Bearer(s.store.tokens.value.token))
    ensures !(userReadOk && tokensReadOk && s.store.user.Some? && s.store.tokens.Some? && Truthy(s.store.tokens.value.token)) ==>
      r.session.user == s.user && r.session.authorization == s.authorization
  {
    var run := LoadUserDataRun(s.store, userReadOk, tokensReadOk);
    var es := run.effects;
    if userReadOk && tokensReadOk && s.store.user.Some? && s.store.tokens.Some? && Truthy(s.store.tokens.value.token) then
      assert es == [SetLoading(true), SetAuthorization(Bearer(s.store.tokens.value.token)),
                    SetUser(s.store.user.value), SetLoading(false)];
      LastWriter(s, es, 3, LoadingField);
      LastWriter(s, es, 2, UserField);
      LastWriter(s, es, 1, AuthorizationField);
      ApplyFrame(s, es, StoredUserField);
      ApplyFrame(s, es, StoredTokensField);
      Perform(s, run)
    else
      Perform(s, run)
  }

  /** `a` occurs strictly before `b` in `es`. */
  predicate Precedes(es: seq<Effect>, a: Effect, b: Effect) {
    exists i, j :: 0 <= i < j < |es| && es[i] == a && es[j] == b
  }

  /** A committing `signIn` writes the user record, then the token pair, and
      only then sets the header and the in-memory user. */
  lemma SignInWritesStoreFirst(d: SessionResponse)
    requires Complete(d)
    ensures var es := SignInRun(Ok(d), true, true).effects;
      var u := d.user.value;
      var t := TokenPair(d.token, d.refreshToken);
      && Precedes(es, SaveUser(u), SaveTokens(t))
      && Precedes(es, SaveTokens(t), SetAuthorization(Bearer(d.token)))
      && Precedes(es, SetAuthorization(Bearer(d.token)), SetUser(u))
  {
    var es := SignInRun(Ok(d), true, true).effects;
    assert es[1] == SaveUser(d.user.value);
    assert es[2] == SaveTokens(TokenPair(d.token, d.refreshToken));
    assert es[4] == SetAuthorization(Bearer(d.token));
    assert es[5] == SetUser(d.user.value);
  }

  /** `signIn` sets the in-memory user only on a complete reply whose two
      saves both succeed. */
  lemma SignInSetsUserOnlyOnCommit(reply: Reply<SessionResponse>, userSaveOk: bool, tokensSaveOk: bool, u: User)
    requires SetUser(u) in SignInRun(reply, userSaveOk, tokensSaveOk).effects
    ensures reply.Ok? && Complete(reply.data) && userSaveOk && tokensSaveOk
    ensures u == reply.data.user.value
  {
  }

  /** Signing out twice leaves the same state as signing out once, whether
      or not the store's removals succeed. */
  lemma SignOutIdempotent(s: Session, userRemoved: bool, tokensRemoved: bool)
    ensures var once := SignOut(s, userRemoved, tokensRemoved).session;
      SignOut(once, userRemoved, tokensRemoved).session == once
  {
  }

  /** After a successful sign-in, a fresh provider over the same store
      restores the same user and the same header. */
  lemma RestoreAfterSignIn(s: Session, d: SessionResponse)
    requires Complete(d)
    ensures var signedIn := SignIn(s, Ok(d), true, true).session;
      var restored := LoadUserData(Initial(signedIn.store), true, true).session;
      && restored.user == signedIn.user
      && restored.authorization == signedIn.authorization
  {
  }

  /** After a successful sign-out, a fresh provider restores nobody. */
  lemma RestoreAfterSignOut(s: Session)
    ensures var signedOut := SignOut(s, true, true).session;
      LoadUserData(Initial(signedOut.store), true, true).session.user == NoUser
  {
  }
}
