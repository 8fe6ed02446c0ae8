/**
 * The `auth` slice: the signed-in user, a loading flag and the last error, changed by three plain
 * reducers and by the pending/fulfilled/rejected actions of the signIn, signUp and signOut thunks.
 */
module AuthSlice {
  import opened Optional

  /** The account the auth service reports; only its identity matters to the slices. */
  datatype User = User(id: string, email: string)

  datatype AuthState = AuthState(user: Option<User>, isLoading: bool, error: Option<string>)

  const Initial := AuthState(None, false, None)
  const SignInFailed := "Erro ao fazer login"
  const SignUpFailed := "Erro ao criar conta"

  /**
   * Every action the slice can receive. The thunks' fulfilled payloads may be null (signUp returns
   * `data.user`, which is null when no session is created).
   */
  datatype AuthAction =
    | SetUser(payload: User)
    | ClearUser
    | SetLoading(loading: bool)
    | SignInPending
    | SignInFulfilled(user: Option<User>)
    | SignInRejected(message: Option<string>)
    | SignUpPending
    | SignUpFulfilled(user: Option<User>)
    | SignUpRejected(message: Option<string>)
    | SignOutPending
    | SignOutFulfilled
    | SignOutRejected(message: Option<string>)

  /** The slice's reducer. signOut has no pending or rejected handler, so those leave the state as it is. */
  function Reduce(s: AuthState, a: AuthAction): AuthState
  {
    match a
    case SetUser(u) => AuthState(Some(u), false, None)
    case ClearUser => AuthState(None, false, None)
    case SetLoading(b) => s.(isLoading := b)
    case SignInPending => s.(isLoading := true, error := None)
    case SignInFulfilled(u) => AuthState(u, false, None)
    case SignInRejected(m) => s.(isLoading := false, error := Some(OrElse(m, SignInFailed)))
    case SignUpPending => s.(isLoading := true, error := None)
    case SignUpFulfilled(u) => AuthState(u, false, None)
    case SignUpRejected(m) => s.(isLoading := false, error := Some(OrElse(m, SignUpFailed)))
    case SignOutPending => s
    case SignOutFulfilled => AuthState(None, false, None)
    case SignOutRejected(_) => s
  }

  /** The state after dispatching `actions` in order, starting from `s`. */
  function Run(s: AuthState, actions: seq<AuthAction>): AuthState
  {
    if actions == [] then s else Reduce(Run(s, actions[..|actions| - 1]), actions[|actions| - 1])
  }

  /** The actions with a handler that assigns `user`. */
  predicate AssignsUser(a: AuthAction)
  {
    a.SetUser? || a.ClearUser? || a.SignInFulfilled? || a.SignUpFulfilled? || a.SignOutFulfilled?
  }

  /** A stored error is never the empty string. */
  predicate ErrorReadable(s: AuthState)
  {
    s.error.None? || s.error.value != ""
  }

  /** Every rejection leaves a non-empty message: an empty or missing one falls back to the slice's default. */
  lemma {:induction false} ErrorAlwaysReadable(s: AuthState, actions: seq<AuthAction>)
    requires ErrorReadable(s)
    ensures ErrorReadable(Run(s, actions))
  {
    if actions != [] {
      ErrorAlwaysReadable(s, actions[..|actions| - 1]);
      var m := actions[|actions| - 1];
      if m.SignInRejected? {
        OrElseNonEmpty(m.message, SignInFailed);
      } else if m.SignUpRejected? {
        OrElseNonEmpty(m.message, SignUpFailed);
      }
    }
  }

  /** Only setUser, clearUser and the fulfilled actions of the thunks touch `user`. */
  lemma {:induction false} UserKeptWithoutAssignment(s: AuthState, actions: seq<AuthAction>)
    requires forall a :: a in actions ==> !AssignsUser(a)
    ensures Run(s, actions).user == s.user
  {
    if actions != [] {
      var init := actions[..|actions| - 1];
      assert forall a :: a in init ==> a in actions;
      UserKeptWithoutAssignment(s, init);
      assert actions[|actions| - 1] in actions;
    }
  }

  /** However the state was reached, a completed signOut or a clearUser returns it to the initial state. */
  lemma SignOutResets(s: AuthState, actions: seq<AuthAction>)
    ensures Run(s, actions + [SignOutFulfilled]) == Initial
    ensures Run(s, actions + [ClearUser]) == Initial
  {
    assert (actions + [SignOutFulfilled])[..|actions|] == actions;
    assert (actions + [ClearUser])[..|actions|] == actions;
  }

  /** A failed sign-in or sign-up attempt keeps the previous user and reports the failure. */
  lemma FailedAttemptKeepsUser(s: AuthState, m: Option<string>)
    ensures Run(s, [SignInPending, SignInRejected(m)]) == AuthState(s.user, false, Some(OrElse(m, SignInFailed)))
    ensures Run(s, [SignUpPending, SignUpRejected(m)]) == AuthState(s.user, false, Some(OrElse(m, SignUpFailed)))
  {
    assert [SignInPending, SignInRejected(m)][..1] == [SignInPending];
    assert [SignInPending][..0] == [];
    assert Run(s, [SignInPending]) == Reduce(s, SignInPending);
    assert [SignUpPending, SignUpRejected(m)][..1] == [SignUpPending];
    assert [SignUpPending][..0] == [];
    assert Run(s, [SignUpPending]) == Reduce(s, SignUpPending);
  }

  /** The store's `auth` state, changed in place by one method per handled action. */
  class AuthStore {
    var user: Option<User>
    var isLoading: bool
    var error: Option<string>

    function State(): AuthState
      reads this
    {
      AuthState(user, isLoading, error)
    }

    constructor ()
      ensures State() == Initial
    {
      user, isLoading, error := None, false, None;
    }

    method SetUser(payload: User)
      modifies this
      ensures user == Some(payload) && !isLoading && error == None
    {
      user := Some(payload);
      isLoading := false;
      error := None;
    }

    method ClearUser()
      modifies this
      ensures State() == Initial
    {
      user := None;
      isLoading := false;
      error := None;
    }

    method SetLoading(loading: bool)
      modifies this
      ensures isLoading == loading && user == old(user) && error == old(error)
    {
      isLoading := loading;
    }

    method SignInPending()
      modifies this
      ensures isLoading && error == None && user == old(user)
    {
      isLoading := true;
      error := None;
    }

    method SignInFulfilled(payload: Option<User>)
      modifies this
      ensures user == payload && !isLoading && error == None
    {
      user := payload;
      isLoading := false;
      error := None;
    }

    method SignInRejected(message: Option<string>)
      modifies this
      ensures !isLoading && user == old(user)
      ensures error == Some(if Truthy(message) then message.value else SignInFailed)
    {
      isLoading := false;
      error := Some(OrElse(message, SignInFailed));
    }

    method SignUpPending()
      modifies this
      ensures isLoading && error == None && user == old(user)
    {
      isLoading := true;
      error := None;
    }

    method SignUpFulfilled(payload: Option<User>)
      modifies this
      ensures user == payload && !isLoading && error == None
    {
      user := payload;
      isLoading := false;
      error := None;
    }

    method SignUpRejected(message: Option<string>)
      modifies this
      ensures !isLoading && user == old(user)
      ensures error == Some(if Truthy(message) then message.value else SignUpFailed)
    {
      isLoading := false;
      error := Some(OrElse(message, SignUpFailed));
    }

    method SignOutFulfilled()
      modifies this
      ensures State() == Initial
    {
      user := None;
      isLoading := false;
      error := None;
    }

    /** Routes an action to its handler; an action without a handler changes nothing. */
    method Dispatch(a: AuthAction)
      modifies this
      ensures State() == Reduce(old(State()), a)
    {
      match a
      case SetUser(u) => SetUser(u);
      case ClearUser => ClearUser();
      case SetLoading(b) => SetLoading(b);
      case SignInPending => SignInPending();
      case SignInFulfilled(u) => SignInFulfilled(u);
      case SignInRejected(m) => SignInRejected(m);
      case SignUpPending => SignUpPending();
      case SignUpFulfilled(u) => SignUpFulfilled(u);
      case SignUpRejected(m) => SignUpRejected(m);
      case SignOutPending =>
      case SignOutFulfilled => SignOutFulfilled();
      case SignOutRejected(_) =>
    }
  }
}
