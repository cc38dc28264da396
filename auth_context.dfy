/** The client's session state (src/context/AuthContext.tsx): `authReducer`
    over the four actions, from `initialState`. The session is signed in
    exactly when it holds both a user and a token, and every action keeps
    it so. */
module AuthContext {
  import opened Common
  import opened UserModel

  datatype AuthState = AuthState(user: Option<UserView>, token: Option<string>, isLoading: bool,
                                 isAuthenticated: bool)

  datatype AuthAction =
    | SetLoading(loading: bool)
    | SetUser(u: UserView, t: string)
    | Logout
    | SetError(message: string)

  /** `initialState`: nobody signed in, still loading. */
  const InitialState: AuthState := AuthState(None, None, true, false)

  /** Signed in exactly when there is a user, exactly when there is a token. */
  predicate Consistent(s: AuthState)
  {
    (s.isAuthenticated <==> s.user.Some?) && (s.user.Some? <==> s.token.Some?)
  }

  /** `authReducer`. `SET_ERROR` has no case of its own and falls to `default`. */
  function Reduce(s: AuthState, a: AuthAction): (r: AuthState)
    ensures Consistent(s) ==> Consistent(r)
  {
    match a
    case SetLoading(loading) => s.(isLoading := loading)
    case SetUser(u, t) => s.(user := Some(u), token := Some(t), isAuthenticated := true, isLoading := false)
    case Logout => s.(user := None, token := None, isAuthenticated := false, isLoading := false)
    case SetError(_) => s
  }

  /** The state after a run of actions. */
  function Run(s: AuthState, actions: seq<AuthAction>): AuthState
    decreases |actions|
  {
    if actions == [] then s else Run(Reduce(s, actions[0]), actions[1..])
  }

  lemma InitialStateConsistent()
    ensures Consistent(InitialState)
    ensures !InitialState.isAuthenticated && InitialState.isLoading
  {
  }

  /** From the initial state, every run of actions leaves the session consistent. */
  lemma {:induction false} RunKeepsConsistent(s: AuthState, actions: seq<AuthAction>)
    requires Consistent(s)
    ensures Consistent(Run(s, actions))
    decreases |actions|
  {
    if actions != [] {
      RunKeepsConsistent(Reduce(s, actions[0]), actions[1..]);
    }
  }

  /** What each action does to each field. */
  lemma ActionEffects(s: AuthState, loading: bool, u: UserView, t: string, message: string)
    ensures Reduce(s, SetLoading(loading)) == s.(isLoading := loading)
    ensures var r := Reduce(s, SetUser(u, t));
            r.user == Some(u) && r.token == Some(t) && r.isAuthenticated && !r.isLoading
    ensures var r := Reduce(s, Logout);
            r.user.None? && r.token.None? && !r.isAuthenticated && !r.isLoading
    ensures Reduce(s, SetError(message)) == s
  {
  }

  /** Signing out twice is signing out once; so is setting the same user twice. */
  lemma ReduceIdempotent(s: AuthState, u: UserView, t: string)
    ensures Reduce(Reduce(s, Logout), Logout) == Reduce(s, Logout)
    ensures Reduce(Reduce(s, SetUser(u, t)), SetUser(u, t)) == Reduce(s, SetUser(u, t))
  {
  }

  /** Whatever came before, the last sign-in or sign-out decides who is signed in. */
  lemma {:induction false} LastSessionActionDecides(s: AuthState, actions: seq<AuthAction>, k: nat)
    requires k < |actions| && (actions[k].SetUser? || actions[k].Logout?)
    requires forall j :: k < j < |actions| ==> !actions[j].SetUser? && !actions[j].Logout?
    ensures actions[k].Logout? ==> Run(s, actions).user.None? && !Run(s, actions).isAuthenticated
    ensures actions[k].SetUser? ==> Run(s, actions).user == Some(actions[k].u)
                                    && Run(s, actions).token == Some(actions[k].t)
                                    && Run(s, actions).isAuthenticated
    decreases |actions|
  {
    if k == 0 {
      SessionFieldsSurvive(Reduce(s, actions[0]), actions[1..]);
    } else {
      LastSessionActionDecides(Reduce(s, actions[0]), actions[1..], k - 1);
    }
  }

  /** Loading and error actions leave the user, the token and the flag alone. */
  lemma {:induction false} SessionFieldsSurvive(s: AuthState, actions: seq<AuthAction>)
    requires forall j :: 0 <= j < |actions| ==> !actions[j].SetUser? && !actions[j].Logout?
    ensures Run(s, actions).user == s.user && Run(s, actions).token == s.token
    ensures Run(s, actions).isAuthenticated == s.isAuthenticated
    decreases |actions|
  {
    if actions != [] {
      SessionFieldsSurvive(Reduce(s, actions[0]), actions[1..]);
    }
  }
}
