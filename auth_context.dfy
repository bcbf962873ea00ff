/** The client's authentication state: the reducer that every auth action goes through,
    and the role test built on it. */
module AuthContext {
  import opened Common

  /** The signed-in user as the client keeps it; only the role matters here. */
  datatype User = User(id: UserId, name: string, role: string)

  datatype AuthState = AuthState(
    user: Option<User>,
    token: Option<string>,
    isLoading: bool,
    isAuthenticated: bool,
    error: Option<string>)

  /** The state on start-up, with whatever token the browser had stored. */
  function InitialState(storedToken: Option<string>): (s: AuthState)
    ensures s.user.None? && s.isLoading && !s.isAuthenticated && s.error.None? && s.token == storedToken
  {
    AuthState(None, storedToken, true, false, None)
  }

  /** The dispatched actions; `Unknown` stands for any other action type. */
  datatype Action =
    | SetLoading(loading: bool)
    | SetUser(u: User, t: string)
    | SetError(message: string)
    | Logout
    | ClearError
    | Unknown

  /** `authReducer`. */
  function Reduce(s: AuthState, a: Action): (r: AuthState)
  {
    match a
    case SetLoading(loading) => s.(isLoading := loading)
    case SetUser(u, t) => s.(user := Some(u), token := Some(t), isAuthenticated := true, isLoading := false, error := None)
    case SetError(message) => s.(error := Some(message), isLoading := false)
    case Logout => s.(user := None, token := None, isAuthenticated := false, isLoading := false, error := None)
    case ClearError => s.(error := None)
    case Unknown => s
  }

  /** SET_LOADING and CLEAR_ERROR each touch one field; an unknown action touches none. */
  lemma NarrowActions(s: AuthState, loading: bool)
    ensures var r := Reduce(s, SetLoading(loading));
      r.isLoading == loading && r == s.(isLoading := r.isLoading)
    ensures var r := Reduce(s, ClearError);
      r.error.None? && r == s.(error := r.error)
    ensures Reduce(s, Unknown) == s
  {
  }

  /** SET_ERROR records the message and stops loading, and leaves the user, the token and
      the authenticated flag as they were. */
  lemma ErrorKeepsSession(s: AuthState, message: string)
    ensures var r := Reduce(s, SetError(message));
      && r.error == Some(message) && !r.isLoading
      && r.user == s.user && r.token == s.token && r.isAuthenticated == s.isAuthenticated
  {
  }

  /** After SET_USER the client is signed in as that user; after LOGOUT it is signed out,
      whatever the state before. */
  lemma SignInAndOut(s: AuthState, u: User, t: string)
    ensures var r := Reduce(s, SetUser(u, t));
      r.isAuthenticated && r.user == Some(u) && r.token == Some(t) && !r.isLoading && r.error.None?
    ensures var r := Reduce(s, Logout);
      !r.isAuthenticated && r.user.None? && r.token.None? && !r.isLoading && r.error.None?
  {
  }

  /** Logging out twice is logging out once. */
  lemma LogoutIdempotent(s: AuthState)
    ensures Reduce(Reduce(s, Logout), Logout) == Reduce(s, Logout)
  {
  }

  /** The state after a sequence of actions. */
  function Run(s: AuthState, actions: seq<Action>): AuthState
    decreases |actions|
  {
    if actions == [] then s else Run(Reduce(s, actions[0]), actions[1..])
  }

  /** Authenticated exactly when a user is present: the reducer keeps this link, so every
      state reached from the initial one has it. */
  predicate Consistent(s: AuthState) {
    s.isAuthenticated <==> s.user.Some?
  }

  lemma ReduceKeepsConsistent(s: AuthState, a: Action)
    requires Consistent(s)
    ensures Consistent(Reduce(s, a))
  {
  }

  lemma {:induction false} RunKeepsConsistent(s: AuthState, actions: seq<Action>)
    requires Consistent(s)
    ensures Consistent(Run(s, actions))
    decreases |actions|
  {
    if actions != [] {
      ReduceKeepsConsistent(s, actions[0]);
      RunKeepsConsistent(Reduce(s, actions[0]), actions[1..]);
    }
  }

  /** Every state the client reaches from start-up is consistent. */
  lemma ReachableConsistent(storedToken: Option<string>, actions: seq<Action>)
    ensures Consistent(Run(InitialState(storedToken), actions))
  {
    RunKeepsConsistent(InitialState(storedToken), actions);
  }

  /** `hasRole(role)`: a user is present and has that role. */
  predicate HasRole(s: AuthState, role: string) {
    s.user.Some? && s.user.value.role == role
  }

  /** A signed-out client has no role, and a signed-in one has exactly its user's role. */
  lemma HasRoleAfterActions(s: AuthState, u: User, t: string, role: string)
    ensures !HasRole(Reduce(s, Logout), role)
    ensures HasRole(Reduce(s, SetUser(u, t)), role) <==> u.role == role
  {
  }
}
