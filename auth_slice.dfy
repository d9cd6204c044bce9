/** The client's authentication state (redux/slices/authSlice.ts): the
    signed-in user, whether there is one, and whether the session is
    still loading, with the reducers `setUser`, `clearUser` and
    `setLoading`. */
module AuthSlice {
  import opened Common

  /** The user the client keeps; the optional profile fields the slice's
      type allows but nothing here sets are left out. */
  datatype ClientUser = ClientUser(id: string, name: string, email: string, profileImage: Option<string>)

  datatype AuthState = AuthState(user: Option<ClientUser>, isAuthenticated: bool, loading: bool)

  datatype Action = SetUser(payload: ClientUser) | ClearUser | SetLoading(flag: bool)

  /** `isAuthenticated` says exactly whether a user is held. */
  predicate Consistent(s: AuthState) {
    s.isAuthenticated <==> s.user.Some?
  }

  const Initial := AuthState(None, false, true)

  /** The slice's reducer, one action at a time. */
  function Reduce(s: AuthState, a: Action): (r: AuthState)
    ensures Consistent(s) ==> Consistent(r)
    ensures a.SetUser? ==> r.user == Some(a.payload) && r.isAuthenticated && !r.loading
    ensures a.ClearUser? ==> r.user.None? && !r.isAuthenticated && !r.loading
    ensures a.SetLoading? ==> r == s.(loading := a.flag)
  {
    match a
    case SetUser(u) => AuthState(Some(u), true, false)
    case ClearUser => AuthState(None, false, false)
    case SetLoading(flag) => s.(loading := flag)
  }

  /** Dispatching a sequence of actions in order. */
  function Run(s: AuthState, actions: seq<Action>): AuthState
    decreases |actions|
  {
    if actions == [] then s else Run(Reduce(s, actions[0]), actions[1..])
  }

  /** The initial state is consistent, and every run of actions from a
      consistent state stays consistent. */
  lemma {:induction false} RunKeepsConsistent(s: AuthState, actions: seq<Action>)
    requires Consistent(s)
    ensures Consistent(Run(s, actions))
    decreases |actions|
  {
    if actions != [] {
      RunKeepsConsistent(Reduce(s, actions[0]), actions[1..]);
    }
  }

  /** `setLoading` never touches who is signed in. */
  lemma {:induction false} LoadingKeepsUser(s: AuthState, flags: seq<bool>)
    ensures var r := Run(s, seq(|flags|, i requires 0 <= i < |flags| => SetLoading(flags[i])));
            r.user == s.user && r.isAuthenticated == s.isAuthenticated
    decreases |flags|
  {
    var actions := seq(|flags|, i requires 0 <= i < |flags| => SetLoading(flags[i]));
    if flags != [] {
      var rest := seq(|flags[1..]|, i requires 0 <= i < |flags[1..]| => SetLoading(flags[1..][i]));
      assert actions[1..] == rest;
      LoadingKeepsUser(Reduce(s, actions[0]), flags[1..]);
    }
  }

  /** The store's `auth` slice, updated in place by each dispatch. */
  class AuthStore {
    var user: Option<ClientUser>
    var isAuthenticated: bool
    var loading: bool

    function State(): AuthState
      reads this
    {
      AuthState(user, isAuthenticated, loading)
    }

    predicate Valid()
      reads this
    {
      Consistent(State())
    }

    constructor ()
      ensures Valid() && State() == Initial
    {
      user, isAuthenticated, loading := None, false, true;
    }

    method SetUserAction(payload: ClientUser)
      modifies this
      ensures State() == Reduce(old(State()), SetUser(payload))
    {
      user := Some(payload);
      isAuthenticated := true;
      loading := false;
    }

    method ClearUserAction()
      modifies this
      ensures State() == Reduce(old(State()), ClearUser)
    {
      user := None;
      isAuthenticated := false;
      loading := false;
    }

    method SetLoadingAction(flag: bool)
      modifies this
      ensures State() == Reduce(old(State()), SetLoading(flag))
    {
      loading := flag;
    }

    method Dispatch(a: Action)
      requires Valid()
      modifies this
      ensures Valid() && State() == Reduce(old(State()), a)
    {
      match a
      case SetUser(u) => SetUserAction(u);
      case ClearUser => ClearUserAction();
      case SetLoading(flag) => SetLoadingAction(flag);
    }
  }
}
