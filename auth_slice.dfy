/**
 * The authentication slice (AuthSlice.ts): the state `{ user, isAuthenticated,
 * loading }` and its four reducers, each of which assigns fields of the state
 * in place.
 */
module AuthSlice {
  import opened Wrappers

  datatype User = User(userId: string, name: string, email: string, role: string)

  class AuthState {
    var user: Option<User>
    var isAuthenticated: bool
    var loading: bool

    /** `isAuthenticated` tells the truth about whether a user is held. */
    predicate Consistent()
      reads this
    {
      isAuthenticated <==> user.Some?
    }

    /** initialState: no user, not authenticated, loading. */
    constructor ()
      ensures user == None && !isAuthenticated && loading
      ensures Consistent()
    {
      user := None;
      isAuthenticated := false;
      loading := true;
    }

    method SetCredentials(u: User)
      modifies this
      ensures user == Some(u) && isAuthenticated && !loading
      ensures Consistent()
    {
      user := Some(u);
      isAuthenticated := true;
      loading := false;
    }

    method SetLoading(b: bool)
      modifies this
      ensures loading == b
      ensures user == old(user) && isAuthenticated == old(isAuthenticated)
      ensures Consistent() <==> old(Consistent())
    {
      loading := b;
    }

    method Logout()
      modifies this
      ensures user == None && !isAuthenticated && !loading
      ensures Consistent()
    {
      user := None;
      isAuthenticated := false;
      loading := false;
    }

    method UpdateUser(u: User)
      modifies this
      ensures user == Some(u)
      ensures isAuthenticated == old(isAuthenticated) && loading == old(loading)
      ensures Consistent() <==> old(isAuthenticated)
    {
      user := Some(u);
    }
  }

  /** updateUser after logout leaves a user in the state that is not authenticated. */
  method UpdateAfterLogout(u: User) returns (consistent: bool, authenticated: bool, held: Option<User>)
    ensures !consistent && !authenticated && held == Some(u)
  {
    var s := new AuthState();
    s.SetCredentials(u);
    s.Logout();
    s.UpdateUser(u);
    consistent, authenticated, held := s.Consistent(), s.isAuthenticated, s.user;
  }

  /** The actions of the slice other than updateUser. */
  datatype Action = SetCredentials(user: User) | SetLoading(loading: bool) | Logout

  /** Whether a user is signed in after `actions`, starting from `signedIn`: the last setCredentials or logout decides. */
  function SignedInAfter(signedIn: bool, actions: seq<Action>): bool {
    if actions == [] then signedIn
    else
      match actions[|actions| - 1]
      case SetCredentials(_) => true
      case Logout => false
      case SetLoading(_) => SignedInAfter(signedIn, actions[..|actions| - 1])
  }

  /**
   * Any run of setCredentials, setLoading and logout, in any order and from any consistent
   * state, keeps the state consistent, and leaves it authenticated exactly when the last
   * setCredentials came after the last logout (or, with neither, when it started so).
   */
  method RunWithoutUpdateUser(start: Option<User>, startLoading: bool, actions: seq<Action>)
    returns (consistent: bool, authenticated: bool)
    ensures consistent
    ensures authenticated == SignedInAfter(start.Some?, actions)
  {
    var s := new AuthState();
    s.user, s.isAuthenticated, s.loading := start, start.Some?, startLoading;
    var k := 0;
    while k < |actions|
      invariant 0 <= k <= |actions|
      invariant s.Consistent()
      invariant s.isAuthenticated == SignedInAfter(start.Some?, actions[..k])
    {
      match actions[k] {
        case SetCredentials(u) => s.SetCredentials(u);
        case SetLoading(b) => s.SetLoading(b);
        case Logout => s.Logout();
      }
      assert actions[..k + 1][..k] == actions[..k];
      k := k + 1;
    }
    assert actions[..k] == actions;
    consistent, authenticated := s.Consistent(), s.isAuthenticated;
  }
}
