/** The session store: five fields that `login` and `logout` overwrite as a
    whole. Persistence to tab-scoped storage is not modelled. */
module AuthStore {
  import opened Wrappers

  /** The signed-in principal. */
  datatype User = User(email: Option<string>, displayName: Option<string>, avatar: Option<string>)

  /** The avatar `login` always stores, whatever the caller passed. */
  const DefaultAvatar := "/lawyer.png"

  /** A snapshot of the store's five fields. */
  datatype AuthState = AuthState(
    isAuthenticated: bool,
    user: Option<User>,
    token: Option<string>,
    roles: Option<seq<string>>,
    accessTokenExp: Option<int>)

  /** The initial state, and the state `logout` restores. */
  const SignedOut := AuthState(false, None, None, None, None)

  /** The state `login(user, token, roles, exp)` writes. An omitted argument is
      `None`, the source's `null` default. */
  function SignedIn(user: User, token: Option<string>, roles: Option<seq<string>>, exp: Option<int>): AuthState {
    AuthState(true, Some(user.(avatar := Some(DefaultAvatar))), token, roles, exp)
  }

  class SessionStore {
    var isAuthenticated: bool
    var user: Option<User>
    var token: Option<string>
    var roles: Option<seq<string>>
    var accessTokenExp: Option<int>

    function State(): AuthState
      reads this
    {
      AuthState(isAuthenticated, user, token, roles, accessTokenExp)
    }

    constructor ()
      ensures State() == SignedOut
    {
      isAuthenticated := false;
      user := None;
      token := None;
      roles := None;
      accessTokenExp := None;
    }

    /** Marks the session authenticated whatever the other arguments are, and
        replaces all five fields: nothing of an earlier login survives. */
    method Login(u: User, token: Option<string>, roles: Option<seq<string>>, exp: Option<int>)
      modifies this
      ensures State() == SignedIn(u, token, roles, exp)
      ensures isAuthenticated
      ensures user == Some(User(u.email, u.displayName, Some(DefaultAvatar)))
    {
      this.isAuthenticated := true;
      this.user := Some(u.(avatar := Some(DefaultAvatar)));
      this.token := token;
      this.accessTokenExp := exp;
      this.roles := roles;
    }

    method Logout()
      modifies this
      ensures State() == SignedOut
    {
      isAuthenticated := false;
      user := None;
      token := None;
      roles := None;
      accessTokenExp := None;
    }
  }

  /** The caller's avatar has no effect: two users that differ only in their
      avatar produce the same session, whose avatar is the default one. */
  lemma AvatarIgnored(email: Option<string>, name: Option<string>, a1: Option<string>, a2: Option<string>,
                      token: Option<string>, roles: Option<seq<string>>, exp: Option<int>)
    ensures SignedIn(User(email, name, a1), token, roles, exp) == SignedIn(User(email, name, a2), token, roles, exp)
    ensures SignedIn(User(email, name, a1), token, roles, exp).user.value.avatar == Some(DefaultAvatar)
  {
  }

  /** Nothing ties the flag to the token: an authenticated session without a
      token is a state `login` produces. */
  lemma AuthenticatedWithoutToken(u: User)
    ensures SignedIn(u, None, None, None).isAuthenticated
    ensures SignedIn(u, None, None, None).token == None
  {
  }
}
