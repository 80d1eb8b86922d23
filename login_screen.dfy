/** The interactive sign-in handler: a popup login, a silent token request
    for the account the popup returned, a login into the session store, and
    exactly one navigation. */
module LoginScreen {
  import opened Wrappers
  import opened AuthStore
  import opened Identity

  /** The interactive popup: it either returns (with the account it signed
      in, which may be absent) or fails. */
  datatype PopupOutcome = PopupSucceeded(account: Option<Account>) | PopupFailed

  const LayoutRoute := "/layout"
  const LoginRoute := "/login"

  /** `silent` is the outcome of a silent token request for the account the
      popup returned; `decode` decodes a token payload segment. Returns the
      route navigated to. */
  method HandleMicrosoftLogin(store: SessionStore, popup: PopupOutcome,
                              silent: Option<Account> -> SilentOutcome, decode: string -> Option<Payload>)
    returns (route: string)
    modifies store
    ensures route == LayoutRoute || route == LoginRoute
    ensures route == LayoutRoute <==> popup.PopupSucceeded? && LoginFrom(silent(popup.account), decode).Some?
    ensures route == LayoutRoute ==> store.State() == SessionOf(LoginFrom(silent(popup.account), decode).value)
    ensures route == LoginRoute ==> store.State() == old(store.State())
  {
    if popup.PopupFailed? {
      return LoginRoute;
    }
    var args := LoginFrom(silent(popup.account), decode);
    if args.None? {
      return LoginRoute;
    }
    store.Login(args.value.user, args.value.token, args.value.roles, args.value.exp);
    route := LayoutRoute;
  }
}
