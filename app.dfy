/** The root component: a one-shot silent rehydration of the session, and a
    render gate that shows nothing until rehydration has finished. */
module App {
  import opened Wrappers
  import opened AuthStore
  import opened Identity

  /** JavaScript truthiness of a stored token: absent and "" are falsy. */
  predicate Truthy(token: Option<string>) {
    token.Some? && token.value != ""
  }

  /** What the root renders: nothing, or the route table. */
  datatype Screen = Blank | Routes

  class Root {
    var rehydrated: bool

    constructor ()
      ensures !rehydrated
    {
      rehydrated := false;
    }

    /** Nothing is rendered until rehydration has finished. */
    function View(): (r: Screen)
      reads this
      ensures r == Routes <==> rehydrated
    {
      if rehydrated then Routes else Blank
    }

    /** The rehydration effect. `inProgress` is the identity provider's
        interaction status, `accounts` its cached accounts, `silent` the
        outcome of a silent token request for an account, and `decode` the
        decoding of a token payload segment. Returns the account the silent
        request was made for, if one was made. Every failure is swallowed. */
    method Rehydrate(store: SessionStore, inProgress: string, accounts: seq<Account>,
                     silent: Account -> SilentOutcome, decode: string -> Option<Payload>)
      returns (requested: Option<Account>)
      modifies this, store
      ensures rehydrated
      ensures requested.Some? <==> inProgress == "none" && !Truthy(old(store.token)) && |accounts| > 0
      ensures requested.Some? ==> requested.value == accounts[0]
      ensures requested.None? ==> store.State() == old(store.State())
      ensures requested.Some? ==>
        match LoginFrom(silent(accounts[0]), decode)
        case Some(args) => store.State() == SessionOf(args)
        case None => store.State() == old(store.State())
    {
      if inProgress != "none" || Truthy(store.token) {
        rehydrated := true;
        return None;
      }
      if |accounts| == 0 {
        rehydrated := true;
        return None;
      }
      var account := accounts[0];
      requested := Some(account);
      var args := LoginFrom(silent(account), decode);
      if args.Some? {
        store.Login(args.value.user, args.value.token, args.value.roles, args.value.exp);
      }
      rehydrated := true;
    }
  }

  /** After rehydration the routes are rendered, whichever path it took. */
  lemma RoutesAfterRehydration(r: Root)
    requires r.rehydrated
    ensures r.View() == Routes
  {
  }
}
