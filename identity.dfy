/** What the session code reads from the identity provider: accounts, token
    responses, and the payload of a JSON Web Token (RFC 7519). A token in JWS
    compact serialization (section 7.1 of RFC 7515) is
    header "." payload "." signature; the code takes the second "."-separated
    segment. Base64 and JSON decoding of that segment are a parameter. */
module Identity {
  import opened Wrappers
  import opened Text
  import opened AuthStore

  /** An identity-provider account: display name and user name. */
  datatype Account = Account(name: Option<string>, username: string)

  /** A token response: the raw access token, the account it was issued for
      (absent in some responses), and the role claim of the ID token. */
  datatype TokenResponse = TokenResponse(accessToken: string, account: Option<Account>, roles: Option<seq<string>>)

  /** A silent token request: it either yields a response or fails. */
  datatype SilentOutcome = Acquired(response: TokenResponse) | SilentFailed

  /** The decoded token payload; only `exp` is read. */
  datatype Payload = Payload(exp: Option<int>)

  /** The arguments passed to the store's `login`. */
  datatype LoginArgs = LoginArgs(user: User, token: Option<string>, roles: Option<seq<string>>, exp: Option<int>)

  /** `accessToken.split(".")[1]`: absent when the token has no ".". */
  function PayloadSegment(accessToken: string): Option<string> {
    var parts := Split(accessToken, '.');
    if |parts| >= 2 then Some(parts[1]) else None
  }

  /** For a token header "." payload "." signature, the segment is the payload. */
  lemma PayloadOfCompactToken(header: string, payload: string, signature: string)
    requires '.' !in header && '.' !in payload
    ensures PayloadSegment(header + "." + payload + "." + signature) == Some(payload)
  {
    var t := header + "." + payload + "." + signature;
    assert t == header + ['.'] + (payload + ['.'] + signature);
    SplitAfterHead(header, '.', payload + ['.'] + signature);
    SplitAfterHead(payload, '.', signature);
  }

  /** A token without any "." has no payload segment, so decoding it fails. */
  lemma NoSegmentWithoutDot(accessToken: string)
    requires '.' !in accessToken
    ensures PayloadSegment(accessToken) == None
  {
    SplitWhole(accessToken, '.');
  }

  /** The decoding both flows perform before calling `login`: take the payload
      segment, decode it, and read the account. Any failure (no segment, a
      payload that does not decode, a response without an account) yields
      `None`, and then `login` is not called. */
  function DecodeLogin(response: TokenResponse, decode: string -> Option<Payload>): (r: Option<LoginArgs>)
    ensures r.Some? <==>
      PayloadSegment(response.accessToken).Some? && decode(PayloadSegment(response.accessToken).value).Some?
      && response.account.Some?
    ensures r.Some? ==>
      && r.value.user.displayName == response.account.value.name
      && r.value.user.email == Some(response.account.value.username)
      && r.value.token == Some(response.accessToken)
      && r.value.roles == response.roles
      && r.value.exp == decode(PayloadSegment(response.accessToken).value).value.exp
  {
    match PayloadSegment(response.accessToken)
    case None => None
    case Some(segment) =>
      match decode(segment)
      case None => None
      case Some(payload) =>
        match response.account
        case None => None
        case Some(account) =>
          Some(LoginArgs(User(Some(account.username), account.name, None),
                         Some(response.accessToken), response.roles, payload.exp))
  }

  /** The login a silent token request leads to: none when the request fails
      or its response does not decode. */
  function LoginFrom(outcome: SilentOutcome, decode: string -> Option<Payload>): (r: Option<LoginArgs>)
    ensures outcome.SilentFailed? ==> r.None?
    ensures outcome.Acquired? ==> r == DecodeLogin(outcome.response, decode)
  {
    match outcome
    case SilentFailed => None
    case Acquired(response) => DecodeLogin(response, decode)
  }

  /** The session a login with these arguments produces. */
  function SessionOf(args: LoginArgs): AuthState {
    SignedIn(args.user, args.token, args.roles, args.exp)
  }
}
