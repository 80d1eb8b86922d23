/** The request gateway hook. Each call site holds a `data`/`loading`/`error`
    triple; a request sets `loading`, builds the request from the method,
    path and payload, and on completion stores either the response body or an
    error message and raises a fixed error toast. The transport itself is an
    input: the outcome of sending the request. */
module UseApi {
  import opened Wrappers
  import opened Text
  import opened AuthStore
  import opened Notify

  datatype HttpMethod = GET | POST | PUT | DELETE

  /** A request payload: a JSON object (field values as their serialised
      text) or a multipart form. */
  datatype Payload = Json(fields: map<string, string>) | FormData(entries: seq<(string, string)>)

  datatype Headers = Headers(authorization: string, contentType: Option<string>, userId: Option<string>)

  datatype HttpRequest = HttpRequest(
    verb: HttpMethod,
    url: string,
    data: Option<Payload>,
    params: Option<map<string, string>>,
    headers: Headers)

  /** What the transport reports: a response body, or a failure with the
      server's `detail` field (if a response arrived) and the error message. */
  datatype Transport<T> = Delivered(body: T) | Rejected(detail: Option<string>, message: Option<string>)

  /** The Authorization header: a fixed placeholder, not the stored token. */
  const BearerHeader := "Bearer todoToken"

  const JsonContentType := "application/json"

  /** The toast every failed request raises, whatever the failure. */
  const ApiErrorToast := Toast(ErrorKind, "API Error", Some("Internal server error. Please try again later."))

  /** The `user-id` header: the display name, else the e-mail, else "". */
  function UserIdHeader(user: Option<User>): (r: string)
    ensures user.Some? && user.value.displayName.Some? && user.value.displayName.value != "" ==>
      r == user.value.displayName.value
    ensures (user.None? || user.value.displayName.None? || user.value.displayName.value == "") ==>
      r == (if user.Some? then OrElse(user.value.email, "") else "")
  {
    if user.None? then "" else OrElse(user.value.displayName, OrElse(user.value.email, ""))
  }

  /** `overridePath || defaultPath`. */
  function ResolvePath(overridePath: Option<string>, defaultPath: string): (r: string)
    ensures overridePath.Some? && overridePath.value != "" ==> r == overridePath.value
    ensures overridePath.None? || overridePath.value == "" ==> r == defaultPath
  {
    OrElse(overridePath, defaultPath)
  }

  /** The request sent for a method, path, payload and query parameters. */
  function BuildRequest(baseUrl: string, user: Option<User>, verb: HttpMethod, path: string,
                        payload: Payload, params: map<string, string>): (r: HttpRequest)
    ensures r.verb == verb && r.url == baseUrl + "/" + path
    ensures r.headers.authorization == BearerHeader
    ensures r.data.Some? <==> verb != GET
    ensures r.data.Some? ==> r.data.value == payload
    ensures r.params.Some? <==> verb == GET
    ensures r.params.Some? ==> r.params.value == params
    ensures r.headers.contentType.None? <==> payload.FormData?
    ensures r.headers.userId.None? <==> payload.FormData?
    ensures r.headers.contentType.Some? ==> r.headers.contentType.value == JsonContentType
    ensures r.headers.userId.Some? ==> r.headers.userId.value == UserIdHeader(user)
  {
    var headers :=
      if payload.FormData? then Headers(BearerHeader, None, None)
      else Headers(BearerHeader, Some(JsonContentType), Some(UserIdHeader(user)));
    HttpRequest(verb, baseUrl + "/" + path,
                if verb != GET then Some(payload) else None,
                if verb == GET then Some(params) else None,
                headers)
  }

  /** `detail || message || "Unknown API error"`: never empty. */
  function ErrorMessage(detail: Option<string>, message: Option<string>): (r: string)
    ensures r != ""
    ensures detail.Some? && detail.value != "" ==> r == detail.value
    ensures (detail.None? || detail.value == "") && message.Some? && message.value != "" ==> r == message.value
    ensures (detail.None? || detail.value == "") && (message.None? || message.value == "") ==> r == "Unknown API error"
  {
    OrElse(detail, OrElse(message, "Unknown API error"))
  }

  /** The wrappers send `{}` as the payload of GET and DELETE, so both carry
      the JSON content type and the `user-id` header. */
  lemma GetAndDeleteCarryUserId(baseUrl: string, user: Option<User>, path: string, params: map<string, string>)
    ensures BuildRequest(baseUrl, user, GET, path, Json(map[]), params).headers.userId == Some(UserIdHeader(user))
    ensures BuildRequest(baseUrl, user, DELETE, path, Json(map[]), map[]).headers.userId == Some(UserIdHeader(user))
  {
  }

  /** The session's token never reaches the request: two sessions with the
      same user build the same request. */
  lemma TokenNeverSent(s: AuthState, t: AuthState, baseUrl: string, verb: HttpMethod, path: string,
                       payload: Payload, params: map<string, string>)
    requires s.user == t.user
    ensures BuildRequest(baseUrl, s.user, verb, path, payload, params)
         == BuildRequest(baseUrl, t.user, verb, path, payload, params)
  {
  }

  /** One call site of the hook, bound to a default path. */
  class CallSite<T> {
    var data: Option<T>
    var loading: bool
    var error: Option<string>
    const baseUrl: string
    const defaultPath: string

    constructor (baseUrl: string, defaultPath: string)
      ensures data.None? && !loading && error.None?
      ensures this.baseUrl == baseUrl && this.defaultPath == defaultPath
    {
      data := None;
      loading := false;
      error := None;
      this.baseUrl := baseUrl;
      this.defaultPath := defaultPath;
    }

    /** The state after a request with this outcome completed, `dataBefore`
        being `data` when it started, with `r` returned and `toasts` raised. */
    ghost predicate Settled(outcome: Transport<T>, dataBefore: Option<T>, r: Option<T>, toasts: seq<Toast>)
      reads this
    {
      && !loading
      && match outcome
         case Delivered(body) =>
           r == Some(body) && data == Some(body) && error.None? && toasts == []
         case Rejected(detail, message) =>
           r.None? && data == dataBefore && error == Some(ErrorMessage(detail, message)) && toasts == [ApiErrorToast]
    }

    /** The start of a request: loading, no error, data kept. */
    method Begin()
      modifies this
      ensures loading && error.None? && data == old(data)
    {
      loading := true;
      error := None;
    }

    /** The completion of a request. */
    method Complete(outcome: Transport<T>) returns (r: Option<T>, toasts: seq<Toast>)
      requires loading && error.None?
      modifies this
      ensures Settled(outcome, old(data), r, toasts)
    {
      match outcome {
        case Delivered(body) =>
          data := Some(body);
          r := Some(body);
          toasts := [];
        case Rejected(detail, message) =>
          error := Some(ErrorMessage(detail, message));
          toasts := [ApiErrorToast];
          r := None;
      }
      loading := false;
    }

    /** `request(method, path, payload, params)`: returns the request sent,
        the body (or `None` on failure) and the toasts raised. */
    method Request(user: Option<User>, verb: HttpMethod, path: string, payload: Payload,
                   params: map<string, string>, outcome: Transport<T>)
      returns (sent: HttpRequest, r: Option<T>, toasts: seq<Toast>)
      modifies this
      ensures sent == BuildRequest(baseUrl, user, verb, path, payload, params)
      ensures Settled(outcome, old(data), r, toasts)
    {
      Begin();
      sent := BuildRequest(baseUrl, user, verb, path, payload, params);
      r, toasts := Complete(outcome);
    }

    method FetchData(user: Option<User>, params: map<string, string>, overridePath: Option<string>, outcome: Transport<T>)
      returns (sent: HttpRequest, r: Option<T>, toasts: seq<Toast>)
      modifies this
      ensures sent == BuildRequest(baseUrl, user, GET, ResolvePath(overridePath, defaultPath), Json(map[]), params)
      ensures Settled(outcome, old(data), r, toasts)
    {
      sent, r, toasts := Request(user, GET, ResolvePath(overridePath, defaultPath), Json(map[]), params, outcome);
    }

    method PostData(user: Option<User>, payload: Payload, overridePath: Option<string>, outcome: Transport<T>)
      returns (sent: HttpRequest, r: Option<T>, toasts: seq<Toast>)
      modifies this
      ensures sent == BuildRequest(baseUrl, user, POST, ResolvePath(overridePath, defaultPath), payload, map[])
      ensures Settled(outcome, old(data), r, toasts)
    {
      sent, r, toasts := Request(user, POST, ResolvePath(overridePath, defaultPath), payload, map[], outcome);
    }

    method PutData(user: Option<User>, payload: Payload, overridePath: Option<string>, outcome: Transport<T>)
      returns (sent: HttpRequest, r: Option<T>, toasts: seq<Toast>)
      modifies this
      ensures sent == BuildRequest(baseUrl, user, PUT, ResolvePath(overridePath, defaultPath), payload, map[])
      ensures Settled(outcome, old(data), r, toasts)
    {
      sent, r, toasts := Request(user, PUT, ResolvePath(overridePath, defaultPath), payload, map[], outcome);
    }

    method DeleteData(user: Option<User>, overridePath: Option<string>, outcome: Transport<T>)
      returns (sent: HttpRequest, r: Option<T>, toasts: seq<Toast>)
      modifies this
      ensures sent == BuildRequest(baseUrl, user, DELETE, ResolvePath(overridePath, defaultPath), Json(map[]), map[])
      ensures Settled(outcome, old(data), r, toasts)
    {
      sent, r, toasts := Request(user, DELETE, ResolvePath(overridePath, defaultPath), Json(map[]), map[], outcome);
    }
  }
}
