/**
 * The client's user service: one request helper that merges a Basic `Authorization` header (section 2 of
 * RFC 7617) with the caller's options, picks the error message of a failed response and decodes a good
 * one by its content type; the multipart body builder; the user operations; and the login/logout calls
 * that keep the credentials in localStorage.
 */
module UserService {
  import opened Wrappers
  import opened Text

  const ApiBaseUrl := "http://localhost:8081"
  const AuthTokenKey := "authToken"
  const UsernameKey := "username"

  /** A request body: a multipart form (its fields in order) or a JSON text. */
  datatype Body = Form(fields: seq<(string, string)>) | JsonText(text: string)

  /** The `options` a caller passes; a property the caller leaves out is None. */
  datatype Options = Options(verb: Option<string>, headers: Option<map<string, string>>, body: Option<Body>)

  function NoOptions(): Options {
    Options(None, None, None)
  }

  /** The `fetch` configuration the helper builds. */
  datatype Config = Config(verb: Option<string>, headers: map<string, string>, credentials: string, body: Option<Body>)

  /** `token ? { Authorization: "Basic " + token } : {}`. */
  function BasicHeader(storage: map<string, string>): (h: map<string, string>)
    ensures "Authorization" in h <==> AuthTokenKey in storage && storage[AuthTokenKey] != ""
    ensures "Authorization" in h ==> h["Authorization"] == "Basic " + storage[AuthTokenKey]
    ensures h.Keys <= {"Authorization"}
  {
    if AuthTokenKey in storage && storage[AuthTokenKey] != "" then map["Authorization" := "Basic " + storage[AuthTokenKey]]
    else map[]
  }

  /**
   * `{ headers: { ...authHeader, ...options.headers }, credentials: "include", ...options }`: the trailing
   * spread puts the caller's own `headers` back over the merged ones whenever the caller passed any.
   */
  function BuildConfig(storage: map<string, string>, options: Options): (c: Config)
    ensures options.headers.None? ==> c.headers == BasicHeader(storage)
    ensures options.headers.Some? ==> c.headers == options.headers.value
    ensures c.verb == options.verb && c.body == options.body && c.credentials == "include"
  {
    var merged := if options.headers.Some? then BasicHeader(storage) + options.headers.value else BasicHeader(storage);
    var headers := if options.headers.Some? then options.headers.value else merged;
    Config(options.verb, headers, "include", options.body)
  }

  /** A caller that passes an empty `headers` object sends no Authorization header, whatever is stored. */
  lemma ExplicitHeadersDropAuthorization(storage: map<string, string>, verb: Option<string>, body: Option<Body>)
    ensures "Authorization" !in BuildConfig(storage, Options(verb, Some(map[]), body)).headers
  {
  }

  /** Without options of its own the stored token is sent exactly when there is one. */
  lemma DefaultOptionsSendStoredToken(storage: map<string, string>)
    ensures var h := BuildConfig(storage, NoOptions()).headers;
            ("Authorization" in h <==> AuthTokenKey in storage && storage[AuthTokenKey] != "")
            && ("Authorization" in h ==> h["Authorization"] == "Basic " + storage[AuthTokenKey])
  {
  }

  /** A response body: JSON (with its `message` property, if any) or something that does not parse. */
  datatype ResponseBody = JsonBody(message: Option<string>, raw: string) | NotJson(raw: string)

  datatype Response = Response(ok: bool, status: int, statusText: string, contentType: Option<string>, body: ResponseBody)

  /** What the helper returns: parsed JSON, text, or the error it throws. */
  datatype Outcome = ReturnedJson(json: ResponseBody) | ReturnedText(text: string) | Thrown(message: string)

  /** The message of the error thrown for a response that is not ok. */
  function ErrorMessage(r: Response): (m: string)
    ensures r.body.JsonBody? && r.body.message.Some? && r.body.message.value != "" ==> m == r.body.message.value
    ensures r.body.JsonBody? && (r.body.message.None? || r.body.message.value == "") ==>
              m == "HTTP error! status: " + IntToString(r.status)
    ensures r.body.NotJson? && r.statusText != "" ==> m == r.statusText
    ensures r.body.NotJson? && r.statusText == "" ==> m == "HTTP error! status: " + IntToString(r.status)
  {
    var fallback := "HTTP error! status: " + IntToString(r.status);
    match r.body
    case JsonBody(message, _) => if message.Some? && message.value != "" then message.value else fallback
    case NotJson(_) => if r.statusText != "" then r.statusText else fallback
  }

  /** The helper's result for one reply; `failure` is the message of an error thrown by `fetch` itself or
      by `response.json()` on a body that does not parse. */
  function ApiOutcome(reply: Fetch<Response>, failure: string): (o: Outcome)
    ensures reply.Threw? ==> o == Thrown(failure)
    ensures reply.Got? && !reply.value.ok ==> o == Thrown(ErrorMessage(reply.value))
    ensures reply.Got? && reply.value.ok ==>
              var r := reply.value;
              (r.contentType.Some? && Contains(r.contentType.value, "application/json") ==>
                 o == (if r.body.JsonBody? then ReturnedJson(r.body) else Thrown(failure)))
              && (r.contentType.None? || !Contains(r.contentType.value, "application/json") ==>
                 o == ReturnedText(r.body.raw))
  {
    match reply
    case Threw => Thrown(failure)
    case Got(r) =>
      if !r.ok then Thrown(ErrorMessage(r))
      else if r.contentType.Some? && Contains(r.contentType.value, "application/json") then
        (if r.body.JsonBody? then ReturnedJson(r.body) else Thrown(failure))
      else ReturnedText(r.body.raw)
  }

  /** A good response is returned, never thrown, unless the JSON it announces fails to parse. */
  lemma OkResponseIsReturned(r: Response, failure: string)
    requires r.ok && (r.body.JsonBody? || r.contentType.None?)
    ensures !ApiOutcome(Got(r), failure).Thrown?
  {
  }

  // ---------------------------------------------------------------- createFormData

  /** A value of the data object: `undefined`, `null`, or something to append. */
  datatype Value = Undefined | Null | Given(text: string)

  /** The entries `createFormData` appends: those whose value is neither undefined nor null, in key order. */
  function PresentFields(data: seq<(string, Value)>): (r: seq<(string, string)>)
    ensures |r| <= |data|
    ensures forall k, v :: (k, v) in r <==> (k, Given(v)) in data
    decreases |data|
  {
    if data == [] then []
    else
      var rest := PresentFields(data[..|data| - 1]);
      var last := data[|data| - 1];
      assert data == data[..|data| - 1] + [last];
      if last.1.Given? then rest + [(last.0, last.1.text)] else rest
  }

  /** Data without an undefined or null value is appended whole, in order. */
  lemma {:induction false} AllPresentAppendsAll(data: seq<(string, Value)>)
    requires forall i :: 0 <= i < |data| ==> data[i].1.Given?
    ensures |PresentFields(data)| == |data|
    ensures forall i :: 0 <= i < |data| ==> PresentFields(data)[i] == (data[i].0, data[i].1.text)
    decreases |data|
  {
    if data != [] {
      var init := data[..|data| - 1];
      AllPresentAppendsAll(init);
      var last := data[|data| - 1];
      assert PresentFields(data) == PresentFields(init) + [(last.0, last.1.text)];
      forall i | 0 <= i < |data|
        ensures PresentFields(data)[i] == (data[i].0, data[i].1.text)
      {
        if i < |init| {
          assert data[i] == init[i];
        }
      }
    }
  }

  /** `createFormData(data)`: one `append` per key whose value is present. */
  method CreateFormData(data: seq<(string, Value)>) returns (formData: seq<(string, string)>)
    ensures formData == PresentFields(data)
  {
    formData := [];
    var i := 0;
    while i < |data|
      invariant 0 <= i <= |data|
      invariant formData == PresentFields(data[..i])
    {
      assert data[..i + 1][..i] == data[..i];
      if data[i].1 != Undefined && data[i].1 != Null {
        formData := formData + [(data[i].0, data[i].1.text)];
      }
      i := i + 1;
    }
    assert data[..|data|] == data;
  }

  // ---------------------------------------------------------------- the user operations

  datatype UserOp =
    | GetUsers
    | GetUserById(userId: int)
    | GetUserCounts
    | UpdateUserRole(userId: int, newRole: string)
    | UpdateUser(userId: int, form: seq<(string, string)>)
    | DeleteUser(userId: int)
    | AddUser(form: seq<(string, string)>)

  /** The endpoint and options of each operation; `encode` is `encodeURIComponent`. */
  function EndpointOf(op: UserOp, encode: string -> string): (r: (string, Options))
    ensures op.UpdateUserRole? ==>
              r == ("/api/users/" + IntToString(op.userId) + "/role?role=" + encode(op.newRole), Options(Some("PUT"), None, None))
    ensures op.UpdateUser? || op.AddUser? ==> r.1.headers == Some(map[]) && r.1.body == Some(Form(op.form))
  {
    match op
    case GetUsers => ("/api/users", NoOptions())
    case GetUserById(id) => ("/api/users/" + IntToString(id), NoOptions())
    case GetUserCounts => ("/api/users/total", NoOptions())
    case UpdateUserRole(id, role) =>
      ("/api/users/" + IntToString(id) + "/role?role=" + encode(role), Options(Some("PUT"), None, None))
    case UpdateUser(id, form) => ("/api/users/" + IntToString(id), Options(Some("PUT"), Some(map[]), Some(Form(form))))
    case DeleteUser(id) => ("/api/users/" + IntToString(id), Options(Some("DELETE"), None, None))
    case AddUser(form) => ("/api/users/add", Options(Some("POST"), Some(map[]), Some(Form(form))))
  }

  /** The two multipart operations pass an empty `headers` object, so they never send the stored token. */
  lemma MultipartOpsSendNoAuthorization(op: UserOp, storage: map<string, string>, encode: string -> string)
    requires op.UpdateUser? || op.AddUser?
    ensures "Authorization" !in BuildConfig(storage, EndpointOf(op, encode).1).headers
  {
  }

  /** Every other operation sends the stored token exactly when one is stored. */
  lemma OtherOpsSendStoredToken(op: UserOp, storage: map<string, string>, encode: string -> string)
    requires !op.UpdateUser? && !op.AddUser?
    ensures var h := BuildConfig(storage, EndpointOf(op, encode).1).headers;
            "Authorization" in h <==> AuthTokenKey in storage && storage[AuthTokenKey] != ""
  {
  }

  // ---------------------------------------------------------------- the auth service

  /** The request `authService.login` makes, with `btoa` given as a parameter. */
  function LoginOptions(username: string, password: string, btoa: string -> string,
                        stringify: (string, string) -> string): (o: Options)
    ensures o.headers == Some(map["Content-Type" := "application/json", "Authorization" := "Basic " + btoa(username + ":" + password)])
    ensures o.verb == Some("POST") && o.body == Some(JsonText(stringify(username, password)))
  {
    Options(Some("POST"),
            Some(map["Content-Type" := "application/json", "Authorization" := "Basic " + btoa(username + ":" + password)]),
            Some(JsonText(stringify(username, password))))
  }

  /** `!!localStorage.getItem("authToken")`. */
  predicate IsAuthenticated(storage: map<string, string>) {
    AuthTokenKey in storage && storage[AuthTokenKey] != ""
  }

  /** `localStorage.getItem("username")`. */
  function CurrentUser(storage: map<string, string>): (u: Option<string>)
    ensures u.Some? <==> UsernameKey in storage
    ensures u.Some? ==> u.value == storage[UsernameKey]
  {
    if UsernameKey in storage then Some(storage[UsernameKey]) else None
  }

  /** The localStorage the browser keeps for the auth service. */
  class AuthStore {
    var storage: map<string, string>

    constructor (initial: map<string, string>)
      ensures storage == initial
    {
      storage := initial;
    }

    /** `login`: the credentials and the username are stored before the request is sent, whatever its
        outcome; the request carries the credentials explicitly. */
    method Login(username: string, password: string, btoa: string -> string,
                 stringify: (string, string) -> string, reply: Fetch<Response>, failure: string)
      returns (config: Config, outcome: Outcome)
      modifies this
      ensures storage == old(storage)[AuthTokenKey := btoa(username + ":" + password)][UsernameKey := username]
      ensures config == BuildConfig(storage, LoginOptions(username, password, btoa, stringify))
      ensures outcome == ApiOutcome(reply, failure)
    {
      var credentials := btoa(username + ":" + password);
      storage := storage[AuthTokenKey := credentials];
      storage := storage[UsernameKey := username];
      config := BuildConfig(storage, LoginOptions(username, password, btoa, stringify));
      outcome := ApiOutcome(reply, failure);
    }

    /** `logout` as written: after both keys are removed, the stray identifier on the same line is
        evaluated and throws a ReferenceError, so the call never returns normally. */
    method LogoutAsWritten() returns (threw: bool)
      modifies this
      ensures storage == old(storage) - {AuthTokenKey, UsernameKey}
      ensures threw
    {
      storage := storage - {AuthTokenKey};
      storage := storage - {UsernameKey};
      threw := true;
    }

    /** `logout` as intended: both keys removed and a normal return. */
    method Logout() returns (threw: bool)
      modifies this
      ensures storage == old(storage) - {AuthTokenKey, UsernameKey}
      ensures !threw
      ensures !IsAuthenticated(storage) && CurrentUser(storage).None?
    {
      storage := storage - {AuthTokenKey};
      storage := storage - {UsernameKey};
      threw := false;
    }
  }

  /** After a login the user counts as authenticated exactly when the encoded credentials are non-empty,
      and the current user is the one who logged in, whether or not the request succeeded. */
  lemma LoginStoresCredentials(storage: map<string, string>, username: string, password: string, btoa: string -> string)
    ensures var s := storage[AuthTokenKey := btoa(username + ":" + password)][UsernameKey := username];
            (IsAuthenticated(s) <==> btoa(username + ":" + password) != "") && CurrentUser(s) == Some(username)
  {
  }
}
