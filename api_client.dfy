/**
 * The shared HTTP client: the base-URL table, the request shape the services
 * build, the credential it keeps (in memory and in the browser's storage) and
 * its two interceptors. The transport itself is a parameter: a function from
 * the request actually sent to the server's answer.
 */
module ApiClientModel {
  import opened Wrappers
  import opened JsonValues

  /** The base URL of each deployment environment. */
  const ApiUrls: map<string, string> := map[
    "production" := "https://api.realestate-ai-platform.com/v1",
    "staging" := "https://staging-api.realestate-ai-platform.com/v1",
    "development" := "https://dev-api.realestate-ai-platform.com/v1",
    "local" := "http://localhost:3001/api"
  ]

  /**
   * The base URL for the configured environment name: an unset or empty name
   * means `local`; a name outside the table has no URL.
   */
  function ApiBaseUrl(env: Option<string>): (r: Option<string>)
    ensures (env.None? || env.value == "") ==> r == Some("http://localhost:3001/api")
    ensures env.Some? && env.value != "" && env.value in ApiUrls ==> r == Some(ApiUrls[env.value])
    ensures env.Some? && env.value != "" && env.value !in ApiUrls ==> r == None
  {
    var name := if env.Some? && env.value != "" then env.value else "local";
    if name in ApiUrls then Some(ApiUrls[name]) else None
  }

  datatype Verb = Get | Post | Put | Delete

  /** One request: verb, path below the base URL, query parameters, body and headers. */
  datatype Request = Request(
    verb: Verb,
    path: string,
    params: map<string, Json>,
    body: Option<Json>,
    headers: map<string, string>)

  /** The headers every request starts with. */
  const DefaultHeaders: map<string, string> := map["Content-Type" := "application/json"]

  function GetRequest(path: string, params: map<string, Json>): Request
  {
    Request(Get, path, params, None, DefaultHeaders)
  }

  function PostRequest(path: string, body: Option<Json>): Request
  {
    Request(Post, path, map[], body, DefaultHeaders)
  }

  function DeleteRequest(path: string): Request
  {
    Request(Delete, path, map[], None, DefaultHeaders)
  }

  /**
   * Why a call failed: the server answered with an error status, no answer
   * arrived, or the calling code itself threw (a `TypeError`).
   */
  datatype Failure = HttpStatus(status: int) | NoResponse | ScriptError(name: string)

  /** A resolved or rejected call. */
  datatype Outcome<T> = Ok(value: T) | Err(failure: Failure)

  /** The storage key of the persisted credential. */
  const AuthKey: string := "auth_token"

  const AuthorizationHeader: string := "Authorization"

  /** A token the request interceptor uses: present and non-empty. */
  predicate UsableToken(token: Option<string>)
  {
    token.Some? && token.value != ""
  }

  /** A rejection the response interceptor treats as an expired credential. */
  predicate Unauthorized<T>(o: Outcome<T>)
  {
    o.Err? && o.failure == HttpStatus(401)
  }

  class ApiClient {
    /** The credential held in memory (`null` is `None`). */
    var token: Option<string>
    /** The browser's `localStorage`. */
    var storage: map<string, string>
    /** Whether the code runs in a browser (`typeof window !== 'undefined'`). */
    const inBrowser: bool

    /** A held token is always the persisted one; storage may hold a token memory does not. */
    predicate Consistent()
      reads this
    {
      token.Some? ==> AuthKey in storage && storage[AuthKey] == token.value
    }

    /** A new client holds no token; it has not looked at storage yet. */
    constructor (inBrowser: bool, storage: map<string, string>)
      ensures this.inBrowser == inBrowser && this.storage == storage
      ensures token == None && Consistent()
    {
      this.inBrowser := inBrowser;
      this.storage := storage;
      token := None;
    }

    /** `setToken`: hold the token and persist it. */
    method SetToken(t: string)
      modifies this
      ensures token == Some(t)
      ensures storage == old(storage)[AuthKey := t]
      ensures Consistent()
    {
      token := Some(t);
      storage := storage[AuthKey := t];
    }

    /** `clearToken`: forget the token and remove the persisted entry. */
    method ClearToken()
      modifies this
      ensures token == None
      ensures storage == old(storage) - {AuthKey}
      ensures Consistent()
    {
      token := None;
      storage := storage - {AuthKey};
    }

    /** `init`: in a browser, adopt a non-empty persisted token; otherwise change nothing. */
    method Init()
      modifies this
      ensures storage == old(storage)
      ensures inBrowser && AuthKey in storage && storage[AuthKey] != "" ==> token == Some(storage[AuthKey])
      ensures !(inBrowser && AuthKey in storage && storage[AuthKey] != "") ==> token == old(token)
      ensures old(Consistent()) ==> Consistent()
    {
      if inBrowser {
        if AuthKey in storage && storage[AuthKey] != "" {
          token := Some(storage[AuthKey]);
        }
      }
    }

    /**
     * The request interceptor: with a usable token the request gets
     * `Authorization: Bearer <token>` (RFC 6750, section 2.1); otherwise it
     * goes out as it was. No other part of the request changes.
     */
    function InterceptRequest(req: Request): (r: Request)
      reads this
      ensures UsableToken(token) ==>
                AuthorizationHeader in r.headers && r.headers[AuthorizationHeader] == "Bearer " + token.value
      ensures !UsableToken(token) ==> r == req
      ensures r.(headers := req.headers) == req
      ensures forall h :: h != AuthorizationHeader ==>
                (h in r.headers <==> h in req.headers) &&
                (h in r.headers ==> r.headers[h] == req.headers[h])
    {
      if UsableToken(token) then
        req.(headers := req.headers[AuthorizationHeader := "Bearer " + token.value])
      else req
    }

    /**
     * The response interceptor: successes pass through; every rejection is
     * passed on, and a 401 rejection first clears the token.
     */
    method InterceptResponse(o: Outcome<Json>) returns (r: Outcome<Json>)
      modifies this
      ensures r == o
      ensures Unauthorized(o) ==> token == None && storage == old(storage) - {AuthKey}
      ensures !Unauthorized(o) ==> token == old(token) && storage == old(storage)
      ensures old(Consistent()) ==> Consistent()
    {
      if o.Err? && o.failure.HttpStatus? && o.failure.status == 401 {
        ClearToken();
      }
      r := o;
    }

    /**
     * One call through the client: the request, as the request interceptor
     * leaves it, goes to the server; the answer goes through the response
     * interceptor.
     */
    method Send(req: Request, server: Request -> Outcome<Json>) returns (r: Outcome<Json>)
      modifies this
      ensures r == server(old(InterceptRequest(req)))
      ensures Unauthorized(r) ==> token == None && storage == old(storage) - {AuthKey}
      ensures !Unauthorized(r) ==> token == old(token) && storage == old(storage)
      ensures old(Consistent()) ==> Consistent()
    {
      var sent := InterceptRequest(req);
      r := InterceptResponse(server(sent));
    }
  }
}
