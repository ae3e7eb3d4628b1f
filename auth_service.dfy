/**
 * The authentication service: its calls go through the shared client, and
 * login, registration and logout change the client's credential.
 */
module AuthService {
  import opened Wrappers
  import opened JsonValues
  import opened ApiClientModel

  /** The fields a registration sends. */
  datatype UserData = UserData(email: string, password: string, firstName: string, lastName: string)

  function LoginRequest(email: string, password: string): Request
  {
    PostRequest("/auth/login", Some(JObj(map["email" := JStr(email), "password" := JStr(password)])))
  }

  function RegisterRequest(u: UserData): Request
  {
    PostRequest("/auth/register", Some(JObj(map[
      "email" := JStr(u.email),
      "password" := JStr(u.password),
      "first_name" := JStr(u.firstName),
      "last_name" := JStr(u.lastName)])))
  }

  const LogoutRequest: Request := PostRequest("/auth/logout", None)

  const CurrentUserRequest: Request := GetRequest("/auth/user", map[])

  function PasswordResetRequest(email: string): Request
  {
    PostRequest("/auth/password/reset", Some(JObj(map["email" := JStr(email)])))
  }

  function ResetConfirmRequest(resetToken: string, password: string, confirmation: string): Request
  {
    PostRequest("/auth/password/reset/confirm", Some(JObj(map[
      "token" := JStr(resetToken),
      "password" := JStr(password),
      "password_confirmation" := JStr(confirmation)])))
  }

  /** `response.data.access_token` read from a response body. */
  function AccessToken(body: Json): (r: Access)
    ensures r == TypeError <==> (body == JNull || !Member(body, "data").Found? || body.fields["data"] == JNull)
    ensures r.Found? <==> body.JObj? && "data" in body.fields &&
                          body.fields["data"].JObj? && "access_token" in body.fields["data"].fields
  {
    Then(Member(body, "data"), "access_token")
  }

  /** The token the service stores from a response body: a truthy string `access_token`. */
  function TokenToStore(body: Json): (r: Option<string>)
    ensures r.Some? ==> r.value != "" && AccessToken(body) == Found(JStr(r.value))
    ensures AccessToken(body).Found? && AccessToken(body).value.JStr? && Truthy(AccessToken(body).value) ==> r.Some?
  {
    var a := AccessToken(body);
    if a.Found? && a.value.JStr? && a.value.s != "" then Some(a.value.s) else None
  }

  /**
   * The shared part of `login` and `register`: post, then store a truthy
   * token if the answer has one. A failed call is re-thrown unchanged; reading
   * `data.access_token` from a body without `data` throws a `TypeError`,
   * which is re-thrown as well.
   */
  method PostAndStoreToken(c: ApiClient, req: Request, server: Request -> Outcome<Json>) returns (r: Outcome<Json>)
    modifies c
    ensures var answer := server(old(c.InterceptRequest(req)));
      && (answer.Err? ==> r == answer)
      && (answer.Ok? && AccessToken(answer.value) == TypeError ==> r == Err(ScriptError("TypeError")))
      && (answer.Ok? && AccessToken(answer.value) != TypeError ==> r == answer)
      && (answer.Ok? && TokenToStore(answer.value).Some? ==>
            c.token == TokenToStore(answer.value) &&
            c.storage == old(c.storage)[AuthKey := TokenToStore(answer.value).value])
      && (answer.Ok? && TokenToStore(answer.value).None? ==>
            c.token == old(c.token) && c.storage == old(c.storage))
      && (answer.Err? && !Unauthorized(answer) ==> c.token == old(c.token) && c.storage == old(c.storage))
      && (Unauthorized(answer) ==> c.token == None && c.storage == old(c.storage) - {AuthKey})
    ensures old(c.Consistent()) ==> c.Consistent()
  {
    r := c.Send(req, server);
    if r.Ok? {
      var a := AccessToken(r.value);
      if a == TypeError {
        r := Err(ScriptError("TypeError"));
      } else {
        var t := TokenToStore(r.value);
        if t.Some? {
          c.SetToken(t.value);
        }
      }
    }
  }

  /** `login`: post the credentials and keep the returned token. */
  method Login(c: ApiClient, email: string, password: string, server: Request -> Outcome<Json>)
    returns (r: Outcome<Json>)
    modifies c
    ensures var answer := server(old(c.InterceptRequest(LoginRequest(email, password))));
      && (answer.Err? ==> r == answer)
      && (answer.Ok? && AccessToken(answer.value) != TypeError ==> r == answer)
      && (answer.Ok? && AccessToken(answer.value) == TypeError ==> r == Err(ScriptError("TypeError")))
      && (answer.Ok? && TokenToStore(answer.value).Some? ==>
            c.token == TokenToStore(answer.value) &&
            c.storage == old(c.storage)[AuthKey := TokenToStore(answer.value).value] &&
            (IsAuthenticated(c) <==> c.inBrowser))
      && (answer.Ok? && TokenToStore(answer.value).None? ==>
            c.token == old(c.token) && c.storage == old(c.storage))
      && (answer.Err? && !Unauthorized(answer) ==> c.token == old(c.token) && c.storage == old(c.storage))
      && (Unauthorized(answer) ==> c.token == None && c.storage == old(c.storage) - {AuthKey})
    ensures old(c.Consistent()) ==> c.Consistent()
  {
    r := PostAndStoreToken(c, LoginRequest(email, password), server);
  }

  /** `register`: post the new user's data and keep the returned token, as `login` does. */
  method Register(c: ApiClient, u: UserData, server: Request -> Outcome<Json>) returns (r: Outcome<Json>)
    modifies c
    ensures var answer := server(old(c.InterceptRequest(RegisterRequest(u))));
      && (answer.Err? ==> r == answer)
      && (answer.Ok? && AccessToken(answer.value) != TypeError ==> r == answer)
      && (answer.Ok? && AccessToken(answer.value) == TypeError ==> r == Err(ScriptError("TypeError")))
      && (answer.Ok? && TokenToStore(answer.value).Some? ==>
            c.token == TokenToStore(answer.value) &&
            c.storage == old(c.storage)[AuthKey := TokenToStore(answer.value).value])
      && (answer.Ok? && TokenToStore(answer.value).None? ==>
            c.token == old(c.token) && c.storage == old(c.storage))
      && (answer.Err? && !Unauthorized(answer) ==> c.token == old(c.token) && c.storage == old(c.storage))
      && (Unauthorized(answer) ==> c.token == None && c.storage == old(c.storage) - {AuthKey})
    ensures old(c.Consistent()) ==> c.Consistent()
  {
    r := PostAndStoreToken(c, RegisterRequest(u), server);
  }

  /** `logout`: tell the server, then clear the token whatever it answered; never fails. */
  method Logout(c: ApiClient, server: Request -> Outcome<Json>)
    modifies c
    ensures c.token == None
    ensures c.storage == old(c.storage) - {AuthKey}
    ensures !IsAuthenticated(c)
    ensures c.Consistent()
  {
    var answer := c.Send(LogoutRequest, server);
    c.ClearToken();
  }

  /** `getCurrentUser`: the profile, or the client's rejection re-thrown. */
  method GetCurrentUser(c: ApiClient, server: Request -> Outcome<Json>) returns (r: Outcome<Json>)
    modifies c
    ensures r == server(old(c.InterceptRequest(CurrentUserRequest)))
    ensures Unauthorized(r) ==> c.token == None && c.storage == old(c.storage) - {AuthKey}
    ensures !Unauthorized(r) ==> c.token == old(c.token) && c.storage == old(c.storage)
    ensures old(c.Consistent()) ==> c.Consistent()
  {
    r := c.Send(CurrentUserRequest, server);
  }

  /** `requestPasswordReset`: posts the e-mail address; rejections are re-thrown. */
  method RequestPasswordReset(c: ApiClient, email: string, server: Request -> Outcome<Json>)
    returns (r: Outcome<Json>)
    modifies c
    ensures r == server(old(c.InterceptRequest(PasswordResetRequest(email))))
    ensures Unauthorized(r) ==> c.token == None && c.storage == old(c.storage) - {AuthKey}
    ensures !Unauthorized(r) ==> c.token == old(c.token) && c.storage == old(c.storage)
    ensures old(c.Consistent()) ==> c.Consistent()
  {
    r := c.Send(PasswordResetRequest(email), server);
  }

  /** `resetPassword`: posts the reset token and the new password twice; rejections are re-thrown. */
  method ResetPassword(c: ApiClient, resetToken: string, password: string, confirmation: string,
                       server: Request -> Outcome<Json>) returns (r: Outcome<Json>)
    modifies c
    ensures r == server(old(c.InterceptRequest(ResetConfirmRequest(resetToken, password, confirmation))))
    ensures Unauthorized(r) ==> c.token == None && c.storage == old(c.storage) - {AuthKey}
    ensures !Unauthorized(r) ==> c.token == old(c.token) && c.storage == old(c.storage)
    ensures old(c.Consistent()) ==> c.Consistent()
  {
    r := c.Send(ResetConfirmRequest(resetToken, password, confirmation), server);
  }

  /** `isAuthenticated`: in a browser, whether a credential is persisted (even an empty one). */
  predicate IsAuthenticated(c: ApiClient)
    reads c
    ensures IsAuthenticated(c) ==> c.inBrowser && AuthKey in c.storage
    ensures c.Consistent() && c.inBrowser && c.token.Some? ==> IsAuthenticated(c)
  {
    c.inBrowser && AuthKey in c.storage
  }

  /** In a browser, a client holding a token reports itself authenticated. */
  lemma HeldTokenIsAuthenticated(c: ApiClient)
    requires c.Consistent() && c.inBrowser && c.token.Some?
    ensures IsAuthenticated(c)
  {
  }

  /**
   * Storage and memory can disagree: a persisted empty token counts as
   * authenticated, yet `init` does not adopt it and no request carries it.
   */
  lemma EmptyStoredTokenIsAuthenticatedButUnused(c: ApiClient)
    requires c.inBrowser && c.storage == map[AuthKey := ""] && c.token == None
    ensures IsAuthenticated(c)
    ensures forall req :: c.InterceptRequest(req) == req
  {
  }
}
