/**
 * The OAuth2 authorization-code flow of the enhanced and OAuth variants
 * (RFC 6749, section 4.1): `/auth/connect` remembers the chat user and a
 * fresh `state` in the browser session and redirects to the code host;
 * `/auth/callback` accepts the code only when the returned `state` is the
 * one remembered (the CSRF protection of RFC 6749, section 10.12), then
 * stores the user's token and clears the session.
 */
module OAuth {
  import opened Wrappers
  import opened PyStr
  import opened Relay
  import opened Tokens

  const Scope: string := "read:user,read:repository,write:repository,write:issue"

  predicate IsSlash(c: char) {
    c == '/'
  }

  /** `get_auth_url`: the authorization endpoint under the host URL without trailing slashes, and its parameters. */
  function AuthorizationRequest(cfg: Config, redirectUri: string, state: string): (a: AuthorizeRequest)
    ensures a.state == state && a.redirectUri == redirectUri && a.responseType == "code"
    ensures a.clientId == cfg.clientId
  {
    AuthorizeRequest(TrimRight(cfg.forgejoUrl, IsSlash) + "/login/oauth/authorize", cfg.clientId, redirectUri, "code", Scope, state)
  }

  /** The signed browser session the flow keeps between its two requests. */
  class Session {
    var userId: Option<string>
    var username: Option<string>
    var oauthState: Option<string>

    constructor ()
      ensures userId == None && username == None && oauthState == None
    {
      userId, username, oauthState := None, None, None;
    }

    /** A pending state always comes with the chat user it was issued to. */
    ghost predicate Valid()
      reads this
    {
      oauthState.Some? ==> Present(userId) && Present(username)
    }

    /** `session.clear()`. */
    method Clear()
      modifies this
      ensures userId == None && username == None && oauthState == None
      ensures Valid()
    {
      userId, username, oauthState := None, None, None;
    }
  }

  /**
   * `connect_oauth`: without both a user id and a user name the request is
   * refused and the session untouched; otherwise the session remembers them
   * with `state`, and the redirect carries that same `state`.
   */
  method ConnectOAuth(cfg: Config, session: Session, userId: Option<string>, username: Option<string>, state: string)
    returns (r: Response)
    requires session.Valid()
    modifies session
    ensures session.Valid()
    ensures !(Present(userId) && Present(username)) ==>
      r == Response(400, Failure(MissingUserInformation)) && unchanged(session)
    ensures Present(userId) && Present(username) ==>
      && session.userId == userId && session.username == username && session.oauthState == Some(state)
      && r == Response(302, Redirect(AuthorizationRequest(cfg, cfg.callbackUrl, state)))
      && r.reply.authorize.state == state
  {
    if !(Present(userId) && Present(username)) {
      return Response(400, Failure(MissingUserInformation));
    }
    session.userId := userId;
    session.username := username;
    session.oauthState := Some(state);
    r := Response(302, Redirect(AuthorizationRequest(cfg, cfg.callbackUrl, state)));
  }

  /**
   * `oauth_callback`. An `error` parameter, a missing `code` or `state`, or a
   * `state` other than the one in the session is refused with 400 before any
   * outbound call. A failed code exchange or user lookup gives 500 and stores
   * nothing. Otherwise the token is stored for the session's user (replacing
   * any earlier one) and the session is cleared, so the same `state` cannot
   * be used twice.
   */
  method OAuthCallback(cfg: Config, session: Session, tokens: TokenStore,
                       code: Option<string>, state: Option<string>, error: Option<string>,
                       exchanged: Option<TokenResponse>, login: Option<string>, now: int)
    returns (h: Handled)
    requires session.Valid()
    modifies session, tokens
    ensures session.Valid()
    ensures Present(error) ==>
      h == Handled(Response(400, Failure(OAuthError(error.value))), []) && unchanged(session, tokens)
    ensures !Present(error) && !(Present(code) && Present(state)) ==>
      h == Handled(Response(400, Failure(MissingCodeOrState)), []) && unchanged(session, tokens)
    ensures !Present(error) && Present(code) && Present(state) && state != old(session.oauthState) ==>
      h == Handled(Response(400, Failure(InvalidState)), []) && unchanged(session, tokens)
    ensures var accepted := !Present(error) && Present(code) && Present(state) && state == old(session.oauthState);
      && (accepted && exchanged.None? ==>
            h == Handled(Response(500, Failure(TokenExchangeFailed)), [ExchangeCode(code.value, cfg.callbackUrl)])
            && unchanged(session, tokens))
      && (accepted && exchanged.Some? && login.None? ==>
            h == Handled(Response(500, Failure(UserInfoFailed)),
                         [ExchangeCode(code.value, cfg.callbackUrl), FetchUserInfo(exchanged.value.accessToken)])
            && unchanged(session, tokens))
      && (accepted && exchanged.Some? && login.Some? ==>
            var token := exchanged.value;
            && old(session.userId).Some? && old(session.username).Some?
            && tokens.rows == old(tokens.rows)[old(session.userId).value :=
                 TokenRow(old(session.username).value, token.accessToken, token.refreshToken, login.value,
                          ExpiresAt(now + token.expiresIn.GetOr(DefaultExpiresIn)))]
            && session.userId == None && session.username == None && session.oauthState == None
            && h == Handled(Ok(Connected(login.value, old(session.username).value)),
                            [ExchangeCode(code.value, cfg.callbackUrl), FetchUserInfo(token.accessToken)]))
  {
    if Present(error) {
      return Handled(Response(400, Failure(OAuthError(error.value))), []);
    }
    if !(Present(code) && Present(state)) {
      return Handled(Response(400, Failure(MissingCodeOrState)), []);
    }
    if state != session.oauthState {
      return Handled(Response(400, Failure(InvalidState)), []);
    }
    var calls := [ExchangeCode(code.value, cfg.callbackUrl)];
    if exchanged.None? {
      return Handled(Response(500, Failure(TokenExchangeFailed)), calls);
    }
    var token := exchanged.value;
    calls := calls + [FetchUserInfo(token.accessToken)];
    if login.None? {
      return Handled(Response(500, Failure(UserInfoFailed)), calls);
    }
    var userId := session.userId.value;
    var username := session.username.value;
    tokens.SaveUserToken(userId, username, token, login.value, now);
    session.Clear();
    h := Handled(Ok(Connected(login.value, username)), calls);
  }
}
