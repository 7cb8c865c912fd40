/**
 * The OAuth relay: issues are created with each user's own OAuth token
 * (stored without any expiry check), the token check comes before anything
 * else, and event messages are threaded under the post that announced the
 * issue.
 */
module OAuthBridge {
  import opened Wrappers
  import opened Relay
  import opened Threads
  import opened Tokens
  import opened Events
  import opened Command
  import opened Signature
  import opened ApiBridge
  import opened IssueFlow

  /**
   * The command text once the caller's stored token is known. Without one
   * every text, empty or not, gets the auth-required reply. With one, empty
   * text gets help, text the parse refuses gets the usage error, and a parsed
   * command checks repository access with the user's token; access denied
   * stops there and access granted goes on to `Creation`.
   */
  method HandleText(cfg: Config, threads: ThreadMap, text: string, ctx: SlashContext, cred: Option<Credential>,
                    date: string, now: int, up: Upstream) returns (h: Handled)
    modifies threads
    ensures cred.None? ==>
      h == Handled(Ok(Ephemeral(AuthRequired(ConnectUrl(cfg.baseUrl, ctx.userId, ctx.username)))), [])
      && threads.rows == old(threads.rows)
    ensures cred.Some? && text == "" ==> h == Handled(Ok(Ephemeral(Help)), []) && threads.rows == old(threads.rows)
    ensures cred.Some? && text != "" && ParseMultiline(text).None? ==>
      h == Handled(Ok(Ephemeral(UsageError)), []) && threads.rows == old(threads.rows)
    ensures cred.Some? && text != "" && ParseMultiline(text).Some? ==>
      var cmd := ParseMultiline(text).value;
      var check := CheckRepoAccess(cred.value.accessToken, cmd.owner, cmd.repo);
      && (!up.repoAccess ==>
            h == Handled(Ok(Ephemeral(AccessDenied(cmd.owner, cmd.repo))), [check])
            && threads.rows == old(threads.rows))
      && (up.repoAccess ==>
            var c := Creation(cfg, old(threads.rows), ctx, cmd, cred.value.accessToken,
                             AuthoredIssueBody(ctx, cred.value.forgejoUsername, date, cmd), Some(cred.value.forgejoUsername), now, up);
            h == Handled(c.handled.response, [check] + c.handled.calls) && threads.rows == c.rows)
  {
    if cred.None? {
      return Handled(Ok(Ephemeral(AuthRequired(ConnectUrl(cfg.baseUrl, ctx.userId, ctx.username)))), []);
    }
    if text == "" {
      return Handled(Ok(Ephemeral(Help)), []);
    }
    var parsed := ParseMultiline(text);
    if parsed.None? {
      return Handled(Ok(Ephemeral(UsageError)), []);
    }
    var cmd := parsed.value;
    var check := CheckRepoAccess(cred.value.accessToken, cmd.owner, cmd.repo);
    if !up.repoAccess {
      return Handled(Ok(Ephemeral(AccessDenied(cmd.owner, cmd.repo))), [check]);
    }
    var created := CreateAndMap(cfg, threads, ctx, cmd, cred.value.accessToken,
                                 AuthoredIssueBody(ctx, cred.value.forgejoUsername, date, cmd), Some(cred.value.forgejoUsername), now, up);
    h := Handled(created.response, [check] + created.calls);
  }

  /**
   * `handle_slash_command`: the stripped text with the caller's stored
   * token, whatever its expiry. The token table is only read.
   */
  method HandleSlashCommand(cfg: Config, tokens: TokenStore, threads: ThreadMap, form: map<string, string>,
                            date: string, now: int, up: Upstream) returns (h: Handled)
    modifies threads
    ensures tokens.GetStoredToken(ContextOf(form).userId).None? ==>
      h.response.reply == Ephemeral(AuthRequired(ConnectUrl(cfg.baseUrl, ContextOf(form).userId, ContextOf(form).username)))
      && h.calls == [] && threads.rows == old(threads.rows)
    ensures tokens.GetStoredToken(ContextOf(form).userId).Some? && SlashText(form) == "" ==>
      h.response.reply == Ephemeral(Help) && h.calls == [] && threads.rows == old(threads.rows)
  {
    var ctx := ContextOf(form);
    var cred := tokens.GetStoredToken(ctx.userId);
    h := HandleText(cfg, threads, SlashText(form), ctx, cred, date, now, up);
  }

  /**
   * `webhook`: a form body is a slash command and needs the static token; a
   * JSON body is a code-host delivery and needs a valid signature before it
   * is looked at; any other body is refused. Refused requests change nothing.
   */
  method Webhook(cfg: Config, tokens: TokenStore, threads: ThreadMap, req: Request<Payload>, hmac: Hmac,
                 date: string, now: int, up: Upstream) returns (h: Handled)
    modifies threads
    ensures req.contentType == FormContentType && !VerifyToken(cfg.mattermostToken, Field(req.form, "token", "")) ==>
      h == Handled(Response(401, Ephemeral(InvalidToken)), []) && unchanged(threads)
    ensures req.contentType != FormContentType && req.isJson ==>
      && unchanged(threads)
      && (!VerifyForgejoWebhook(cfg.webhookSecret, req.headers, req.rawBody, hmac) ==>
            h == Handled(Response(401, Failure(InvalidWebhookSecret)), []))
      && (VerifyForgejoWebhook(cfg.webhookSecret, req.headers, req.rawBody, hmac) ==>
            h == HandleForgejoWebhook(cfg, threads, req.json))
    ensures req.contentType != FormContentType && !req.isJson ==>
      h == Handled(Response(400, Failure(UnsupportedContentType)), []) && unchanged(threads)
  {
    if req.contentType == FormContentType {
      if !VerifyToken(cfg.mattermostToken, Field(req.form, "token", "")) {
        return Handled(Response(401, Ephemeral(InvalidToken)), []);
      }
      h := HandleSlashCommand(cfg, tokens, threads, req.form, date, now, up);
    } else if req.isJson {
      if !VerifyForgejoWebhook(cfg.webhookSecret, req.headers, req.rawBody, hmac) {
        return Handled(Response(401, Failure(InvalidWebhookSecret)), []);
      }
      h := HandleForgejoWebhook(cfg, threads, req.json);
    } else {
      h := Handled(Response(400, Failure(UnsupportedContentType)), []);
    }
  }
}
