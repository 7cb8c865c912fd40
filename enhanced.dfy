/**
 * The enhanced relay: per-user OAuth tokens with an expiry check, control
 * keywords (`auth`, `login`, `connect`, `status`, `reset`, `reauth`) that work
 * without a valid token, multi-line issue commands, and event messages
 * threaded under the post that announced the issue.
 */
module Enhanced {
  import opened Wrappers
  import opened Relay
  import opened Threads
  import opened Tokens
  import opened Events
  import opened Command
  import opened Signature
  import opened ApiBridge
  import opened IssueFlow

  const AuthKeywords: set<string> := {"auth", "login", "connect"}
  const ResetKeywords: set<string> := {"reset", "reauth"}

  /** Text handled before the token check. */
  predicate IsControl(text: string) {
    text in AuthKeywords || text == "status" || text in ResetKeywords
  }

  /** The three keyword groups do not overlap. */
  lemma KeywordsDisjoint()
    ensures "status" !in AuthKeywords && "status" !in ResetKeywords && AuthKeywords !! ResetKeywords
  {
  }

  /**
   * The control keywords, matched before the token check: the auth and the
   * reset keywords delete the caller's token row and answer with the connect
   * URL; `status` reports whether a usable token exists and changes nothing.
   */
  method HandleKeyword(cfg: Config, tokens: TokenStore, text: string, ctx: SlashContext, now: int) returns (h: Handled)
    requires IsControl(text)
    modifies tokens
    ensures h.calls == []
    ensures var url := ConnectUrl(cfg.baseUrl, ctx.userId, ctx.username);
      && (text in AuthKeywords ==>
            h.response == Ok(Ephemeral(AuthStarted(ctx.userId in old(tokens.rows), url)))
            && tokens.rows == old(tokens.rows) - {ctx.userId})
      && (text == "status" ==>
            var cred := old(tokens.GetUserToken(ctx.userId, now));
            h.response == Ok(Ephemeral(if cred.Some? then StatusConnected(cred.value.forgejoUsername) else StatusNotConnected(url)))
            && tokens.rows == old(tokens.rows))
      && (text in ResetKeywords ==>
            h.response == Ok(Ephemeral(ForcedReauth(url))) && tokens.rows == old(tokens.rows) - {ctx.userId})
  {
    var url := ConnectUrl(cfg.baseUrl, ctx.userId, ctx.username);
    if text in AuthKeywords {
      var deleted := tokens.DeleteUserToken(ctx.userId);
      return Handled(Ok(Ephemeral(AuthStarted(deleted, url))), []);
    }
    if text == "status" {
      var status := tokens.GetUserToken(ctx.userId, now);
      if status.Some? {
        return Handled(Ok(Ephemeral(StatusConnected(status.value.forgejoUsername))), []);
      }
      return Handled(Ok(Ephemeral(StatusNotConnected(url))), []);
    }
    var _ := tokens.DeleteUserToken(ctx.userId);
    h := Handled(Ok(Ephemeral(ForcedReauth(url))), []);
  }

  /**
   * Any text other than a keyword. Without a usable token the answer is the
   * auth-required reply, even for empty text; with one, empty text gets help,
   * text the parse refuses gets the usage error, and a parsed command checks
   * repository access with the user's token: access denied stops there
   * (after a second, diagnostic request for the same repository), access
   * granted goes on to `Creation`. Only a created issue changes the mapping.
   */
  method HandleIssueText(cfg: Config, threads: ThreadMap, text: string, ctx: SlashContext, cred: Option<Credential>,
                         date: string, now: int, up: Upstream) returns (h: Handled)
    modifies threads
    ensures cred.None? ==>
      h == Handled(Ok(Ephemeral(AuthRequired(ConnectUrl(cfg.baseUrl, ctx.userId, ctx.username)))), [])
      && threads.rows == old(threads.rows)
    ensures cred.Some? && text == "" ==> h == Handled(Ok(Ephemeral(Help)), []) && threads.rows == old(threads.rows)
    ensures cred.Some? && text != "" && ParseMultiline(text).None? ==>
      h == Handled(Ok(Ephemeral(UsageError)), []) && threads.rows == old(threads.rows)
    ensures cred.Some? && text != "" && ParseMultiline(text).Some? ==>
      var cmd := ParseMultiline(text).value;
      var check := CheckRepoAccess(cred.value.accessToken, cmd.owner, cmd.repo);
      && (!up.repoAccess ==>
            h == Handled(Ok(Ephemeral(AccessDenied(cmd.owner, cmd.repo))), [check, check])
            && threads.rows == old(threads.rows))
      && (up.repoAccess ==>
            var c := Creation(cfg, old(threads.rows), ctx, cmd, cred.value.accessToken,
                             AuthoredIssueBody(ctx, cred.value.forgejoUsername, date, cmd), Some(cred.value.forgejoUsername), now, up);
            h == Handled(c.handled.response, [check] + c.handled.calls) && threads.rows == c.rows)
  {
    if cred.None? {
      return Handled(Ok(Ephemeral(AuthRequired(ConnectUrl(cfg.baseUrl, ctx.userId, ctx.username)))), []);
    }
    if text == "" {
      return Handled(Ok(Ephemeral(Help)), []);
    }
    var parsed := ParseMultiline(text);
    if parsed.None? {
      return Handled(Ok(Ephemeral(UsageError)), []);
    }
    var cmd := parsed.value;
    var check := CheckRepoAccess(cred.value.accessToken, cmd.owner, cmd.repo);
    if !up.repoAccess {
      return Handled(Ok(Ephemeral(AccessDenied(cmd.owner, cmd.repo))), [check, check]);
    }
    var created := CreateAndMap(cfg, threads, ctx, cmd, cred.value.accessToken,
                                 AuthoredIssueBody(ctx, cred.value.forgejoUsername, date, cmd), Some(cred.value.forgejoUsername), now, up);
    h := Handled(created.response, [check] + created.calls);
  }

  /**
   * The happy path end to end: after `HandleIssueText` has created and
   * mapped the issue of a parsed command `cmd` (the mapping is then the one
   * `Creation` gives), a later `issue_comment` delivery for that issue is
   * posted into the command's channel, threaded under the announcement when
   * one was recorded, and answered `processed`.
   */
  lemma CommentFollowsCreatedIssue(cfg: Config, before: map<string, ThreadInfo>, threads: ThreadMap, cmd: IssueCommand,
                                   ctx: SlashContext, cred: Credential, date: string, now: int, up: Upstream, p: Payload)
    requires up.created.Some? && ApiConfigured(cfg)
    requires threads.rows == Creation(cfg, before, ctx, cmd, cred.accessToken, AuthoredIssueBody(ctx, cred.forgejoUsername, date, cmd),
                                      Some(cred.forgejoUsername), now, up).rows
    requires Classify(p) == IssueComment
    requires p.owner == cmd.owner && p.repoName == cmd.repo && p.issue.number == Some(up.created.value.number)
    ensures HandleForgejoWebhook(cfg, threads, p) ==
      Handled(Ok(EventStatus(Processed)),
              [PostMessage(ctx.channelId, CommentNote(CommentItemNote(p), p.comment.body),
                           if Present(up.rootPostId) then up.rootPostId else None)])
  {
    var key := IssueKey(cmd.owner, cmd.repo, Decimal.NatToDecimal(up.created.value.number));
    assert ItemKey(p) == key;
    assert threads.rows[key].rootMessageId == up.rootPostId;
  }

  /**
   * `handle_slash_command`: keywords first, whatever the token; other text
   * with the caller's token as `get_user_token` finds it at `now`. Only the
   * keywords change the token table.
   */
  method HandleSlashCommand(cfg: Config, tokens: TokenStore, threads: ThreadMap, form: map<string, string>,
                            date: string, now: int, up: Upstream) returns (h: Handled)
    modifies tokens, threads
    ensures IsControl(SlashText(form)) ==> h.calls == [] && threads.rows == old(threads.rows)
    ensures SlashText(form) in AuthKeywords ==>
      h.response == Ok(Ephemeral(AuthStarted(ContextOf(form).userId in old(tokens.rows),
                                             ConnectUrl(cfg.baseUrl, ContextOf(form).userId, ContextOf(form).username))))
      && tokens.rows == old(tokens.rows) - {ContextOf(form).userId}
    ensures SlashText(form) in ResetKeywords ==>
      h.response == Ok(Ephemeral(ForcedReauth(ConnectUrl(cfg.baseUrl, ContextOf(form).userId, ContextOf(form).username))))
      && tokens.rows == old(tokens.rows) - {ContextOf(form).userId}
    ensures SlashText(form) == "status" ==>
      tokens.rows == old(tokens.rows)
      && h.response.reply.Ephemeral? && (h.response.reply.notice.StatusConnected? <==> old(tokens.GetUserToken(ContextOf(form).userId, now)).Some?)
    ensures !IsControl(SlashText(form)) ==> tokens.rows == old(tokens.rows)
    ensures !IsControl(SlashText(form)) && old(tokens.GetUserToken(ContextOf(form).userId, now)).None? ==>
      h.response.reply == Ephemeral(AuthRequired(ConnectUrl(cfg.baseUrl, ContextOf(form).userId, ContextOf(form).username)))
      && h.calls == [] && threads.rows == old(threads.rows)
  {
    var text := SlashText(form);
    var ctx := ContextOf(form);
    KeywordsDisjoint();
    if IsControl(text) {
      h := HandleKeyword(cfg, tokens, text, ctx, now);
    } else {
      var cred := tokens.GetUserToken(ctx.userId, now);
      h := HandleIssueText(cfg, threads, text, ctx, cred, date, now, up);
    }
  }

  /**
   * `webhook`: a form body is a slash command and needs the static token; a
   * JSON body is a code-host delivery and needs a valid signature before it
   * is looked at; any other body is refused. Refused requests change nothing.
   */
  method Webhook(cfg: Config, tokens: TokenStore, threads: ThreadMap, req: Request<Payload>, hmac: Hmac,
                 date: string, now: int, up: Upstream) returns (h: Handled)
    modifies tokens, threads
    ensures req.contentType == FormContentType && !VerifyToken(cfg.mattermostToken, Field(req.form, "token", "")) ==>
      h == Handled(Response(401, Ephemeral(InvalidToken)), []) && unchanged(tokens, threads)
    ensures req.contentType != FormContentType && req.isJson ==>
      && unchanged(tokens, threads)
      && (!VerifyForgejoWebhook(cfg.webhookSecret, req.headers, req.rawBody, hmac) ==>
            h == Handled(Response(401, Failure(InvalidWebhookSecret)), []))
      && (VerifyForgejoWebhook(cfg.webhookSecret, req.headers, req.rawBody, hmac) ==>
            h == HandleForgejoWebhook(cfg, threads, req.json))
    ensures req.contentType != FormContentType && !req.isJson ==>
      h == Handled(Response(400, Failure(UnsupportedContentType)), []) && unchanged(tokens, threads)
  {
    if req.contentType == FormContentType {
      if !VerifyToken(cfg.mattermostToken, Field(req.form, "token", "")) {
        return Handled(Response(401, Ephemeral(InvalidToken)), []);
      }
      h := HandleSlashCommand(cfg, tokens, threads, req.form, date, now, up);
    } else if req.isJson {
      if !VerifyForgejoWebhook(cfg.webhookSecret, req.headers, req.rawBody, hmac) {
        return Handled(Response(401, Failure(InvalidWebhookSecret)), []);
      }
      h := HandleForgejoWebhook(cfg, threads, req.json);
    } else {
      h := Handled(Response(400, Failure(UnsupportedContentType)), []);
    }
  }
}
