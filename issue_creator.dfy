/**
 * The issue-creator relay: stateless, one shared server token, and two
 * ways in, a slash command (form body) and an outgoing-webhook `post` event
 * (JSON body) whose message starts with `/issue`.
 */
module IssueCreator {
  import opened Wrappers
  import opened PyStr
  import opened Relay
  import opened Command

  /** An outgoing-webhook delivery after the handler's `.get` defaults (`''` message, `Unknown` names). */
  datatype PostEvent = PostEvent(event: Option<string>, message: string, senderName: string, channelName: string)

  const CommandWord: string := "/issue"
  const TokenHeader: string := "X-Webhook-Token"

  /** The outcome of reading a posted message as a command. */
  datatype PostParse = NotACommand | ShortCommand | PostCommand(owner: string, repo: string, title: string)

  /**
   * `handle_post_event`'s reading of the message: not a command unless it
   * starts with `/issue` (so `/issuex` counts too); then `split(' ', 3)`
   * needs four parts, that is three spaces; the first word is dropped and
   * the rest of the message after it is owner, repository and title.
   */
  function ParsePostMessage(message: string): (r: PostParse)
    ensures r == NotACommand <==> !StartsWith(message, CommandWord)
    ensures r == ShortCommand <==> StartsWith(message, CommandWord) && Count(message, ' ') < 3
    ensures r.PostCommand? ==>
      ' ' in message && ' ' !in r.owner && ' ' !in r.repo
      && After(message, ' ') == r.owner + " " + r.repo + " " + r.title
  {
    if !StartsWith(message, CommandWord) then NotACommand
    else
      var parts := Split(message, ' ', 3);
      SplitLength(message, ' ', 3);
      if |parts| < 4 then ShortCommand
      else
        var rest := After(message, ' ');
        assert parts[1..] == Split(rest, ' ', 2);
        assert SplitCommand(rest) == Some(Words(parts[1], parts[2], parts[3]));
        PostCommand(parts[1], parts[2], parts[3])
  }

  /** Any first word starting with `/issue` is accepted, and the next three fields are read. */
  lemma PostCommandRead(word: string, w: Words)
    requires StartsWith(word, CommandWord) && ' ' !in word
    requires ' ' !in w.first && ' ' !in w.second
    ensures ParsePostMessage(word + " " + w.first + " " + w.second + " " + w.rest) == PostCommand(w.first, w.second, w.rest)
  {
    var tail := w.first + " " + w.second + " " + w.rest;
    var message := word + " " + w.first + " " + w.second + " " + w.rest;
    assert message == word + [' '] + tail;
    IndexAfterPrefix(word, tail, ' ');
    assert After(message, ' ') == tail;
    assert message[..|CommandWord|] == word[..|CommandWord|];
    SplitCommandUnique(tail, w);
    TwoSpaces(w.first, w.second, w.rest);
    OneSpace(word, tail);
  }

  /** The prefix test is literal: a longer first word such as `/issues` is taken as the command. */
  lemma LongerCommandWordAccepted()
    ensures ParsePostMessage("/issues acme widgets Fix it") == PostCommand("acme", "widgets", "Fix it")
  {
    assert "/issues acme widgets Fix it" == "/issues" + " " + "acme" + " " + "widgets" + " " + "Fix it";
    assert "/issues"[..|CommandWord|] == CommandWord;
    PostCommandRead("/issues", Words("acme", "widgets", "Fix it"));
  }

  const PostBodyHeader: string := "Issue created from Mattermost\n\n"
  const TitleLabel: string := "**Title:** "

  /** The lines naming the channel, the sender and the date of a post event. */
  function PostFields(ev: PostEvent, date: string): string {
    "**Channel:** " + ev.channelName + "\n" + "**Created by:** " + ev.senderName + "\n" + "**Date:** " + date + "\n\n"
  }

  /** The body of an issue created from a post event; it ends with the title. */
  function PostIssueBody(ev: PostEvent, date: string, title: string): (body: string)
    ensures StartsWith(body, PostBodyHeader)
    ensures EndsWith(body, TitleLabel + title)
  {
    var fields := PostFields(ev, date);
    var tail := TitleLabel + title;
    Framed(PostBodyHeader, fields, tail);
    PostBodyHeader + fields + tail
  }

  /**
   * `handle_post_event`: a message that is not a command is `ignored` with
   * nothing created; a short one is refused with 400; otherwise one issue is
   * created with the server token in the named repository, answering 200
   * with its number and URL, or 500 when creation fails.
   */
  function HandlePostEvent(cfg: Config, ev: PostEvent, date: string, up: Upstream): (h: Handled)
    ensures h.response.status != 401
    ensures ParsePostMessage(ev.message) == NotACommand ==> h == Handled(Ok(EventStatus(Ignored)), [])
    ensures ParsePostMessage(ev.message) == ShortCommand ==> h == Handled(Response(400, Failure(PostUsage)), [])
    ensures ParsePostMessage(ev.message).PostCommand? ==>
      var c := ParsePostMessage(ev.message);
      && h.calls == [CreateIssue(cfg.forgejoToken, c.owner, c.repo, c.title, PostIssueBody(ev, date, c.title))]
      && (up.created.None? ==> h.response == Response(500, Failure(IssueCreationFailed)))
      && (up.created.Some? ==> h.response == Ok(IssueFiled(up.created.value.number, up.created.value.htmlUrl)))
  {
    match ParsePostMessage(ev.message)
    case NotACommand => Handled(Ok(EventStatus(Ignored)), [])
    case ShortCommand => Handled(Response(400, Failure(PostUsage)), [])
    case PostCommand(owner, repo, title) =>
      var calls := [CreateIssue(cfg.forgejoToken, owner, repo, title, PostIssueBody(ev, date, title))];
      if up.created.None? then Handled(Response(500, Failure(IssueCreationFailed)), calls)
      else Handled(Ok(IssueFiled(up.created.value.number, up.created.value.htmlUrl)), calls)
  }

  /**
   * `handle_slash_command`: empty text gets help, text the parse refuses the
   * usage error; otherwise one issue is created with the server token and a
   * body quoting the original text, and announced in the channel, or an
   * ephemeral failure is shown.
   */
  function HandleSlashCommand(cfg: Config, form: map<string, string>, date: string, up: Upstream): (h: Handled)
    ensures h.response.status == 200
    ensures SlashText(form) == "" ==> h == Handled(Ok(Ephemeral(Help)), [])
    ensures SlashText(form) != "" && ParseSingleLine(SlashText(form)).None? ==> h == Handled(Ok(Ephemeral(UsageError)), [])
    ensures SlashText(form) != "" && ParseSingleLine(SlashText(form)).Some? ==>
      var text := SlashText(form);
      var cmd := ParseSingleLine(text).value;
      && h.calls == [CreateIssue(cfg.forgejoToken, cmd.owner, cmd.repo, cmd.title, RequestIssueBody(ContextOf(form), date, text, cmd.title))]
      && (up.created.None? ==> h.response == Ok(Ephemeral(CreateFailed)))
      && (up.created.Some? ==>
            h.response == Ok(InChannel(IssueCreatedNote(cmd.title, cmd.owner, cmd.repo, up.created.value.number, up.created.value.htmlUrl, None))))
  {
    var text := SlashText(form);
    if text == "" then Handled(Ok(Ephemeral(Help)), [])
    else match ParseSingleLine(text)
      case None => Handled(Ok(Ephemeral(UsageError)), [])
      case Some(cmd) =>
        var calls := [CreateIssue(cfg.forgejoToken, cmd.owner, cmd.repo, cmd.title, RequestIssueBody(ContextOf(form), date, text, cmd.title))];
        if up.created.None? then Handled(Ok(Ephemeral(CreateFailed)), calls)
        else Handled(Ok(InChannel(IssueCreatedNote(cmd.title, cmd.owner, cmd.repo, up.created.value.number, up.created.value.htmlUrl, None))), calls)
  }

  /** The JSON gate: with a secret configured, the `X-Webhook-Token` header must carry exactly it. */
  predicate WebhookTokenAccepted(secret: string, headers: map<string, string>) {
    secret == "" || (TokenHeader in headers && headers[TokenHeader] == secret)
  }

  /**
   * `webhook`: a form body needs the static token and is a slash command; a
   * JSON body needs the webhook token and is handled only when its `event`
   * is `post`, other events being `ignored`; any other body is refused with 400.
   */
  function Webhook(cfg: Config, req: Request<PostEvent>, date: string, up: Upstream): (h: Handled)
    ensures req.contentType == FormContentType ==>
      (!VerifyToken(cfg.mattermostToken, Field(req.form, "token", "")) <==> h == Handled(Response(401, Ephemeral(InvalidToken)), []))
    ensures req.contentType == FormContentType && VerifyToken(cfg.mattermostToken, Field(req.form, "token", "")) ==>
      h == HandleSlashCommand(cfg, req.form, date, up)
    ensures req.contentType != FormContentType && req.isJson ==>
      && (!WebhookTokenAccepted(cfg.webhookSecret, req.headers) ==> h == Handled(Response(401, Failure(InvalidWebhookSecret)), []))
      && (WebhookTokenAccepted(cfg.webhookSecret, req.headers) && req.json.event != Some("post") ==>
            h == Handled(Ok(EventStatus(Ignored)), []))
      && (WebhookTokenAccepted(cfg.webhookSecret, req.headers) && req.json.event == Some("post") ==>
            h == HandlePostEvent(cfg, req.json, date, up))
    ensures req.contentType != FormContentType && !req.isJson ==>
      h == Handled(Response(400, Failure(UnsupportedContentType)), [])
    ensures h.response.status == 401 ==> h.calls == []
  {
    if req.contentType == FormContentType then
      if !VerifyToken(cfg.mattermostToken, Field(req.form, "token", "")) then Handled(Response(401, Ephemeral(InvalidToken)), [])
      else HandleSlashCommand(cfg, req.form, date, up)
    else if req.isJson then
      if !WebhookTokenAccepted(cfg.webhookSecret, req.headers) then Handled(Response(401, Failure(InvalidWebhookSecret)), [])
      else if req.json.event == Some("post") then HandlePostEvent(cfg, req.json, date, up)
      else Handled(Ok(EventStatus(Ignored)), [])
    else Handled(Response(400, Failure(UnsupportedContentType)), [])
  }
}
