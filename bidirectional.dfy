/**
 * The bidirectional relay: issues are created with one shared server token,
 * the issue-to-thread mapping lives in process memory, and every event
 * message that cannot be threaded through the chat API falls back to the
 * incoming webhook.
 */
module Bidirectional {
  import opened Wrappers
  import opened Relay
  import opened Threads
  import opened Events
  import opened Command
  import opened Signature
  import opened IssueFlow

  const BotName: string := "Forgejo Bot"
  const BotIcon: string := "https://forgejo.org/favicon.ico"

  /** Whether an incoming-webhook notification was accepted, and the calls made for it. */
  datatype Sent = Sent(ok: bool, calls: seq<Call>)

  /**
   * `send_webhook_notification`: nothing is sent and False returned when no
   * webhook URL is configured; otherwise one post to it, whose payload names
   * a channel only when a non-empty one is given, and the result is whether
   * the post succeeded (`delivered`).
   */
  function SendWebhookNotification(url: string, msg: Message, channel: Option<string>, delivered: bool): (r: Sent)
    ensures url == "" ==> r == Sent(false, [])
    ensures url != "" ==>
      && |r.calls| == 1 && r.ok == delivered
      && r.calls[0].SendIncoming? && r.calls[0].url == url && r.calls[0].payload.text == msg
      && (r.calls[0].payload.channel.Some? <==> Present(channel))
      && (r.calls[0].payload.channel.Some? ==> r.calls[0].payload.channel == channel)
  {
    if url == "" then Sent(false, [])
    else Sent(delivered, [SendIncoming(url, IncomingPayload(msg, BotName, BotIcon, if Present(channel) then channel else None))])
  }

  /**
   * Where an event message about an issue goes: into the issue's thread
   * through the chat API when the issue is mapped and the API configured,
   * otherwise to the incoming webhook (if one is configured).
   */
  function Deliver(cfg: Config, threads: ThreadMap, key: string, msg: Message, up: Upstream): (calls: seq<Call>)
    reads threads
    ensures key in threads.rows && ApiConfigured(cfg) ==> calls == [ThreadReply(threads.rows[key], msg)]
    ensures !(key in threads.rows && ApiConfigured(cfg)) ==>
      calls == SendWebhookNotification(cfg.webhookUrl, msg, None, up.incomingDelivered).calls
  {
    var post := ThreadedPost(threads.Get(key), ApiConfigured(cfg), msg);
    if post.Some? then [post.value] else SendWebhookNotification(cfg.webhookUrl, msg, None, up.incomingDelivered).calls
  }

  /** A comment event: delivered as above; always `processed`. */
  function HandleIssueCommentEvent(cfg: Config, threads: ThreadMap, p: Payload, up: Upstream): (h: Handled)
    reads threads
    ensures h.response == Ok(EventStatus(Processed))
    ensures h.calls == Deliver(cfg, threads, ItemKey(p), CommentNote(CommentItemNote(p), p.comment.body), up)
    ensures |h.calls| <= 1
  {
    Handled(Ok(EventStatus(Processed)), Deliver(cfg, threads, ItemKey(p), CommentNote(CommentItemNote(p), p.comment.body), up))
  }

  /**
   * The message of a non-`opened` issue event in this variant: `closed` has
   * one only when the issue's state really is `closed`; `reopened` always has one.
   */
  function IssueStateMessage(p: Payload): (m: Option<Message>)
    ensures m.Some? <==> (p.action == "closed" && p.issue.state == Some("closed")) || p.action == "reopened"
    ensures m.Some? && p.action == "closed" ==> m.value == IssueClosedNote(IssueNote(p))
    ensures m.Some? && p.action == "reopened" ==> m.value == IssueReopenedNote(IssueNote(p))
  {
    if p.action == "closed" then
      if p.issue.state == Some("closed") then Some(IssueClosedNote(IssueNote(p))) else None
    else if p.action == "reopened" then Some(IssueReopenedNote(IssueNote(p)))
    else None
  }

  /**
   * An issue event. `opened` is announced through the incoming webhook only
   * for issues without a mapping, that is, issues not created from chat.
   * Other actions with a message are delivered as above; every action
   * answers `processed`.
   */
  function HandleIssueEvent(cfg: Config, threads: ThreadMap, p: Payload, up: Upstream): (h: Handled)
    reads threads
    ensures h.response == Ok(EventStatus(Processed))
    ensures p.action == "opened" && ItemKey(p) in threads.rows ==> h.calls == []
    ensures p.action == "opened" && ItemKey(p) !in threads.rows ==>
      h.calls == SendWebhookNotification(cfg.webhookUrl, IssueOpenedNote(IssueNote(p)), None, up.incomingDelivered).calls
    ensures p.action != "opened" && IssueStateMessage(p).None? ==> h.calls == []
    ensures p.action != "opened" && IssueStateMessage(p).Some? ==>
      h.calls == Deliver(cfg, threads, ItemKey(p), IssueStateMessage(p).value, up)
  {
    if p.action == "opened" then
      if threads.Get(ItemKey(p)).None? then
        Handled(Ok(EventStatus(Processed)), SendWebhookNotification(cfg.webhookUrl, IssueOpenedNote(IssueNote(p)), None, up.incomingDelivered).calls)
      else Handled(Ok(EventStatus(Processed)), [])
    else
      var msg := IssueStateMessage(p);
      if msg.None? then Handled(Ok(EventStatus(Processed)), [])
      else Handled(Ok(EventStatus(Processed)), Deliver(cfg, threads, ItemKey(p), msg.value, up))
  }

  /** The message of a pull-request event: opened, merged or closed-unmerged (`merged` defaults to false). */
  function PullRequestMessage(p: Payload): (m: Option<Message>)
    ensures m.Some? <==> p.action == "opened" || p.action == "closed"
    ensures p.action == "opened" ==> m == Some(PullRequestOpenedNote(PullNote(p)))
    ensures p.action == "closed" && p.pullRequest.merged ==> m == Some(PullRequestMergedNote(PullNote(p)))
    ensures p.action == "closed" && !p.pullRequest.merged ==> m == Some(PullRequestClosedNote(PullNote(p)))
  {
    if p.action == "opened" then Some(PullRequestOpenedNote(PullNote(p)))
    else if p.action == "closed" then
      if p.pullRequest.merged then Some(PullRequestMergedNote(PullNote(p))) else Some(PullRequestClosedNote(PullNote(p)))
    else None
  }

  /** A pull-request event: its message, if any, always goes to the incoming webhook, never into a thread. */
  function HandlePullRequestEvent(cfg: Config, p: Payload, up: Upstream): (h: Handled)
    ensures h.response == Ok(EventStatus(Processed))
    ensures forall c :: c in h.calls ==> c.SendIncoming?
    ensures h.calls != [] <==> PullRequestMessage(p).Some? && cfg.webhookUrl != ""
    ensures h.calls != [] ==>
      && |h.calls| == 1 && h.calls[0].url == cfg.webhookUrl
      && h.calls[0].payload.text == PullRequestMessage(p).value && h.calls[0].payload.channel.None?
  {
    var msg := PullRequestMessage(p);
    if msg.None? then Handled(Ok(EventStatus(Processed)), [])
    else Handled(Ok(EventStatus(Processed)), SendWebhookNotification(cfg.webhookUrl, msg.value, None, up.incomingDelivered).calls)
  }

  /**
   * `handle_forgejo_webhook` of this variant: the same first-match
   * classification; unclassified deliveries are `ignored`, the rest
   * `processed`, and at most one message is sent per delivery.
   */
  function HandleForgejoWebhook(cfg: Config, threads: ThreadMap, p: Payload, up: Upstream): (h: Handled)
    reads threads
    ensures Classify(p) == Unclassified ==> h == Handled(Ok(EventStatus(Ignored)), [])
    ensures Classify(p) != Unclassified ==> h.response == Ok(EventStatus(Processed))
    ensures |h.calls| <= 1
    ensures Classify(p) == IssueComment ==> h == HandleIssueCommentEvent(cfg, threads, p, up)
    ensures Classify(p) == IssueState ==> h == HandleIssueEvent(cfg, threads, p, up)
    ensures Classify(p) == PullRequest ==> h == HandlePullRequestEvent(cfg, p, up)
  {
    match Classify(p)
    case IssueComment => HandleIssueCommentEvent(cfg, threads, p, up)
    case IssueState => HandleIssueEvent(cfg, threads, p, up)
    case PullRequest => HandlePullRequestEvent(cfg, p, up)
    case Unclassified => Handled(Ok(EventStatus(Ignored)), [])
  }

  /**
   * The command text once stripped. Empty text gets help; text the parse
   * refuses gets the usage error; otherwise the issue is created with the
   * server token and a body quoting the original text, and mapped as in
   * `Creation`, without a "created as" account.
   */
  method HandleText(cfg: Config, threads: ThreadMap, text: string, ctx: SlashContext,
                    date: string, now: int, up: Upstream) returns (h: Handled)
    modifies threads
    ensures text == "" ==> h == Handled(Ok(Ephemeral(Help)), []) && threads.rows == old(threads.rows)
    ensures text != "" && ParseSingleLine(text).None? ==>
      h == Handled(Ok(Ephemeral(UsageError)), []) && threads.rows == old(threads.rows)
    ensures text != "" && ParseSingleLine(text).Some? ==>
      var cmd := ParseSingleLine(text).value;
      var c := Creation(cfg, old(threads.rows), ctx, cmd, cfg.forgejoToken,
                        RequestIssueBody(ctx, date, text, cmd.title), None, now, up);
      h == c.handled && threads.rows == c.rows
    ensures h.calls != [] ==> h.calls[0].CreateIssue? && h.calls[0].token == cfg.forgejoToken
  {
    if text == "" {
      return Handled(Ok(Ephemeral(Help)), []);
    }
    var parsed := ParseSingleLine(text);
    if parsed.None? {
      return Handled(Ok(Ephemeral(UsageError)), []);
    }
    var cmd := parsed.value;
    h := CreateAndMap(cfg, threads, ctx, cmd, cfg.forgejoToken, RequestIssueBody(ctx, date, text, cmd.title), None, now, up);
  }

  /** `handle_slash_command`: the stripped text of the form. */
  method HandleSlashCommand(cfg: Config, threads: ThreadMap, form: map<string, string>,
                            date: string, now: int, up: Upstream) returns (h: Handled)
    modifies threads
    ensures SlashText(form) == "" ==> h == Handled(Ok(Ephemeral(Help)), []) && threads.rows == old(threads.rows)
    ensures h.calls != [] ==> h.calls[0].CreateIssue? && h.calls[0].token == cfg.forgejoToken
  {
    h := HandleText(cfg, threads, SlashText(form), ContextOf(form), date, now, up);
  }

  /**
   * `webhook`: a form body is a slash command and needs the static token; a
   * JSON body is a code-host delivery and needs a valid signature before it
   * is looked at; any other body is refused. Refused requests change nothing.
   */
  method Webhook(cfg: Config, threads: ThreadMap, req: Request<Payload>, hmac: Hmac,
                 date: string, now: int, up: Upstream) returns (h: Handled)
    modifies threads
    ensures req.contentType == FormContentType && !VerifyToken(cfg.mattermostToken, Field(req.form, "token", "")) ==>
      h == Handled(Response(401, Ephemeral(InvalidToken)), []) && unchanged(threads)
    ensures req.contentType != FormContentType && req.isJson ==>
      && unchanged(threads)
      && (!VerifyForgejoWebhook(cfg.webhookSecret, req.headers, req.rawBody, hmac) ==>
            h == Handled(Response(401, Failure(InvalidWebhookSecret)), []))
      && (VerifyForgejoWebhook(cfg.webhookSecret, req.headers, req.rawBody, hmac) ==>
            h == HandleForgejoWebhook(cfg, threads, req.json, up))
    ensures req.contentType != FormContentType && !req.isJson ==>
      h == Handled(Response(400, Failure(UnsupportedContentType)), []) && unchanged(threads)
  {
    if req.contentType == FormContentType {
      if !VerifyToken(cfg.mattermostToken, Field(req.form, "token", "")) {
        return Handled(Response(401, Ephemeral(InvalidToken)), []);
      }
      h := HandleSlashCommand(cfg, threads, req.form, date, now, up);
    } else if req.isJson {
      if !VerifyForgejoWebhook(cfg.webhookSecret, req.headers, req.rawBody, hmac) {
        return Handled(Response(401, Failure(InvalidWebhookSecret)), []);
      }
      h := HandleForgejoWebhook(cfg, threads, req.json, up);
    } else {
      h := Handled(Response(400, Failure(UnsupportedContentType)), []);
    }
  }
}
