/**
 * The code-host event handlers the enhanced and the OAuth variants share
 * line for line. They only ever post into the chat thread mapped to the
 * issue an event concerns, and only through the chat API.
 */
module ApiBridge {
  import opened Wrappers
  import opened Relay
  import opened Threads
  import opened Events

  /**
   * A comment event: posted into the issue's thread when the issue is mapped
   * and the chat API is configured, dropped otherwise; always `processed`.
   */
  function HandleIssueCommentEvent(cfg: Config, threads: ThreadMap, p: Payload): (h: Handled)
    reads threads
    ensures h.response == Ok(EventStatus(Processed))
    ensures ItemKey(p) in threads.rows && ApiConfigured(cfg) ==>
      h.calls == [ThreadReply(threads.rows[ItemKey(p)], CommentNote(CommentItemNote(p), p.comment.body))]
    ensures !(ItemKey(p) in threads.rows && ApiConfigured(cfg)) ==> h.calls == []
  {
    var msg := CommentNote(CommentItemNote(p), p.comment.body);
    Handled(Ok(EventStatus(Processed)), CallsOf(ThreadedPost(threads.Get(ItemKey(p)), ApiConfigured(cfg), msg)))
  }

  /** The message of an issue-state event in these variants: only `closed` and `reopened` have one. */
  function IssueStateMessage(p: Payload): (m: Option<Message>)
    ensures m.Some? <==> p.action == "closed" || p.action == "reopened"
    ensures p.action == "closed" ==> m == Some(IssueClosedNote(IssueNote(p)))
    ensures p.action == "reopened" ==> m == Some(IssueReopenedNote(IssueNote(p)))
  {
    if p.action == "closed" then Some(IssueClosedNote(IssueNote(p)))
    else if p.action == "reopened" then Some(IssueReopenedNote(IssueNote(p)))
    else None
  }

  /**
   * An issue-state event: a `closed` or `reopened` message posted into the
   * issue's thread when the issue is mapped and the chat API is configured;
   * every other action, and every unmapped issue, posts nothing.
   */
  function HandleIssueEvent(cfg: Config, threads: ThreadMap, p: Payload): (h: Handled)
    reads threads
    ensures h.response == Ok(EventStatus(Processed))
    ensures IssueStateMessage(p).Some? && ItemKey(p) in threads.rows && ApiConfigured(cfg) ==>
      h.calls == [ThreadReply(threads.rows[ItemKey(p)], IssueStateMessage(p).value)]
    ensures !(IssueStateMessage(p).Some? && ItemKey(p) in threads.rows && ApiConfigured(cfg)) ==> h.calls == []
  {
    var msg := IssueStateMessage(p);
    if msg.None? then Handled(Ok(EventStatus(Processed)), [])
    else Handled(Ok(EventStatus(Processed)), CallsOf(ThreadedPost(threads.Get(ItemKey(p)), ApiConfigured(cfg), msg.value)))
  }

  /**
   * `handle_forgejo_webhook` of these variants. Unclassified deliveries are
   * `ignored`, all others `processed`; pull-request events post nothing, and
   * whatever is posted goes into the thread mapped to the event's own issue.
   */
  function HandleForgejoWebhook(cfg: Config, threads: ThreadMap, p: Payload): (h: Handled)
    reads threads
    ensures Classify(p) == Unclassified ==> h == Handled(Ok(EventStatus(Ignored)), [])
    ensures Classify(p) != Unclassified ==> h.response == Ok(EventStatus(Processed))
    ensures Classify(p) == PullRequest ==> h.calls == []
    ensures |h.calls| <= 1
    ensures forall c :: c in h.calls ==>
      ItemKey(p) in threads.rows && ApiConfigured(cfg) && c.PostMessage? && c.channelId == threads.rows[ItemKey(p)].channelId
    ensures Classify(p) == IssueComment ==> h == HandleIssueCommentEvent(cfg, threads, p)
    ensures Classify(p) == IssueState ==> h == HandleIssueEvent(cfg, threads, p)
  {
    match Classify(p)
    case IssueComment => HandleIssueCommentEvent(cfg, threads, p)
    case IssueState => HandleIssueEvent(cfg, threads, p)
    case PullRequest => Handled(Ok(EventStatus(Processed)), [])
    case Unclassified => Handled(Ok(EventStatus(Ignored)), [])
  }
}
