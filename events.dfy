/**
 * Code-host webhook events: the fields of the delivery the relays read, how
 * a delivery is classified, and how an event message reaches the chat thread
 * of the issue it concerns.
 */
module Events {
  import opened Wrappers
  import opened Relay
  import opened Threads
  import Decimal

  /** An issue or pull request object of a delivery, after the handlers' `.get` defaults. */
  datatype Item = Item(number: Option<nat>, title: string, htmlUrl: string, state: Option<string>, merged: bool)

  datatype CommentFields = CommentFields(body: string, htmlUrl: string)

  /**
   * A decoded delivery. `keys` are its top-level keys, which decide the
   * event kind; the other fields carry the handlers' defaults (empty owner,
   * repository and action, sender `Unknown`) when absent.
   */
  datatype Payload = Payload(
    keys: set<string>,
    action: string,
    owner: string,
    repoName: string,
    sender: string,
    issue: Item,
    comment: CommentFields,
    pullRequest: Item)

  /** `f"{issue.get('number', '')}"`. */
  function NumberText(n: Option<nat>): string {
    if n.Some? then Decimal.NatToDecimal(n.value) else ""
  }

  /** The issue key an issue event is correlated by. */
  function ItemKey(p: Payload): string {
    IssueKey(p.owner, p.repoName, NumberText(p.issue.number))
  }

  /** The fields shown in an issue-state message. */
  function IssueNote(p: Payload): ItemNote {
    ItemNote(p.owner, p.repoName, NumberText(p.issue.number), p.issue.title, p.sender, p.issue.htmlUrl)
  }

  /** The fields shown in a comment message: its link is the comment's, not the issue's. */
  function CommentItemNote(p: Payload): ItemNote {
    ItemNote(p.owner, p.repoName, NumberText(p.issue.number), p.issue.title, p.sender, p.comment.htmlUrl)
  }

  function PullNote(p: Payload): ItemNote {
    ItemNote(p.owner, p.repoName, NumberText(p.pullRequest.number), p.pullRequest.title, p.sender, p.pullRequest.htmlUrl)
  }

  datatype EventKind = IssueComment | IssueState | PullRequest | Unclassified

  /**
   * `handle_forgejo_webhook`'s dispatch, first match wins: a delivery with
   * both `comment` and `issue` is a comment, one with `issue` an issue-state
   * event, one with `pull_request` (and no `issue`) a pull-request event.
   */
  function Classify(p: Payload): (k: EventKind)
    ensures k == IssueComment <==> "comment" in p.keys && "issue" in p.keys
    ensures k == IssueState <==> "issue" in p.keys && "comment" !in p.keys
    ensures k == PullRequest <==> "pull_request" in p.keys && "issue" !in p.keys
    ensures k == Unclassified <==> "issue" !in p.keys && "pull_request" !in p.keys
  {
    if "comment" in p.keys && "issue" in p.keys then IssueComment
    else if "issue" in p.keys then IssueState
    else if "pull_request" in p.keys then PullRequest
    else Unclassified
  }

  /** The call list of at most one call. */
  function CallsOf(c: Option<Call>): (s: seq<Call>)
    ensures |s| <= 1
    ensures |s| == 1 <==> c.Some?
    ensures c.Some? ==> s[0] == c.value
  {
    if c.Some? then [c.value] else []
  }

  /**
   * The post of `msg` into a mapped issue's thread: a reply under the
   * recorded root post when one was recorded, otherwise a plain post in the
   * recorded channel.
   */
  function ThreadReply(info: ThreadInfo, msg: Message): (c: Call)
    ensures c.PostMessage? && c.channelId == info.channelId && c.message == msg
    ensures c.rootId.Some? <==> Present(info.rootMessageId)
    ensures c.rootId.Some? ==> c.rootId == info.rootMessageId
  {
    PostMessage(info.channelId, msg, if Present(info.rootMessageId) then info.rootMessageId else None)
  }

  /**
   * The post an event message gets through the chat API: into the issue's
   * thread when the issue is mapped and the API is configured, else none.
   */
  function ThreadedPost(thread: Option<ThreadInfo>, apiConfigured: bool, msg: Message): (c: Option<Call>)
    ensures c.Some? <==> thread.Some? && apiConfigured
    ensures c.Some? ==> c.value == ThreadReply(thread.value, msg)
  {
    if thread.Some? && apiConfigured then Some(ThreadReply(thread.value, msg)) else None
  }

  /** A delivery with both an issue and a pull request is handled as an issue event. */
  lemma IssueTakesPrecedence(p: Payload)
    requires "issue" in p.keys
    ensures Classify(p) == Classify(p.(keys := p.keys + {"pull_request"}))
  {
  }
}
