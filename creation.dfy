/**
 * Creating an issue from a chat command and remembering the chat thread it
 * belongs to: the sequence the enhanced, OAuth and bidirectional variants
 * share once they have decided to create an issue.
 */
module IssueFlow {
  import opened Wrappers
  import opened PyStr
  import opened Relay
  import opened Threads
  import opened Events
  import opened Command
  import Decimal

  /** The note announcing a created issue, naming the account it was created as when known. */
  function CreatedNote(cmd: IssueCommand, issue: CreatedIssue, createdAs: Option<string>): Message {
    IssueCreatedNote(cmd.title, cmd.owner, cmd.repo, issue.number, issue.htmlUrl, createdAs)
  }

  /** A handler's response and calls together with the thread mapping it leaves behind. */
  datatype CreationResult = CreationResult(handled: Handled, rows: map<string, ThreadInfo>)

  /**
   * Issue creation once repository access is granted. The first call
   * creates the issue with the given token and body. On failure nothing is stored.
   * On success the announcement is posted through the chat API exactly when
   * it is configured; the issue key `owner/repo#number` is mapped (insert or
   * replace) to the command's channel and no other key changes; a root post
   * is recorded only when the API was used and answered with an id; and the
   * reply is empty exactly when a root post was recorded.
   */
  function Creation(cfg: Config, rows: map<string, ThreadInfo>, ctx: SlashContext, cmd: IssueCommand,
                    token: string, body: string, createdAs: Option<string>, now: int, up: Upstream): (r: CreationResult)
    ensures 1 <= |r.handled.calls| <= 2
    ensures r.handled.calls[0] == CreateIssue(token, cmd.owner, cmd.repo, cmd.title, body)
    ensures up.created.None? ==>
      r.rows == rows && r.handled == Handled(Ok(Ephemeral(CreateFailed)), r.handled.calls[..1])
    ensures up.created.Some? ==>
      var issue := up.created.value;
      var key := IssueKey(cmd.owner, cmd.repo, Decimal.NatToDecimal(issue.number));
      && key in r.rows
      && r.rows[key] == ThreadInfo(ctx.channelId, ctx.username, ctx.channelName, ctx.teamDomain, now, issue.htmlUrl, r.rows[key].rootMessageId)
      && (forall k :: k != key ==> (k in r.rows <==> k in rows))
      && (forall k :: k != key && k in rows ==> r.rows[k] == rows[k])
      && (r.rows[key].rootMessageId.Some? <==> ApiConfigured(cfg) && up.rootPostId.Some?)
      && (r.rows[key].rootMessageId.Some? ==> r.rows[key].rootMessageId == up.rootPostId)
      && (|r.handled.calls| == 2 <==> ApiConfigured(cfg))
      && (|r.handled.calls| == 2 ==> r.handled.calls[1] == PostMessage(ctx.channelId, CreatedNote(cmd, issue, createdAs), None))
      && (r.handled.response == Ok(EmptyText) <==> Present(r.rows[key].rootMessageId))
      && (r.handled.response != Ok(EmptyText) ==> r.handled.response == Ok(InChannel(CreatedNote(cmd, issue, createdAs))))
  {
    var create := CreateIssue(token, cmd.owner, cmd.repo, cmd.title, body);
    if up.created.None? then
      CreationResult(Handled(Ok(Ephemeral(CreateFailed)), [create]), rows)
    else
      var issue := up.created.value;
      var note := CreatedNote(cmd, issue, createdAs);
      var root := if ApiConfigured(cfg) then up.rootPostId else None;
      var key := IssueKey(cmd.owner, cmd.repo, Decimal.NatToDecimal(issue.number));
      var calls := [create] + (if ApiConfigured(cfg) then [PostMessage(ctx.channelId, note, None)] else []);
      var info := ThreadInfo(ctx.channelId, ctx.username, ctx.channelName, ctx.teamDomain, now, issue.htmlUrl, root);
      CreationResult(Handled(if Present(root) then Ok(EmptyText) else Ok(InChannel(note)), calls), rows[key := info])
  }

  /** Issue creation and mapping, performed step by step on the mapping store. */
  method CreateAndMap(cfg: Config, threads: ThreadMap, ctx: SlashContext, cmd: IssueCommand,
                      token: string, body: string, createdAs: Option<string>, now: int, up: Upstream) returns (h: Handled)
    modifies threads
    ensures CreationResult(h, threads.rows) == Creation(cfg, old(threads.rows), ctx, cmd, token, body, createdAs, now, up)
  {
    var calls := [CreateIssue(token, cmd.owner, cmd.repo, cmd.title, body)];
    if up.created.None? {
      return Handled(Ok(Ephemeral(CreateFailed)), calls);
    }
    var issue := up.created.value;
    var note := CreatedNote(cmd, issue, createdAs);
    var root: Option<string> := None;
    if ApiConfigured(cfg) {
      calls := calls + [PostMessage(ctx.channelId, note, None)];
      root := up.rootPostId;
    }
    var key := IssueKey(cmd.owner, cmd.repo, Decimal.NatToDecimal(issue.number));
    threads.Save(key, ThreadInfo(ctx.channelId, ctx.username, ctx.channelName, ctx.teamDomain, now, issue.htmlUrl, root));
    if Present(root) {
      h := Handled(Ok(EmptyText), calls);
    } else {
      h := Handled(Ok(InChannel(note)), calls);
    }
  }

  /**
   * The mapping written for a created issue is the one later events about
   * that issue find: a delivery naming the same owner, repository and issue
   * number has exactly that issue key.
   */
  lemma EventFindsCreatedIssue(rows: map<string, ThreadInfo>, cmd: IssueCommand, issue: CreatedIssue, info: ThreadInfo, p: Payload)
    requires p.owner == cmd.owner && p.repoName == cmd.repo && p.issue.number == Some(issue.number)
    ensures var key := IssueKey(cmd.owner, cmd.repo, Decimal.NatToDecimal(issue.number));
      ItemKey(p) in rows[key := info] && rows[key := info][ItemKey(p)] == info
  {
  }

  /**
   * Mapping one issue leaves every other issue's events where they were:
   * for names the code host accepts (no '/' in an owner, no '#' in a
   * repository name) a delivery about a different issue does not see the new row.
   */
  lemma OtherIssuesUnaffected(rows: map<string, ThreadInfo>, cmd: IssueCommand, issue: CreatedIssue, info: ThreadInfo, p: Payload)
    requires '/' !in cmd.owner && '#' !in cmd.repo && '/' !in p.owner && '#' !in p.repoName
    requires p.issue.number.Some?
    requires (p.owner, p.repoName, p.issue.number.value) != (cmd.owner, cmd.repo, issue.number)
    ensures var key := IssueKey(cmd.owner, cmd.repo, Decimal.NatToDecimal(issue.number));
      && (ItemKey(p) in rows[key := info] <==> ItemKey(p) in rows)
      && (ItemKey(p) in rows ==> rows[key := info][ItemKey(p)] == rows[ItemKey(p)])
  {
    var key := IssueKey(cmd.owner, cmd.repo, Decimal.NatToDecimal(issue.number));
    if ItemKey(p) == key {
      IssueKeyInjective(p.owner, p.repoName, p.issue.number.value, cmd.owner, cmd.repo, issue.number);
      assert false;
    }
  }
}
