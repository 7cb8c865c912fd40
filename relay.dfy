/**
 * Vocabulary shared by the four relay variants: configuration, the inbound
 * request, the outbound calls a handler makes, the chat messages it sends and
 * the HTTP response it returns.
 */
module Relay {
  import opened Wrappers
  import opened PyStr
  import Decimal

  newtype byte = b: int | 0 <= b < 256

  /** Settings read once from the environment; an unset variable is the empty string. */
  datatype Config = Config(
    forgejoUrl: string,
    forgejoToken: string,
    clientId: string,
    webhookSecret: string,
    mattermostToken: string,
    webhookUrl: string,
    apiUrl: string,
    apiToken: string,
    baseUrl: string,
    callbackUrl: string)

  /** `MATTERMOST_API_URL and MATTERMOST_API_TOKEN`: threaded replies are possible. */
  predicate ApiConfigured(cfg: Config) {
    cfg.apiUrl != "" && cfg.apiToken != ""
  }

  /** Python truthiness of a value that is either `None` or a string. */
  predicate Present(s: Option<string>) {
    s.Some? && s.value != ""
  }

  /** `d.get(key, default)` on a dictionary of strings (form fields, headers). */
  function Field(m: map<string, string>, key: string, default: string): string {
    if key in m then m[key] else default
  }

  /**
   * A request to `/webhook` as the web framework presents it: the raw
   * `Content-Type` header, whether the body counts as JSON, the form fields,
   * the headers, the raw body and the decoded JSON document `J`.
   */
  datatype Request<J> = Request(
    contentType: string,
    isJson: bool,
    form: map<string, string>,
    headers: map<string, string>,
    rawBody: seq<byte>,
    json: J)

  const FormContentType: string := "application/x-www-form-urlencoded"

  /** The issue the code host reports after a successful create call. */
  datatype CreatedIssue = CreatedIssue(number: nat, htmlUrl: string)

  /**
   * What the external services answer to this request's outbound calls:
   * repository access, the created issue (None on any failure), the id of the
   * chat post (None when the post failed or carried no id) and whether the
   * incoming-webhook post succeeded.
   */
  datatype Upstream = Upstream(
    repoAccess: bool,
    created: Option<CreatedIssue>,
    rootPostId: Option<string>,
    incomingDelivered: bool)

  /** The fields of an issue or pull request that an event message shows. */
  datatype ItemNote = ItemNote(owner: string, repo: string, number: string, title: string, actor: string, url: string)

  /** Chat messages the relays send; their exact wording is not modelled. */
  datatype Message =
    | IssueCreatedNote(title: string, owner: string, repo: string, number: nat, url: string, createdAs: Option<string>)
    | CommentNote(item: ItemNote, body: string)
    | IssueOpenedNote(item: ItemNote)
    | IssueClosedNote(item: ItemNote)
    | IssueReopenedNote(item: ItemNote)
    | PullRequestOpenedNote(item: ItemNote)
    | PullRequestMergedNote(item: ItemNote)
    | PullRequestClosedNote(item: ItemNote)

  /** The JSON document posted to a chat incoming webhook. */
  datatype IncomingPayload = IncomingPayload(text: Message, username: string, iconUrl: string, channel: Option<string>)

  /** The parameters of the code host's OAuth2 authorization redirect (RFC 6749, section 4.1.1). */
  datatype AuthorizeRequest = AuthorizeRequest(
    endpoint: string,
    clientId: string,
    redirectUri: string,
    responseType: string,
    scope: string,
    state: string)

  /** An outbound call a handler makes. */
  datatype Call =
    | CheckRepoAccess(token: string, owner: string, repo: string)
    | CreateIssue(token: string, owner: string, repo: string, title: string, body: string)
    | PostMessage(channelId: string, message: Message, rootId: Option<string>)
    | SendIncoming(url: string, payload: IncomingPayload)
    | ExchangeCode(code: string, redirectUri: string)
    | FetchUserInfo(token: string)

  /** The ephemeral replies shown only to the user who typed the command. */
  datatype Notice =
    | InvalidToken
    | Help
    | UsageError
    | AuthRequired(connectUrl: string)
    | AuthStarted(oldTokenCleared: bool, connectUrl: string)
    | ForcedReauth(connectUrl: string)
    | StatusConnected(forgejoUsername: string)
    | StatusNotConnected(connectUrl: string)
    | AccessDenied(owner: string, repo: string)
    | CreateFailed

  datatype ErrorKind =
    | InvalidWebhookSecret
    | UnsupportedContentType
    | PostUsage
    | IssueCreationFailed
    | MissingUserInformation
    | OAuthError(error: string)
    | MissingCodeOrState
    | InvalidState
    | TokenExchangeFailed
    | UserInfoFailed

  datatype Outcome = Processed | Ignored

  /** The JSON body of a response. */
  datatype Reply =
    | Ephemeral(notice: Notice)
    | InChannel(message: Message)
    | EmptyText
    | EventStatus(outcome: Outcome)
    | IssueFiled(number: nat, url: string)
    | Failure(error: ErrorKind)
    | Redirect(authorize: AuthorizeRequest)
    | Connected(forgejoUsername: string, mattermostUsername: string)

  datatype Response = Response(status: nat, reply: Reply)

  /** A handler's response together with the outbound calls it made, in order. */
  datatype Handled = Handled(response: Response, calls: seq<Call>)

  function Ok(reply: Reply): Response {
    Response(200, reply)
  }

  /** The slash-command form fields, with the defaults the handlers use. */
  datatype SlashContext = SlashContext(userId: string, username: string, channelName: string, channelId: string, teamDomain: string)

  function ContextOf(form: map<string, string>): SlashContext {
    SlashContext(
      Field(form, "user_id", ""),
      Field(form, "user_name", "Unknown"),
      Field(form, "channel_name", "Unknown"),
      Field(form, "channel_id", ""),
      Field(form, "team_domain", ""))
  }

  /** `data.get('text', '').strip()`. */
  function SlashText(form: map<string, string>): string {
    Strip(Field(form, "text", ""))
  }

  /** `f"{BASE_URL}/auth/connect?user_id={user_id}&username={username}"`. */
  function ConnectUrl(baseUrl: string, userId: string, username: string): string {
    baseUrl + "/auth/connect?user_id=" + userId + "&username=" + username
  }

  /**
   * The static slash-command token check: a request passes when no token is
   * configured or when it carries exactly the configured one.
   */
  function VerifyToken(configured: string, given: string): (ok: bool)
    ensures configured == "" ==> ok
    ensures configured != "" ==> (ok <==> given == configured)
  {
    !(configured != "" && given != configured)
  }

  /** `f"{owner}/{repo}#{number}"`, the join key between an issue and its chat thread. */
  function IssueKey(owner: string, repo: string, number: string): string {
    owner + "/" + repo + "#" + number
  }

  /**
   * Issue keys of created issues identify the issue: when neither owner
   * contains '/' and neither repository name contains '#' (true of every
   * name the code host accepts), equal keys mean the same owner, repository
   * and issue number.
   */
  lemma IssueKeyInjective(o1: string, r1: string, n1: nat, o2: string, r2: string, n2: nat)
    requires '/' !in o1 && '/' !in o2 && '#' !in r1 && '#' !in r2
    requires IssueKey(o1, r1, Decimal.NatToDecimal(n1)) == IssueKey(o2, r2, Decimal.NatToDecimal(n2))
    ensures o1 == o2 && r1 == r2 && n1 == n2
  {
    var d1, d2 := Decimal.NatToDecimal(n1), Decimal.NatToDecimal(n2);
    assert IssueKey(o1, r1, d1) == o1 + ['/'] + (r1 + ['#'] + d1);
    assert IssueKey(o2, r2, d2) == o2 + ['/'] + (r2 + ['#'] + d2);
    CutAtFirst(o1, r1 + ['#'] + d1, o2, r2 + ['#'] + d2, '/');
    CutAtFirst(r1, d1, r2, d2, '#');
    Decimal.DecimalInjective(n1, n2);
  }
}
