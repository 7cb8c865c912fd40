# Mattermost ⇄ Forgejo relays: a verified model of the decision layer

The repository holds four small web services that relay between a Mattermost
chat server and a Forgejo code host:

- **enhanced bridge**: per-user OAuth tokens with an expiry, the control
  keywords `auth`/`login`/`connect`/`status`/`reset`/`reauth`, multi-line
  `/issue` commands, and event messages threaded under the post that announced
  the issue.
- **OAuth bridge** (`mattermost_forgejo_oauth_bridge2.py`): the same, but
  without keywords and without any expiry check on stored tokens.
- **bidirectional bridge**: one shared server token, an in-memory
  issue-to-thread dictionary, and an incoming-webhook fallback for every event
  message that cannot be threaded.
- **issue creator**: stateless; a slash command and an outgoing-webhook
  `post` event, both creating issues with the server token.

This project models what each of them decides, with the web framework, the
database and the HTTP client taken out:

- how a `/webhook` request is routed and authenticated: the static slash-command
  token, the `X-Hub-Signature-256` HMAC check, the `X-Webhook-Token` check;
- how the command text is parsed, with Python's exact `strip`, `split(' ', n)`
  and `strip('"\'')` semantics (module `PyStr`);
- the issue bodies;
- the issue key `owner/repo#number`, and the thread mapping it indexes;
- the per-user token table, with and without expiry;
- the OAuth2 authorization-code flow and its `state` check (RFC 6749,
  sections 4.1 and 10.12);
- the classification of code-host deliveries, first match wins;
- the per-action messages, and where each one is delivered.

Every outbound HTTP call is modelled by the answer it gets, an `Upstream` value
or an explicit parameter. Each handler returns its response together with the
list of `Call`s it made, in order. "No issue was created" therefore means "no
`CreateIssue` call is in the list". The two stores, `Tokens.TokenStore` and
`Threads.ThreadMap`, and the browser session `OAuth.Session` are classes whose
`map`/`Option` fields the handlers update in place. Event handlers only read
the thread map, so they are functions with a `reads` clause.

Where the repository's prose and its code differ, the model follows the code:

- `strip('"\'')` removes every leading and trailing quote, not one matching
  pair (`Command.AllQuoteLayersStripped`).
- `split(' ', 2)` splits on single spaces, so two spaces in a row give an empty
  repository name (`Command.DoubleSpaceGivesEmptyRepo`).
- An expired token is reported as missing but its row is not deleted.
- The OAuth bridge has no keywords and no expiry check.
- The enhanced and OAuth bridges never announce `opened` (`ApiBridge.IssueStateMessage`).
  The bidirectional bridge announces it through the incoming webhook, and only for issues it has
  not mapped (`Bidirectional.HandleIssueEvent`).
- The `/issue` prefix test of post events also accepts longer words such as
  `/issues` (`IssueCreator.LongerCommandWordAccepted`).

Source paths in the table are relative to the repository root.

## Model

| member | source | states |
|---|---|---|
| PyStr.TrimLeft | example/enhanced_bridge/mattermost_forgejo_enhanced_bridge.py:607 | the result is a suffix of the input, everything cut off is a dropped character, and the result does not start with one (the left half of `strip`) |
| PyStr.TrimRight | example/enhanced_bridge/mattermost_forgejo_enhanced_bridge.py:607 | the result is a prefix of the input, everything cut off is a dropped character, and the result does not end with one |
| PyStr.StripBy | example/enhanced_bridge/mattermost_forgejo_enhanced_bridge.py:607 | `s.strip(chars)` is no longer than `s` and neither starts nor ends with a stripped character: every layer is removed |
| PyStr.StripByMiddle | example/enhanced_bridge/mattermost_forgejo_enhanced_bridge.py:607 | `s` is a run of stripped characters, then `s.strip(chars)`, then another run of stripped characters |
| PyStr.StripByExact | example/enhanced_bridge/mattermost_forgejo_enhanced_bridge.py:607 | stripping `p + m + q` gives exactly `m` whenever `p` and `q` consist of stripped characters and `m` does not start or end with one |
| PyStr.IndexOf | example/enhanced_bridge/mattermost_forgejo_enhanced_bridge.py:582 | the index found holds the character and no earlier position does |
| PyStr.Split | example/enhanced_bridge/mattermost_forgejo_enhanced_bridge.py:586 | `s.split(sep, maxsplit)` gives at most `maxsplit + 1` parts, no part before the last contains `sep`, and with no limit the last part does not contain it either |
| PyStr.SplitJoin | example/enhanced_bridge/mattermost_forgejo_enhanced_bridge.py:586 | joining the parts of `s.split(sep, maxsplit)` with `sep` gives `s` back |
| PyStr.SplitLength | example/enhanced_bridge/mattermost_forgejo_enhanced_bridge.py:586-587 | the number of parts is one more than the smaller of `maxsplit` and the number of separators, so `len(parts) < 3` means fewer than two spaces |
| PyStr.FirstAndRest | example/enhanced_bridge/mattermost_forgejo_enhanced_bridge.py:582-611 | `lines[0]` is the text before the first line break and `'\n'.join(lines[1:])` is exactly the text after it |
| PyStr.CutAtFirst | example/enhanced_bridge/mattermost_forgejo_enhanced_bridge.py:675 | cutting a string at the first occurrence of a separator determines both pieces |
| Decimal.NatToDecimal | example/enhanced_bridge/mattermost_forgejo_enhanced_bridge.py:675 | `str(number)` is a non-empty run of digits without a leading zero |
| Decimal.DecimalRoundTrip | example/enhanced_bridge/mattermost_forgejo_enhanced_bridge.py:675 | reading the decimal text back gives the number (`int(str(n)) == n`) |
| Decimal.DecimalInjective | example/enhanced_bridge/mattermost_forgejo_enhanced_bridge.py:675 | different issue numbers have different decimal texts |
| Relay.VerifyToken | example/bidirectional_bridge/mattermost_forgejo_bidirectional_bridge.py:106-110 | with no configured token every request passes; otherwise exactly the requests carrying the configured token pass |
| Relay.IssueKeyInjective | example/enhanced_bridge/mattermost_forgejo_enhanced_bridge.py:675 | for owners without '/' and repository names without '#', equal issue keys mean the same owner, repository and number |
| Signature.VerifyForgejoWebhook | example/enhanced_bridge/mattermost_forgejo_enhanced_bridge.py:711-730 | an empty secret accepts everything; otherwise a delivery is accepted if and only if its `X-Hub-Signature-256` header is `sha256=` followed by the HMAC of its raw body |
| Signature.SignedDeliveryAccepted | mattermost_forgejo_oauth_bridge2.py:550-569 | a delivery signed with the secret over its own body is accepted |
| Signature.TamperedBodyRejected | mattermost_forgejo_oauth_bridge2.py:550-569 | with a secret set, a signature over one body does not authenticate a body with a different digest |
| Signature.UnsignedRejected | example/bidirectional_bridge/mattermost_forgejo_bidirectional_bridge.py:112-145 | with a secret set, a delivery without the header is rejected |
| Threads.ThreadMap.Get | mattermost_forgejo_oauth_bridge2.py:261-286 | the lookup finds a row exactly when the key is mapped, and then it is the stored row |
| Threads.ThreadMap.Save | mattermost_forgejo_oauth_bridge2.py:242-259 | insert or replace: the key reads back as the new row and every other key reads back as before |
| Tokens.TokenStore.GetUserToken | example/enhanced_bridge/mattermost_forgejo_enhanced_bridge.py:193-225 | a credential exactly when a row exists and its expiry admits `now` (none, or later than `now`; an unparseable one never does), carrying the stored token and account |
| Tokens.TokenStore.GetStoredToken | mattermost_forgejo_oauth_bridge2.py:195-216 | a credential exactly when a row exists, whatever its expiry, carrying the stored token and account |
| Tokens.TokenStore.DeleteUserToken | example/enhanced_bridge/mattermost_forgejo_enhanced_bridge.py:227-244 | reports whether the user had a row; afterwards the row is gone, no lookup finds a token, and the other rows are unchanged |
| Tokens.TokenStore.SaveUserToken | example/enhanced_bridge/mattermost_forgejo_enhanced_bridge.py:246-268 | insert or replace by user id; the new token is usable exactly before `now + expires_in` (3600 when absent), and no other user's lookup changes |
| Tokens.ExpiredStaysExpired | example/enhanced_bridge/mattermost_forgejo_enhanced_bridge.py:211-219 | a token refused for expiry is refused at every later time |
| Events.Classify | example/enhanced_bridge/mattermost_forgejo_enhanced_bridge.py:737-744 | first match wins: `comment` and `issue` give a comment, `issue` alone an issue event, `pull_request` without `issue` a pull-request event, and neither `issue` nor `pull_request` nothing; each as an if-and-only-if |
| Events.IssueTakesPrecedence | example/enhanced_bridge/mattermost_forgejo_enhanced_bridge.py:737-742 | adding `pull_request` to a delivery with `issue` does not change how it is handled |
| Events.ThreadReply | example/enhanced_bridge/mattermost_forgejo_enhanced_bridge.py:771-778 | the post goes to the mapped channel, and is a reply under the recorded root post exactly when a root id was recorded |
| Events.ThreadedPost | example/enhanced_bridge/mattermost_forgejo_enhanced_bridge.py:766-778 | an event message is posted through the chat API exactly when the issue is mapped and the API is configured |
| Command.SplitCommand | example/enhanced_bridge/mattermost_forgejo_enhanced_bridge.py:586-592 | three parts exist exactly when the line has at least two spaces; the first two parts contain no space and the line is `first + " " + second + " " + rest` |
| Command.SplitCommandUnique | example/bidirectional_bridge/mattermost_forgejo_bidirectional_bridge.py:229-235 | every decomposition of that shape is the one the split finds |
| Command.DoubleSpaceGivesEmptyRepo | example/issue_creator/mattermost_forgejo_issue_creator.py:131-138 | `acme  widgets fix` parses as owner `acme`, empty repository, title `widgets fix` |
| Command.AllQuoteLayersStripped | example/issue_creator/mattermost_forgejo_issue_creator.py:141 | the title `"'Fix'"` becomes `Fix` |
| Command.ParseMultiline | example/enhanced_bridge/mattermost_forgejo_enhanced_bridge.py:582-611 | refused exactly when the stripped first line has fewer than two spaces; otherwise owner and repository are its first two space-free words, the title is the rest with all quotes stripped, and the body is the stripped text after the first line |
| Command.ParseSingleLine | example/bidirectional_bridge/mattermost_forgejo_bidirectional_bridge.py:229-239 | the same on the whole text, with an empty body |
| Command.AuthoredIssueBody | example/enhanced_bridge/mattermost_forgejo_enhanced_bridge.py:639-649 | the body starts with the header and ends with the rule and then the user's text, or, when there is none, `**Description:**` and the title |
| Command.RequestIssueBody | example/bidirectional_bridge/mattermost_forgejo_bidirectional_bridge.py:242-249 | the body starts with the header and ends with the original request in backticks, the rule, `**Description:**` and the title |
| IssueFlow.Creation | example/enhanced_bridge/mattermost_forgejo_enhanced_bridge.py:652-697 | the first call creates the issue with the given token and body; a failed create stores nothing and answers the failure; a created issue maps its key to a row holding the command's channel id, user name, channel name and team, the time and the issue URL, changes no other key, posts the announcement exactly when the API is configured, records a root only from that post, and answers empty exactly when a root was recorded |
| IssueFlow.CreateAndMap | mattermost_forgejo_oauth_bridge2.py:508-541 | the step-by-step store update leaves the mapping and the answer `Creation` specifies |
| IssueFlow.EventFindsCreatedIssue | example/enhanced_bridge/mattermost_forgejo_enhanced_bridge.py:675-680 | an event about the created issue looks up exactly the row just written |
| IssueFlow.OtherIssuesUnaffected | example/bidirectional_bridge/mattermost_forgejo_bidirectional_bridge.py:271-280 | mapping one issue does not change what an event about any other issue finds |
| ApiBridge.HandleIssueCommentEvent | example/enhanced_bridge/mattermost_forgejo_enhanced_bridge.py:750-780 | always `processed`; one threaded post when the issue is mapped and the API configured, no call otherwise |
| ApiBridge.IssueStateMessage | mattermost_forgejo_oauth_bridge2.py:621-653 | only `closed` and `reopened` have a message, and each has its own |
| ApiBridge.HandleIssueEvent | example/enhanced_bridge/mattermost_forgejo_enhanced_bridge.py:782-814 | always `processed`; a threaded post exactly when the action has a message, the issue is mapped and the API is configured |
| ApiBridge.HandleForgejoWebhook | mattermost_forgejo_oauth_bridge2.py:571-587 | unclassified deliveries are `ignored` with no calls, others `processed`; pull requests post nothing; at most one call, into the channel mapped to the event's own issue |
| OAuth.AuthorizationRequest | mattermost_forgejo_oauth_bridge2.py:79-88 | the redirect carries the client id, the callback URI, `response_type=code` and the given `state` |
| OAuth.Session.Clear | example/enhanced_bridge/mattermost_forgejo_enhanced_bridge.py:393 | afterwards the session holds no user and no pending state |
| OAuth.ConnectOAuth | mattermost_forgejo_oauth_bridge2.py:297-318 | without both user id and name, 400 and the session untouched; otherwise the session holds both and `state`, and the redirect carries that same `state` |
| OAuth.OAuthCallback | example/enhanced_bridge/mattermost_forgejo_enhanced_bridge.py:349-399 | 400 with no call and nothing changed on `error`, on a missing code or state, or on a state other than the session's; 500 after a failed exchange or user lookup with nothing stored; otherwise the token row is saved for the session's user and the session is cleared |
| Enhanced.HandleKeyword | example/enhanced_bridge/mattermost_forgejo_enhanced_bridge.py:452-539 | auth keywords delete the caller's row and report whether there was one; reset keywords delete it; `status` reports the lookup and changes nothing; no outbound calls |
| Enhanced.HandleIssueText | example/enhanced_bridge/mattermost_forgejo_enhanced_bridge.py:541-697 | without a usable token the auth-required reply, even for empty text; then help, usage error, access denied after two access checks, or `Creation` with the user's token and body; only a created issue changes the mapping |
| Enhanced.CommentFollowsCreatedIssue | example/enhanced_bridge/mattermost_forgejo_enhanced_bridge.py:750-778 | once the slash text's parsed command has created and mapped its issue, the code host's `issue_comment` delivery for that issue is posted into the command's channel, threaded under the recorded announcement, and answered `processed` |
| Enhanced.HandleSlashCommand | example/enhanced_bridge/mattermost_forgejo_enhanced_bridge.py:439-709 | keywords are handled before the token check and are the only way the token table changes; other text without a usable token gets the auth-required reply and makes no call |
| Enhanced.Webhook | example/enhanced_bridge/mattermost_forgejo_enhanced_bridge.py:401-437 | a form with a wrong token gets 401 and never reaches the slash handler; JSON failing the signature check gets 401 and is not looked at; verified JSON goes to the event router; any other body gets 400 |
| OAuthBridge.HandleText | mattermost_forgejo_oauth_bridge2.py:421-541 | without a stored token the auth-required reply even for empty text; then help, usage error, access denied after one access check, or `Creation` with the user's token |
| OAuthBridge.HandleSlashCommand | mattermost_forgejo_oauth_bridge2.py:410-548 | the stored token is used whatever its expiry; without one, the auth-required reply and no call; with one and empty text, help |
| OAuthBridge.Webhook | mattermost_forgejo_oauth_bridge2.py:372-408 | the same routing and refusals as the enhanced bridge; refused requests change nothing |
| Bidirectional.SendWebhookNotification | example/bidirectional_bridge/mattermost_forgejo_bidirectional_bridge.py:83-104 | no URL means no call and False; otherwise one post carrying the message, naming a channel only when one is given, and the result is whether it was delivered |
| Bidirectional.Deliver | example/bidirectional_bridge/mattermost_forgejo_bidirectional_bridge.py:355-380 | a threaded post when the issue is mapped and the API configured, otherwise the incoming-webhook fallback |
| Bidirectional.HandleIssueCommentEvent | example/bidirectional_bridge/mattermost_forgejo_bidirectional_bridge.py:330-382 | always `processed`; at most one call, chosen as by `Deliver` |
| Bidirectional.IssueStateMessage | example/bidirectional_bridge/mattermost_forgejo_bidirectional_bridge.py:411-416 | `closed` has a message only when the issue's state is `closed`; `reopened` always has one; nothing else does |
| Bidirectional.HandleIssueEvent | example/bidirectional_bridge/mattermost_forgejo_bidirectional_bridge.py:384-447 | `opened` is announced through the incoming webhook only for unmapped issues; other actions with a message are delivered as by `Deliver`, the rest send nothing; always `processed` |
| Bidirectional.PullRequestMessage | example/bidirectional_bridge/mattermost_forgejo_bidirectional_bridge.py:464-472 | `opened` gives a new-PR message, `closed` a merged or closed message according to `merged`, anything else none |
| Bidirectional.HandlePullRequestEvent | example/bidirectional_bridge/mattermost_forgejo_bidirectional_bridge.py:449-480 | pull-request messages only ever go to the incoming webhook: something is sent exactly when there is a message and a webhook URL, and then it is one post to that URL carrying exactly `PullRequestMessage`'s message and no channel; the answer is always `processed` |
| Bidirectional.HandleForgejoWebhook | example/bidirectional_bridge/mattermost_forgejo_bidirectional_bridge.py:309-328 | the same first-match routing; unclassified deliveries are `ignored`; at most one call per delivery |
| Bidirectional.HandleText | example/bidirectional_bridge/mattermost_forgejo_bidirectional_bridge.py:213-307 | empty text gets help, refused text the usage error, otherwise `Creation` with the server token and the request-quoting body |
| Bidirectional.HandleSlashCommand | example/bidirectional_bridge/mattermost_forgejo_bidirectional_bridge.py:203-307 | empty text gets help and changes nothing; the first call, if any, creates an issue with the server token |
| Bidirectional.Webhook | example/bidirectional_bridge/mattermost_forgejo_bidirectional_bridge.py:157-201 | a wrong form token gets 401, JSON failing the signature check gets 401, verified JSON goes to the event router, any other body gets 400; refused requests change nothing |
| IssueCreator.ParsePostMessage | example/issue_creator/mattermost_forgejo_issue_creator.py:187-194 | not a command exactly when the message does not start with `/issue`; too short exactly when it does but has fewer than three spaces; otherwise owner, repository and title are what follows the first word |
| IssueCreator.PostCommandRead | example/issue_creator/mattermost_forgejo_issue_creator.py:190-194 | every message made of a `/issue…` word and three fields is read back as those fields |
| IssueCreator.LongerCommandWordAccepted | example/issue_creator/mattermost_forgejo_issue_creator.py:187-188 | `/issues acme widgets Fix it` is accepted as a command |
| IssueCreator.PostIssueBody | example/issue_creator/mattermost_forgejo_issue_creator.py:196-200 | the body starts with its header and ends with the title line |
| IssueCreator.HandlePostEvent | example/issue_creator/mattermost_forgejo_issue_creator.py:179-217 | never answers 401; non-commands are `ignored` with no call; short commands get 400 with no call; otherwise exactly one create with the server token, answering 200 with number and URL or 500 |
| IssueCreator.HandleSlashCommand | example/issue_creator/mattermost_forgejo_issue_creator.py:105-177 | always answers 200; empty text gets help, refused text the usage error, both with no call; otherwise exactly one create with the server token and the request-quoting body, announced in the channel or answered with an ephemeral failure |
| IssueCreator.Webhook | example/issue_creator/mattermost_forgejo_issue_creator.py:63-103 | a form gets 401 exactly when its token is wrong; JSON needs the `X-Webhook-Token` secret, and only `post` events are handled, others `ignored`; any other body gets 400; a 401 never makes a call |

## Left out

- The web framework, SQLite and the HTTP client are not modelled. Requests are values, the tables are maps, and every outbound call is a `Call` value whose answer is a parameter (`Upstream`, `exchanged`, `login`).
- Logging, environment loading and start-up are not modelled. So are the `/`, `/health` and `/debug` endpoints; none of them decides anything.
- The HMAC-SHA256 computation is a function parameter (`Signature.Hmac`). The timing safety of `hmac.compare_digest` is not expressible, and the comparison is plain equality.
- The clock and date formatting are outside the model. `now` is an integer number of seconds and the `Date:` line of an issue body is a string parameter. A timestamp that `fromisoformat` rejects is the `Unparseable` expiry.
- The random OAuth `state` is not generated: it is a parameter. The authorization URL is kept as its parameter record (`AuthorizeRequest`) rather than urlencoded text.
- Message wording, emoji and Markdown are not modelled. Messages are datatypes holding the fields that are shown. The `status` reply's days and hours of validity are not shown either.
- Header lookup is modelled as an exact-key map, not case-insensitive.
- The form of the HMAC digest is not modelled. `Signature.Hmac` is any function from secret and body to a string, so the signature lemmas also cover a digest that `hexdigest()` can never return (for example the empty one, under which a bare `sha256=` header would be accepted). A real digest is always 64 lower-case hex characters.
- A `number` key that is present with JSON `null` is not modelled. `Item.number` is `None` only when the key is absent, and the key text is then empty, as with the `''` default. With `null` the source formats the key as `owner/repo#None`.
- Exceptions are not modelled; payload fields are the values after the handlers' `.get` defaults. In the source, an exception inside a slash-command handler answers 200 with an ephemeral internal-error message (enhanced bridge lines 699-709, OAuth bridge lines 543-548, bidirectional bridge lines 302-307, issue creator lines 172-177). One inside `handle_forgejo_webhook` (enhanced 746-748, OAuth 585-587, bidirectional 326-328) or the issue creator's `handle_post_event` (215-217) answers 500.
- A JSON body that does not parse is not modelled. The framework answers 400 for it at `request.get_json()`: after the signature check in the three bridges, and before the webhook-token check in the issue creator (line 92).
- `hmac.compare_digest` raises on a signature header with non-ASCII characters. The call sits outside any `try`, so the endpoint answers 500 there, where `Signature.VerifyForgejoWebhook` rejects with 401.
- The access-denied branch makes a second, diagnostic request in the enhanced bridge. It is modelled only as a second `CheckRepoAccess` call; its logged output is not.
- Enhanced.HandleSlashCommand: states the keyword cases and the missing-token case only. The full contract of the remaining cases is on `Enhanced.HandleIssueText`.
- OAuthBridge.HandleSlashCommand: states the missing-token and empty-text cases only. The full contract is on `OAuthBridge.HandleText`.
- Bidirectional.HandleSlashCommand: states the empty-text case and the token used. The full contract is on `Bidirectional.HandleText`.
- Enhanced.Webhook: an accepted form request is not related to the slash handler's result in the contract, only its refusals.
- OAuthBridge.Webhook: an accepted form request is not related to the slash handler's result in the contract, only its refusals.
- Bidirectional.Webhook: an accepted form request is not related to the slash handler's result in the contract, only its refusals.
