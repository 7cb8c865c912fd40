/**
 * Parsing of the `/issue` command text: `owner repo title`, split on single
 * spaces with the title keeping every later space, and, in the enhanced and
 * OAuth variants, the lines after the first as the issue body; and the
 * issue bodies the variants write.
 */
module Command {
  import opened Wrappers
  import opened PyStr
  import opened Relay

  /** The three parts of `line.split(' ', 2)` when there are three. */
  datatype Words = Words(first: string, second: string, rest: string)

  /** A parsed issue command; `userBody` is empty in variants that read only one line. */
  datatype IssueCommand = IssueCommand(owner: string, repo: string, title: string, userBody: string)

  /**
   * `line.split(' ', 2)`, refusing fewer than three parts: the line has at
   * least two spaces, the first two words contain no space, and the line is
   * the first word, a space, the second word, a space and the rest.
   */
  function SplitCommand(line: string): (r: Option<Words>)
    ensures r.None? <==> Count(line, ' ') < 2
    ensures r.Some? ==> ' ' !in r.value.first && ' ' !in r.value.second
    ensures r.Some? ==> line == r.value.first + " " + r.value.second + " " + r.value.rest
  {
    var parts := Split(line, ' ', 2);
    SplitLength(line, ' ', 2);
    SplitJoin(line, ' ', 2);
    if |parts| < 3 then None
    else
      assert Join(parts[1..][1..], ' ') == parts[2];
      assert Join(parts[1..], ' ') == parts[1] + [' '] + parts[2];
      Regroup(parts[0], parts[1], parts[2]);
      Some(Words(parts[0], parts[1], parts[2]))
  }

  lemma Regroup(a: string, b: string, c: string)
    ensures a + [' '] + (b + [' '] + c) == a + " " + b + " " + c
  {
  }

  /** The split is the only one with that shape: any such decomposition is the one found. */
  lemma SplitCommandUnique(line: string, w: Words)
    requires ' ' !in w.first && ' ' !in w.second
    requires line == w.first + " " + w.second + " " + w.rest
    ensures SplitCommand(line) == Some(w)
  {
    TwoSpaces(w.first, w.second, w.rest);
    SameWords(line, SplitCommand(line).value, w);
  }

  lemma SameWords(line: string, r: Words, w: Words)
    requires ' ' !in r.first && ' ' !in r.second && ' ' !in w.first && ' ' !in w.second
    requires line == r.first + " " + r.second + " " + r.rest
    requires line == w.first + " " + w.second + " " + w.rest
    ensures r == w
  {
    assert line == r.first + " " + (r.second + " " + r.rest);
    assert line == w.first + " " + (w.second + " " + w.rest);
    CutAtFirst(r.first, r.second + " " + r.rest, w.first, w.second + " " + w.rest, ' ');
    CutAtFirst(r.second, r.rest, w.second, w.rest, ' ');
  }

  lemma TwoSpaces(a: string, b: string, c: string)
    ensures Count(a + " " + b + " " + c, ' ') >= 2
  {
    OneSpace(a + " " + b, c);
    OneSpace(a, b);
  }

  lemma OneSpace(a: string, b: string)
    ensures Count(a + " " + b, ' ') == Count(a, ' ') + 1 + Count(b, ' ')
  {
    assert a + " " + b == a + (" " + b);
    assert (" " + b)[1..] == b;
    CountAppend(a, " " + b, ' ');
  }

  /**
   * The enhanced and OAuth variants' parse of the (already stripped) text:
   * its first line, stripped, must hold owner, repo and title; the title
   * loses every leading and trailing quote; the stripped text after the
   * first line break is the body.
   */
  function ParseMultiline(text: string): (r: Option<IssueCommand>)
    ensures var line := Strip(Before(text, '\n'));
      && (r.None? <==> Count(line, ' ') < 2)
      && (r.Some? ==>
            var k := |r.value.owner| + |r.value.repo| + 2;
            && ' ' !in r.value.owner && ' ' !in r.value.repo
            && k <= |line| && line[..k] == r.value.owner + " " + r.value.repo + " "
            && r.value.title == StripQuotes(line[k..])
            && r.value.userBody == Strip(After(text, '\n')))
  {
    var lines := Split(text, '\n', -1);
    FirstAndRest(text, '\n');
    var firstLine := Strip(lines[0]);
    match SplitCommand(firstLine)
    case None => None
    case Some(w) =>
      var bodyLines := if |lines| > 1 then lines[1..] else [];
      assert bodyLines == lines[1..];
      var k := |w.first| + |w.second| + 2;
      assert firstLine[..k] == w.first + " " + w.second + " " && firstLine[k..] == w.rest;
      Some(IssueCommand(w.first, w.second, StripQuotes(w.rest), Strip(Join(bodyLines, '\n'))))
  }

  /**
   * The bidirectional and issue-creator variants' parse of the whole
   * (stripped) text as one line; the title may span later lines.
   */
  function ParseSingleLine(text: string): (r: Option<IssueCommand>)
    ensures r.None? <==> Count(text, ' ') < 2
    ensures r.Some? ==>
      var k := |r.value.owner| + |r.value.repo| + 2;
      && ' ' !in r.value.owner && ' ' !in r.value.repo
      && k <= |text| && text[..k] == r.value.owner + " " + r.value.repo + " "
      && r.value.title == StripQuotes(text[k..])
      && r.value.userBody == ""
  {
    match SplitCommand(text)
    case None => None
    case Some(w) =>
      var k := |w.first| + |w.second| + 2;
      assert text[..k] == w.first + " " + w.second + " " && text[k..] == w.rest;
      Some(IssueCommand(w.first, w.second, StripQuotes(w.rest), ""))
  }

  const BodyHeader: string := "## Issue created from Mattermost\n\n"
  const Rule: string := "---\n\n"
  const DescriptionLabel: string := "**Description:**\n"
  const RequestLabel: string := "**Original Request:** `"
  const RequestEnd: string := "`\n\n"

  /** The lines naming where, by whom and when an issue was requested, with the code-host account. */
  function AuthorFields(ctx: SlashContext, forgejoUsername: string, date: string): string {
    "**Channel:** " + ctx.channelName + "\n"
    + "**Team:** " + ctx.teamDomain + "\n"
    + "**Created by:** @" + ctx.username + " (Forgejo: @" + forgejoUsername + ")\n"
    + "**Date:** " + date + "\n\n"
  }

  /** The same lines without a code-host account. */
  function RequestFields(ctx: SlashContext, date: string): string {
    "**Channel:** " + ctx.channelName + "\n"
    + "**Team:** " + ctx.teamDomain + "\n"
    + "**Created by:** @" + ctx.username + "\n"
    + "**Date:** " + date + "\n\n"
  }

  /**
   * The issue body: a header naming channel, team, chat user, code-host
   * account and date, a rule, then the user's own text when there is any and
   * otherwise a description repeating the title.
   */
  function AuthoredIssueBody(ctx: SlashContext, forgejoUsername: string, date: string, cmd: IssueCommand): (body: string)
    ensures StartsWith(body, BodyHeader)
    ensures cmd.userBody != "" ==> EndsWith(body, Rule + cmd.userBody)
    ensures cmd.userBody == "" ==> EndsWith(body, Rule + DescriptionLabel + cmd.title)
  {
    var fields := AuthorFields(ctx, forgejoUsername, date);
    var tail := if cmd.userBody != "" then Rule + cmd.userBody else Rule + DescriptionLabel + cmd.title;
    Framed(BodyHeader, fields, tail);
    BodyHeader + fields + tail
  }

  /**
   * The issue body of the bidirectional and issue-creator variants: a header
   * naming channel, team, chat user and date, the original command text,
   * a rule, then a description repeating the title.
   */
  function RequestIssueBody(ctx: SlashContext, date: string, text: string, title: string): (body: string)
    ensures StartsWith(body, BodyHeader)
    ensures EndsWith(body, RequestLabel + text + RequestEnd + Rule + DescriptionLabel + title)
  {
    var fields := RequestFields(ctx, date);
    var tail := RequestLabel + text + RequestEnd + Rule + DescriptionLabel + title;
    Framed(BodyHeader, fields, tail);
    BodyHeader + fields + tail
  }

  /** Two spaces in a row give an empty repository name; the next word joins the title. */
  lemma DoubleSpaceGivesEmptyRepo()
    ensures SplitCommand("acme  widgets fix") == Some(Words("acme", "", "widgets fix"))
  {
    SplitCommandUnique("acme  widgets fix", Words("acme", "", "widgets fix"));
  }

  /** Every layer of quotes is removed from the title, not just one matching pair. */
  lemma AllQuoteLayersStripped()
    ensures StripQuotes("\"'Fix'\"") == "Fix"
  {
    assert "\"'Fix'\"" == "\"'" + "Fix" + "'\"";
    StripByExact("\"'", "Fix", "'\"", IsQuote);
  }
}
