/** The texts `_process_message` and `_send_notification` build for a created
    ticket: the issue URL, the channel announcement with a 200-character
    excerpt of the original message, and the thread reply. */
module Notification {
  import opened Values

  const BrowsePath: string := "/browse/"

  /** At most this many characters of the original message are quoted. */
  const ExcerptLimit: nat := 200

  const Ellipsis: string := "..."

  /** `f"{jira_url}/browse/{key}"` */
  function IssueUrl(jiraUrl: string, key: string): (url: string)
    ensures |url| == |jiraUrl| + |BrowsePath| + |key|
    ensures url[..|jiraUrl|] == jiraUrl
    ensures url[|jiraUrl|..|jiraUrl| + |BrowsePath|] == BrowsePath
    ensures url[|jiraUrl| + |BrowsePath|..] == key
  {
    jiraUrl + BrowsePath + key
  }

  /** The key is recovered from an issue URL by dropping the server address
      and the browse path, so distinct keys give distinct URLs. */
  lemma IssueUrlInjective(jiraUrl: string, key1: string, key2: string)
    requires IssueUrl(jiraUrl, key1) == IssueUrl(jiraUrl, key2)
    ensures key1 == key2
  {
    var n := |jiraUrl| + |BrowsePath|;
    assert key1 == IssueUrl(jiraUrl, key1)[n..];
  }

  /** `message[:200] + ('...' if len(message) > 200 else '')` */
  function Excerpt(message: string): (x: string)
    ensures |x| <= ExcerptLimit + |Ellipsis|
    ensures |message| <= ExcerptLimit ==> x == message
    ensures |x| > ExcerptLimit <==> |message| > ExcerptLimit
    ensures |message| > ExcerptLimit ==> x[..ExcerptLimit] == message[..ExcerptLimit] && x[ExcerptLimit..] == Ellipsis
  {
    if |message| > ExcerptLimit then message[..ExcerptLimit] + Ellipsis else message
  }

  /** The excerpt always begins with as much of the message as fits. */
  lemma ExcerptKeepsPrefix(message: string)
    ensures var n := if |message| < ExcerptLimit then |message| else ExcerptLimit;
      Excerpt(message)[..n] == message[..n]
  {
  }

  /** `<url|key>`: a Slack link to the issue, showing the key and pointing
      at the URL. */
  function TicketLink(url: string, key: string): (link: string)
    ensures |link| == |url| + |key| + 3
  {
    "<" + url + "|" + key + ">"
  }

  /** The link holds the URL between `<` and `|`, and the key between `|`
      and `>`. */
  lemma TicketLinkParts(url: string, key: string)
    ensures var link := TicketLink(url, key);
      && link[0] == '<' && link[|url| + 1] == '|' && link[|link| - 1] == '>'
      && link[1..|url| + 1] == url && link[|url| + 2..|link| - 1] == key
  {
    var link := TicketLink(url, key);
    assert link == "<" + url + "|" + key + ">";
    assert link[1..|url| + 1] == ("<" + url)[1..];
  }

  const AnnouncementHeader: string := ":white_check_mark: *Jira Ticket Created*\n\n*Ticket:* "

  /** The line naming the source channel and the author, and the label of
      the quote that follows. */
  function Attribution(channelName: string, userId: Option<string>): (line: string)
    ensures |line| == |"\n*From:* <#"| + |channelName| + |"> by <@"| + |Render(userId)| + |">\n*Original Message:*\n"|
    ensures var lead := "\n*From:* <#";
      |lead| + |channelName| <= |line|
      && line[..|lead|] == lead && line[|lead|..|lead| + |channelName|] == channelName
    ensures var author := "> by <@" + Render(userId);
      var start := |"\n*From:* <#"| + |channelName|;
      start + |author| <= |line| && line[start..start + |author|] == author
    ensures var closing := ">\n*Original Message:*\n";
      |closing| <= |line| && line[|line| - |closing|..] == closing
  {
    "\n*From:* <#" + channelName + "> by <@" + Render(userId) + ">\n*Original Message:*\n"
  }

  /** The announcement posted to the notification channel. `userId` is `None`
      when the event has no `user`, which the f-string renders as `None`. It
      opens with the header, links the issue, names the channel and the author,
      and ends with the excerpt in a code block. */
  function NotificationText(url: string, key: string, channelName: string, userId: Option<string>, message: string): (text: string)
    ensures |text| == |AnnouncementHeader| + |TicketLink(url, key)| + |Attribution(channelName, userId)| + |Excerpt(message)| + 6
    ensures |AnnouncementHeader| <= |text| && text[..|AnnouncementHeader|] == AnnouncementHeader
    ensures var link := TicketLink(url, key);
      |AnnouncementHeader| + |link| <= |text|
      && text[|AnnouncementHeader|..|AnnouncementHeader| + |link|] == link
    ensures var start := |AnnouncementHeader| + |TicketLink(url, key)|;
      var from := Attribution(channelName, userId);
      start + |from| <= |text| && text[start..start + |from|] == from
    ensures var quoted := "```" + Excerpt(message) + "```";
      |quoted| <= |text| && text[|text| - |quoted|..] == quoted
  {
    var link := TicketLink(url, key);
    var attribution := Attribution(channelName, userId);
    var quoted := "```" + Excerpt(message) + "```";
    var text := AnnouncementHeader + link + attribution + quoted;
    FourParts(text, AnnouncementHeader, link, attribution, quoted);
    text
  }

  /** Each part of a four-part concatenation is the slice at its offset. */
  lemma FourParts(s: string, a: string, b: string, c: string, d: string)
    requires s == a + b + c + d
    ensures |s| == |a| + |b| + |c| + |d|
    ensures s[..|a|] == a
    ensures s[|a|..|a| + |b|] == b
    ensures s[|a| + |b|..|a| + |b| + |c|] == c
    ensures s[|s| - |d|..] == d
  {
    var ab := a + b;
    var abc := ab + c;
    assert s == abc + d;
    assert s[..|abc|] == abc;
    assert abc[..|ab|] == ab;
    assert s[..|a|] == ab[..|a|];
    assert s[|a|..|a| + |b|] == ab[|a|..|a| + |b|];
    assert s[|ab|..|abc|] == abc[|ab|..|abc|];
  }

  const ReplyLead: string := ":ticket: Created Jira ticket: "

  /** The reply posted in the original message's thread. */
  function ThreadReplyText(url: string, key: string): (text: string)
    ensures |text| == |ReplyLead| + |TicketLink(url, key)|
    ensures text[..|ReplyLead|] == ReplyLead
    ensures var link := TicketLink(url, key);
      |link| <= |text| && text[|text| - |link|..] == link
  {
    ReplyLead + TicketLink(url, key)
  }
}
