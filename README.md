# Jira-Slack agent: message handling model

The agent in `agent.py` watches Slack channels. For each message event it does the following:

- It drops noise: edits, deletions, joins and bot posts.
- It looks up the channel name and keeps only messages from monitored channels.
- It asks a Claude model whether the message describes a bug or task.
- It cleans the model's reply and parses it as JSON.
- It decides from the reply's `should_create_ticket` flag and its `confidence` whether to create a Jira issue.

When the answer is "create", the agent does the following, in order:

- It looks up the author.
- It creates the issue.
- It optionally moves the issue to a configured initial status. It picks the first workflow transition that leads there.
- It announces the ticket in a notification channel, quoting up to 200 characters of the message.
- It replies in the original thread.

This project models that deterministic core in Dafny:

| Module | What it holds |
|---|---|
| `Values` | `Option`, decoded JSON documents and Python truthiness. |
| `Settings` | The configuration the core reads. |
| `ResponseCleaning` | `str.strip` and the Markdown fence removal applied to the classifier's reply. |
| `Decision` | The create/skip verdict and the defaults of `_analyze_message`. |
| `Intake` | The event filter of `handle_message`. |
| `Notification` | The issue URL, the 200-character excerpt and the two Slack texts. |
| `Transitions` | The first-match search of `_set_issue_status`, written as a loop. |
| `Pipeline` | The order of external calls. |

The external services are not called. Each run is described by a `World`, which fixes what each call returns or whether it raises. Each operation is a method that returns the sequence of calls (`Effect`s) it makes. A method is proved equal to a trace function, and the properties of the call order are proved as lemmas about those functions.

Points worth noting about the code's behaviour, all of which the model keeps:

- A missing issue type or priority is filled from the configured `jira.default_issue_type` and `jira.default_priority`.
- The classifier's values are passed through as they are. Nothing checks them against the issue types or priorities the prompt lists.
- Every event with a non-empty subtype or bot id is dropped, whatever the subtype.
- A missing confidence counts as 0.
- The flag is read with Python truthiness, so the string `"false"` counts as true.
- The thread reply shares one `try` with the channel announcement. A failed announcement therefore means no thread reply.
- Nothing de-duplicates messages, retries a failed call or switches notifications off.
- An author whose `real_name` is `null` is reported as `None`. An author record whose `profile` is `null` stops the run, because reading the email raises.

## Model

| member | source | states |
|---|---|---|
| ResponseCleaning.SkipSpace | agent.py:221 | The leading-whitespace scan of `strip` stops at the first non-whitespace character, and everything it skipped is whitespace. |
| ResponseCleaning.SkipSpaceBack | agent.py:221 | The trailing-whitespace scan of `strip` stops after the last non-whitespace character, without passing the leading scan's stop. |
| ResponseCleaning.Strip | agent.py:221 | `str.strip()` returns a trimmed slice of the input, and only whitespace lies before and after that slice. |
| ResponseCleaning.SkipSpaceTo | agent.py:221 | The leading scan stops exactly at the first non-space position after a run of spaces. |
| ResponseCleaning.SkipSpaceBackTo | agent.py:221 | The trailing scan stops exactly after the last non-space position before a run of spaces. |
| ResponseCleaning.StripPadded | agent.py:221 | Stripping whitespace padding from a trimmed text gives back that text. |
| ResponseCleaning.StripTrimmed | agent.py:221 | `strip` leaves an already trimmed text unchanged. |
| ResponseCleaning.NextFence | agent.py:225 | The separator search finds the first opening of three backticks at or after the start position, or the end of the text. |
| ResponseCleaning.NextFenceIsFirst | agent.py:225 | The separator search returns any fence position that no earlier fence precedes. |
| ResponseCleaning.FencedBody | agent.py:224-225 | `split('```')[1]` on a text opening with a fence is the text between the opening fence and the next fence (or the end), and it contains no fence. |
| ResponseCleaning.DropJsonTag | agent.py:226-227 | A text that starts with `json` loses exactly those four characters. Any other text is unchanged. |
| ResponseCleaning.NoFenceSlice | agent.py:225-228 | Any slice of a fence-free text is fence-free. |
| ResponseCleaning.CleanResponse | agent.py:221-228 | The text given to the JSON parser is trimmed. An unfenced reply is just stripped. A fenced reply yields a fence-free text. |
| ResponseCleaning.CleanIdempotent | agent.py:221-228 | Cleaning an already cleaned reply changes nothing. |
| ResponseCleaning.CleanFixedPoint | agent.py:221-224 | A trimmed text that does not open with a fence is its own cleaning. |
| ResponseCleaning.UnfencedRoundTrip | agent.py:221-224 | Bare JSON with any surrounding whitespace reaches the parser as exactly that JSON. |
| ResponseCleaning.FencedRoundTrip | agent.py:221-228 | JSON inside a Markdown code block, with or without a `json` tag and with any surrounding whitespace, reaches the parser as exactly that JSON. |
| ResponseCleaning.WrappedBody | agent.py:225 | The fenced body of a code block is the tag, the payload and the two line breaks. |
| ResponseCleaning.NoFenceInside | agent.py:225 | No fence opens between the opening and closing fences of a code block around a fence-free payload. |
| ResponseCleaning.WrappedTrimmed | agent.py:221 | A code block is already trimmed. |
| ResponseCleaning.DropTagOfBody | agent.py:226-227 | Removing the `json` tag, when it is present, leaves the payload between its line breaks. |
| ResponseCleaning.CleanPaddedFenced | agent.py:221-228 | Whitespace around a code block does not change the cleaned text. |
| Decision.InfoOf | agent.py:241-246 | The summary and description are the reply's `summary` and `description`, `None` when missing. A missing issue type or priority takes the configured default. Each field present in the reply is passed through unchanged. |
| Decision.NumericValue | agent.py:235 | A number compares as itself and a boolean as 1 or 0. Any other value makes `>=` raise `TypeError`. |
| Decision.Verdict | agent.py:233-236 | A missing flag means skip. The comparison raises if and only if the flag is truthy and the confidence is not a number. The verdict is "create" if and only if the flag is truthy and the numeric confidence is at least the threshold. |
| Decision.ParsedFields | agent.py:210-230 | A parsed object is available if and only if the classifier call returned, the parser accepted the cleaned text, and the document is an object. In that case it is the parser's object. |
| Decision.Analyze | agent.py:210-252 | Ticket information is returned exactly when a ticket is to be created. It is built from the parsed reply. |
| Decision.AnalyzeCreatesIff | agent.py:230-240 | A ticket is created if and only if the reply parses to an object whose flag is truthy and whose numeric confidence is at least the threshold. |
| Decision.TieCreates | agent.py:233-236 | A confidence equal to the threshold creates a ticket, because the comparison is inclusive. |
| Decision.MissingFlagSkips | agent.py:234 | A reply without `should_create_ticket` never creates a ticket. |
| Decision.MissingConfidenceIsZero | agent.py:235 | A missing confidence counts as 0. |
| Decision.FailureMeansNoTicket | agent.py:250-252 | Each of these gives `(False, None)`: a failed call, a parse error, a non-object document, or a non-numeric confidence under a truthy flag. |
| Decision.ThresholdMonotone | agent.py:235 | Lowering the threshold never turns "create" into "skip". |
| Decision.StringFlagIsTruthy | agent.py:234 | The string `"false"` as the flag still allows creation. |
| Values.Truthy | agent.py:234 | Python's `bool()`: the falsy JSON values are exactly `null`, `false`, zero, the empty string, the empty list and the empty object. |
| Values.TruthyStr | agent.py:110 | A string-or-`None` value is truthy if and only if its JSON form is. |
| Values.Render | agent.py:364 | An f-string renders a string as itself and `None` as `None`. |
| Intake.IsNoise | agent.py:110 | An event is noise if and only if it has a non-empty subtype or a non-empty bot id. |
| Intake.TextOf | agent.py:127 | The message text is the event's `text`, or empty when the event has none. |
| Intake.Admit | agent.py:110-120 | An event is ignored exactly when it has a subtype or a bot id. It is processed exactly when it is not noise and its channel name is monitored. |
| Intake.NoiseIndependentOfChannel | agent.py:110-111 | Whether an event is noise does not depend on its channel. |
| Intake.MonitoredListAsSet | agent.py:118-119 | Only membership in the monitored list matters. |
| Notification.IssueUrl | agent.py:158 | The URL is the server address, then `/browse/`, then the key. |
| Notification.IssueUrlInjective | agent.py:158 | Distinct keys give distinct URLs. |
| Notification.Excerpt | agent.py:365 | A message of at most 200 characters is quoted whole. A longer one is cut to its first 200 characters followed by `...`. |
| Notification.ExcerptKeepsPrefix | agent.py:365 | The excerpt begins with as much of the message as fits. |
| Notification.TicketLink | agent.py:363 | The Slack link to the issue is exactly three characters longer than the URL and the key together: the two brackets and the separator bar. |
| Notification.TicketLinkParts | agent.py:363 | The link opens with `<`, holds the URL, then the separator bar, then the key, and closes with `>`. The same link is used in the thread reply at line 379. |
| Notification.Attribution | agent.py:364-365 | The attribution consists of `*From:* <#` (after a line break) and the channel name, then `> by <@` and the rendered user id, then the closing `>` and the `*Original Message:*` label, with nothing else: its length is the sum of these parts. |
| Notification.NotificationText | agent.py:362-365 | The announcement consists of the header, the Slack link to the issue, the attribution naming the channel and the author (`None` when the event has no user), and the excerpt in a code block, with nothing else: its length is the sum of these parts. |
| Notification.ThreadReplyText | agent.py:379 | The thread reply consists of `:ticket: Created Jira ticket: ` followed by the ticket link, with nothing else. |
| Transitions.FirstTransitionTo | agent.py:327-331 | The chosen transition is the first whose target is the desired status. There is none if and only if no transition leads there. |
| Transitions.FindTransition | agent.py:327-331 | The loop over the transitions returns the first match. |
| Transitions.TargetNames | agent.py:338 | The available targets listed in the warning are the transitions' target names, in order. |
| Transitions.ChosenIffListed | agent.py:327-338 | A transition is chosen if and only if the desired status is among the listed targets. |
| Transitions.FirstTransitionStable | agent.py:328-331 | Transitions listed after a match never change the choice. |
| Pipeline.SetIssueStatus | agent.py:314-346 | The issue is re-read first. The outcome is "already there" if and only if the current status is the desired one. The applied transition is the first match. When nothing matches, the warning lists the target names. The outcome is an error if and only if the re-read failed, the listing failed, or applying the chosen transition failed. |
| Pipeline.StatusTraceStaged | agent.py:316-334 | The status step makes its calls in order: fetch, list transitions, apply. |
| Pipeline.AppliedTransitionIsFirstMatch | agent.py:319-334 | A transition is applied only when the issue is in another status, and it is the first listed one that leads to the desired status. |
| Pipeline.AlreadyThereOnlyReads | agent.py:319-321 | An issue already in the desired status is only re-read. |
| Pipeline.IssueFieldsFor | agent.py:264-291 | The issue carries the configured project key and the classifier's summary, type and priority unchanged. Its description carries the reporter, their email, the channel, the original message, the AI description and the creation time. |
| Pipeline.CreateJiraTicket | agent.py:282-304 | The issue is created first, with the project key, summary, description context, type and priority. The status step follows only when an initial status is configured. |
| Pipeline.TicketTraceStaged | agent.py:295-302 | Creation comes before the status calls, which happen if and only if the issue exists and an initial status is configured. |
| Pipeline.SendNotification | agent.py:359-385 | The announcement goes to the notification channel. The thread reply goes to the original thread, and only when the announcement went through. |
| Pipeline.NotifyTraceStaged | agent.py:367-380 | The announcement comes first. The thread reply follows if and only if the announcement succeeded. |
| Pipeline.ProcessMessage | agent.py:125-170 | The calls of `_process_message` are classification, then the author lookup, then ticket creation and status, then the notification posts. Each one happens only when the one before it succeeded. |
| Pipeline.ProcessTraceStaged | agent.py:133-170 | The run starts with classification, and each call comes at a later stage than the one before. |
| Pipeline.ProcessTraceSplit | agent.py:137-163 | After a resolved author, the run is the calls up to the ticket step followed by the notification calls, which are present if and only if the issue was created. |
| Pipeline.SkipOnlyClassifies | agent.py:135-137 | A "skip" verdict makes no call after classification. |
| Pipeline.CreateLooksUpAuthor | agent.py:137-141 | A "create" verdict looks up the author second. |
| Pipeline.ReporterName | agent.py:142 | A missing `real_name` raises. A `null` one is reported as `None`. A string is reported as it is. |
| Pipeline.ReporterEmail | agent.py:143 | A missing profile or email gives `unknown`. A `null` email gives `None`. A `null` profile raises. |
| Pipeline.NullNameIsReported | agent.py:141-152 | With a `null` `real_name` and a profile that is not `null`, the ticket is still created. The reporter is `None`, and the email is whatever the profile gives. |
| Pipeline.NullProfileStops | agent.py:141-143 | With a `null` profile, the run ends after the author lookup. |
| Pipeline.LaterCallsNeedAuthor | agent.py:137-146 | Any call after the author lookup requires a "create" verdict and an author record with a real name. |
| Pipeline.IssueFromAnalysis | agent.py:135-152 | An issue is created only as the third call, from the classifier's ticket information and the author's name and email. |
| Pipeline.PostsFollowIssue | agent.py:146-163 | Nothing is posted unless the issue was created, and posts come after the creation. |
| Pipeline.ReplyFollowsAnnouncement | agent.py:155-163 | The thread reply immediately follows a successful announcement. It links the same issue URL built from the key. |
| Pipeline.StatusStepsNeedInitialStatus | agent.py:299-302 | Status calls happen only for a created issue with a configured initial status. |
| Pipeline.CreatedIssueIsAnnounced | agent.py:146-163 | Every created issue is announced in the notification channel. |
| Pipeline.HandleMessage | agent.py:106-123 | Noise makes no call. Other events have their channel looked up, and only monitored ones are processed. |
| Pipeline.HandleTraceStaged | agent.py:110-123 | An event makes no call if and only if it is noise. Otherwise the channel lookup comes first and the whole run is ordered. |
| Pipeline.ClassifiedIffMonitored | agent.py:110-123 | A message reaches the classifier if and only if it is not noise and its channel resolves to a monitored name. Classification is then the second call. |
| Pipeline.StagedOrder | agent.py:133-170 | In an ordered trace, the call at an earlier position is at an earlier stage. |

## Left out

- The external services are not modelled: Slack, Anthropic and Jira calls become outcomes in a `World`. Whether a call raised is a `None` or `false` there.
- `json.loads` is an abstract parameter that either yields a JSON document or fails. JSON numbers are reals, and floating-point rounding is not modelled.
- The classifier prompt, `detection_mode`, the model name and `max_tokens` only shape the request, so they are not modelled.
- The Jira description is kept as structured data (reporter, channel, message, AI description and creation time), not as its rendered wiki text. The clock is a value in `World`.
- Logging, including the warning text itself, is left out. The outcome of the status step carries the listed target names instead.
- Configuration loading, environment variables, client construction, `main` and `start` are outside the core. The configuration is assumed to contain every key the core reads, so a `KeyError` on a missing key is not modelled.
- `Intake.TextOf`: an event whose `text` is JSON `null` is treated as one without `text`. The code would instead raise while logging at agent.py:131.
- `Pipeline.ReporterName`: a `real_name` or `email` that is a JSON value other than a string or `null` is not modelled.
- `Pipeline.SetIssueStatus`: a failure of `', '.join` on a target name that is not a string is not modelled.
- `Pipeline.HandleMessage`: how the Slack framework reports an exception that escapes the handler is not modelled. The run simply ends after the failed channel lookup.
- `Notification.TicketLink`: its own contract states only the link's length. Where the URL and the key sit in the link is stated by the separate lemma `Notification.TicketLinkParts`, which keeps the proof of the announcement text small.
