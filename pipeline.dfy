/** The control flow of the agent's message handling, as the sequence of calls
    it makes to Slack, Anthropic and Jira. Each call is an `Effect`; what the
    call returns is read from a `World` that fixes every external outcome of one
    run. Each stage runs only when the one before it succeeded. */
module Pipeline {
  import opened Values
  import opened Settings
  import opened Intake
  import opened Decision
  import opened Notification
  import opened Transitions

  /** A field of a JSON object the agent indexes: missing, `null`, or a
      string. */
  datatype Field = Absent | Null | Text(s: string)

  /** The `profile` of a user record: missing, `null`, or an object with an
      `email` field. */
  datatype Profile = NoProfile | NullProfile | WithEmail(email: Field)

  /** `users_info(...)['user']`: its `real_name` and its `profile`. */
  datatype UserRecord = UserRecord(realName: Field, profile: Profile)

  /** `user['real_name']` as the description renders it: a `null` name is
      rendered `None`; a missing one raises `KeyError`, given as `None`. */
  function ReporterName(u: UserRecord): (name: Option<string>)
    ensures name.None? <==> u.realName.Absent?
    ensures u.realName.Text? ==> name == Some(u.realName.s)
    ensures u.realName.Null? ==> name == Some("None")
  {
    match u.realName
    case Absent => None
    case Null => Some("None")
    case Text(s) => Some(s)
  }

  /** `user.get('profile', {}).get('email', 'unknown')` as the description
      renders it: `None` when the profile is `null`, where the second `.get`
      raises `AttributeError`. */
  function ReporterEmail(u: UserRecord): (email: Option<string>)
    ensures email.None? <==> u.profile.NullProfile?
    ensures u.profile.NoProfile? ==> email == Some("unknown")
    ensures u.profile.WithEmail? && u.profile.email.Absent? ==> email == Some("unknown")
    ensures u.profile.WithEmail? && u.profile.email.Null? ==> email == Some("None")
    ensures u.profile.WithEmail? && u.profile.email.Text? ==> email == Some(u.profile.email.s)
  {
    match u.profile
    case NullProfile => None
    case NoProfile => Some("unknown")
    case WithEmail(Absent) => Some("unknown")
    case WithEmail(Null) => Some("None")
    case WithEmail(Text(s)) => Some(s)
  }

  /** What the ticket description is built from: reporter, channel, original
      message, the classifier's description and the creation time. */
  datatype Description = Description(
    reporterName: string,
    reporterEmail: string,
    channel: string,
    message: string,
    aiDescription: Json,
    createdAt: string)

  /** The `issue_dict` handed to `create_issue`. */
  datatype IssueFields = IssueFields(
    projectKey: string,
    summary: Json,
    description: Description,
    issueType: Json,
    priority: Json)

  /** One call to an external service. */
  datatype Effect =
    | LookupChannel(channelId: Option<string>)           // conversations_info
    | Classify(message: string)                          // messages.create
    | LookupUser(userId: Option<string>)                 // users_info
    | CreateIssue(fields: IssueFields)                   // create_issue
    | FetchIssue(key: string)                            // issue
    | ListTransitions(key: string)                       // transitions
    | ApplyTransition(key: string, transitionId: string) // transition_issue
    | PostChannel(channel: string, text: string)         // chat_postMessage
    | PostThreadReply(channel: string, threadTs: Option<string>, text: string)  // chat_postMessage
  {
    /** The position of the call in the agent's fixed order. */
    function Stage(): nat {
      match this
      case LookupChannel(_) => 0
      case Classify(_) => 1
      case LookupUser(_) => 2
      case CreateIssue(_) => 3
      case FetchIssue(_) => 4
      case ListTransitions(_) => 5
      case ApplyTransition(_, _) => 6
      case PostChannel(_, _) => 7
      case PostThreadReply(_, _, _) => 8
    }

    predicate IsPost() {
      PostChannel? || PostThreadReply?
    }

    predicate IsStatusStep() {
      FetchIssue? || ListTransitions? || ApplyTransition?
    }
  }

  /** The stage each kind of call sits at. */
  lemma StageOfKind(e: Effect)
    ensures e.CreateIssue? ==> e.Stage() == 3
    ensures e.IsStatusStep() ==> 4 <= e.Stage() <= 6
    ensures e.IsPost() ==> 7 <= e.Stage()
    ensures e.PostThreadReply? ==> e.Stage() == 8
  {
  }

  /** The outcome of every external call of one run; `None` or `false` stands
      for a call that raised. */
  datatype World = World(
    channelName: Option<string>,              // conversations_info(...)['channel']['name']
    classifierReply: Option<string>,          // response.content[0].text
    parse: string -> Option<Json>,            // json.loads
    user: Option<UserRecord>,                 // users_info(...)['user']
    now: string,                              // datetime.now(), formatted
    createdKey: Option<string>,               // create_issue(...).key
    currentStatus: Option<string>,            // issue(key).fields.status.name
    transitions: Option<seq<Transition>>,     // transitions(issue)
    transitionApplied: bool,                  // transition_issue(...) returned
    channelPostOk: bool)                      // chat_postMessage to the notification channel returned

  /** Each call comes at a later stage than the one before it. */
  predicate Staged(tr: seq<Effect>) {
    |tr| <= 1 || (tr[0].Stage() < tr[1].Stage() && Staged(tr[1..]))
  }

  /** The first call of `tr` is at stage `lo` or later and its last call
      before stage `hi`; in a staged trace every call then lies in between. */
  predicate StagesIn(tr: seq<Effect>, lo: nat, hi: nat) {
    tr == [] || (lo <= tr[0].Stage() && tr[|tr| - 1].Stage() < hi)
  }

  /** In a staged trace every call comes at a strictly later stage than every
      earlier call, so no kind of call happens twice. */
  lemma {:induction false} StagedOrder(tr: seq<Effect>, i: nat, j: nat)
    requires Staged(tr) && i < j < |tr|
    ensures tr[i].Stage() < tr[j].Stage()
  {
    if i == 0 {
      if j > 1 {
        StagedOrder(tr[1..], 0, j - 1);
      }
    } else {
      StagedOrder(tr[1..], i - 1, j - 1);
    }
  }

  /** Every call of a staged trace lies within the trace's stage bounds. */
  lemma StagedWithin(tr: seq<Effect>, lo: nat, hi: nat, i: nat)
    requires Staged(tr) && StagesIn(tr, lo, hi) && i < |tr|
    ensures lo <= tr[i].Stage() < hi
  {
    if 0 < i {
      StagedOrder(tr, 0, i);
    }
    if i < |tr| - 1 {
      StagedOrder(tr, i, |tr| - 1);
    }
  }

  /** A stage identifies its call in a staged trace. */
  lemma StagedUnique(tr: seq<Effect>, i: nat, j: nat)
    requires Staged(tr) && i < |tr| && j < |tr|
    requires tr[i].Stage() == tr[j].Stage()
    ensures i == j
  {
    if i < j {
      StagedOrder(tr, i, j);
    } else if j < i {
      StagedOrder(tr, j, i);
    }
  }

  /** Two staged traces, the second wholly at later stages, make a staged
      trace. */
  lemma {:induction false} StagedAppend(a: seq<Effect>, b: seq<Effect>, lo: nat, mid: nat, hi: nat)
    requires lo <= mid <= hi
    requires Staged(a) && StagesIn(a, lo, mid)
    requires Staged(b) && StagesIn(b, mid, hi)
    ensures Staged(a + b) && StagesIn(a + b, lo, hi)
  {
    if a == [] {
      assert a + b == b;
    } else if |a| == 1 {
      if b != [] {
        assert (a + b)[1..] == b;
      }
    } else {
      assert (a + b)[1..] == a[1..] + b;
      StagedAppend(a[1..], b, lo, mid, hi);
    }
  }

  /** The outcome `_set_issue_status` logs. */
  datatype StatusOutcome =
    | AlreadyInStatus
    | Transitioned(from: string, transitionId: string)
    | NoTransitionTo(current: string, available: seq<string>)
    | StatusError

  /** The transition `_set_issue_status` applies, if any. */
  function ChosenTransition(w: World, desired: string): Option<Transition> {
    if w.currentStatus.Some? && w.currentStatus.value != desired && w.transitions.Some? then
      FirstTransitionTo(w.transitions.value, desired)
    else
      None
  }

  /** The calls `_set_issue_status(issue, desired)` makes: the specification
      of `SetIssueStatus`, about which the ordering lemmas are proved. */
  function StatusTrace(key: string, desired: string, w: World): seq<Effect> {
    if w.currentStatus.None? || w.currentStatus.value == desired then
      [FetchIssue(key)]
    else if w.transitions.None? then
      [FetchIssue(key), ListTransitions(key)]
    else match FirstTransitionTo(w.transitions.value, desired)
      case None => [FetchIssue(key), ListTransitions(key)]
      case Some(t) => [FetchIssue(key), ListTransitions(key), ApplyTransition(key, t.id)]
  }

  /** `_set_issue_status(issue, desired)`: re-read the issue, stop if it is
      already in `desired`, otherwise apply the first transition leading to
      `desired`, or report the available targets when there is none. Any
      exception ends the step and is only logged. */
  method SetIssueStatus(key: string, desired: string, w: World) returns (effects: seq<Effect>, outcome: StatusOutcome)
    ensures effects == StatusTrace(key, desired, w)
    ensures outcome == AlreadyInStatus <==> w.currentStatus == Some(desired)
    ensures outcome.Transitioned? ==>
      && w.transitionApplied
      && ChosenTransition(w, desired).Some?
      && outcome == Transitioned(w.currentStatus.value, ChosenTransition(w, desired).value.id)
    ensures w.currentStatus.Some? && w.currentStatus.value != desired && w.transitions.Some?
            && FirstTransitionTo(w.transitions.value, desired).None? ==>
      outcome == NoTransitionTo(w.currentStatus.value, TargetNames(w.transitions.value))
    ensures ChosenTransition(w, desired).Some? && w.transitionApplied ==> outcome.Transitioned?
    ensures outcome == StatusError <==>
      || w.currentStatus.None?
      || (w.currentStatus.value != desired
          && (w.transitions.None? || (ChosenTransition(w, desired).Some? && !w.transitionApplied)))
  {
    effects := [FetchIssue(key)];
    if w.currentStatus.None? {
      outcome := StatusError;
      return;
    }
    var current := w.currentStatus.value;
    if current == desired {
      outcome := AlreadyInStatus;
      return;
    }
    effects := effects + [ListTransitions(key)];
    if w.transitions.None? {
      outcome := StatusError;
      return;
    }
    var target := FindTransition(w.transitions.value, desired);
    if target.Some? {
      effects := effects + [ApplyTransition(key, target.value.id)];
      outcome := if w.transitionApplied then Transitioned(current, target.value.id) else StatusError;
    } else {
      outcome := NoTransitionTo(current, TargetNames(w.transitions.value));
    }
  }

  /** The status step re-reads the issue first and stays within its stages. */
  lemma StatusTraceStaged(key: string, desired: string, w: World)
    ensures var tr := StatusTrace(key, desired, w);
      Staged(tr) && StagesIn(tr, 4, 7) && tr[0] == FetchIssue(key)
  {
  }

  /** A transition is applied only when the issue is elsewhere, and it is the
      first one Jira lists that leads to the desired status. */
  lemma AppliedTransitionIsFirstMatch(key: string, desired: string, w: World, j: nat)
    requires j < |StatusTrace(key, desired, w)|
    requires StatusTrace(key, desired, w)[j].ApplyTransition?
    ensures ChosenTransition(w, desired).Some?
    ensures StatusTrace(key, desired, w)[j] == ApplyTransition(key, ChosenTransition(w, desired).value.id)
    ensures w.currentStatus.Some? && w.currentStatus.value != desired
    ensures forall i :: 0 <= i < |w.transitions.value| && w.transitions.value[i].to == desired ==>
      ChosenTransition(w, desired).value == w.transitions.value[i] ||
      exists k :: 0 <= k < i && w.transitions.value[k] == ChosenTransition(w, desired).value
  {
    var ts := w.transitions.value;
    var t := ChosenTransition(w, desired).value;
    forall i | 0 <= i < |ts| && ts[i].to == desired
      ensures t == ts[i] || exists k :: 0 <= k < i && ts[k] == t
    {
      var k :| 0 <= k < |ts| && ts[k] == t && forall m :: 0 <= m < k ==> ts[m].to != desired;
      if k != i {
        assert k < i;
      }
    }
  }

  /** An issue already in the desired status is only re-read. */
  lemma AlreadyThereOnlyReads(key: string, desired: string, w: World)
    requires w.currentStatus == Some(desired)
    ensures StatusTrace(key, desired, w) == [FetchIssue(key)]
  {
  }

  /** The fields `_create_jira_ticket` sends. The priority is always set: the
      `try` around it cannot fail. */
  function IssueFieldsFor(cfg: Config, info: TicketInfo, reporterName: string, reporterEmail: string,
                          channel: string, message: string, now: string): (fields: IssueFields)
    ensures fields.projectKey == cfg.projectKey
    ensures fields.summary == info.summary && fields.issueType == info.issueType && fields.priority == info.priority
    ensures fields.description.reporterName == reporterName && fields.description.reporterEmail == reporterEmail
    ensures fields.description.channel == channel && fields.description.message == message
    ensures fields.description.aiDescription == info.description && fields.description.createdAt == now
  {
    IssueFields(
      cfg.projectKey,
      info.summary,
      Description(reporterName, reporterEmail, channel, message, info.description, now),
      info.issueType,
      info.priority)
  }

  /** The calls `_create_jira_ticket` makes: the specification of
      `CreateJiraTicket`. */
  function TicketTrace(cfg: Config, info: TicketInfo, reporterName: string, reporterEmail: string,
                       channel: string, message: string, w: World): seq<Effect>
  {
    [CreateIssue(IssueFieldsFor(cfg, info, reporterName, reporterEmail, channel, message, w.now))]
    + (if w.createdKey.Some? && TruthyStr(cfg.initialStatus) then
         StatusTrace(w.createdKey.value, cfg.initialStatus.value, w)
       else [])
  }

  /** `_create_jira_ticket`: create the issue, then, when an initial status
      is configured, move the new issue to it. Returns the new key, `None` when
      `create_issue` raised (which aborts the caller). */
  method CreateJiraTicket(cfg: Config, info: TicketInfo, reporterName: string, reporterEmail: string,
                          channel: string, message: string, w: World)
    returns (effects: seq<Effect>, key: Option<string>)
    ensures effects == TicketTrace(cfg, info, reporterName, reporterEmail, channel, message, w)
    ensures key == w.createdKey
  {
    effects := [CreateIssue(IssueFieldsFor(cfg, info, reporterName, reporterEmail, channel, message, w.now))];
    key := w.createdKey;
    if key.Some? && TruthyStr(cfg.initialStatus) {
      var statusEffects, outcome := SetIssueStatus(key.value, cfg.initialStatus.value, w);
      effects := effects + statusEffects;
    }
  }

  /** Ticket creation comes first, and the status step follows only when the
      issue exists and an initial status is configured. */
  lemma TicketTraceStaged(cfg: Config, info: TicketInfo, reporterName: string, reporterEmail: string,
                          channel: string, message: string, w: World)
    ensures var tr := TicketTrace(cfg, info, reporterName, reporterEmail, channel, message, w);
      && Staged(tr) && StagesIn(tr, 3, 7)
      && tr[0] == CreateIssue(IssueFieldsFor(cfg, info, reporterName, reporterEmail, channel, message, w.now))
      && (|tr| > 1 <==> w.createdKey.Some? && TruthyStr(cfg.initialStatus))
  {
    var head := [CreateIssue(IssueFieldsFor(cfg, info, reporterName, reporterEmail, channel, message, w.now))];
    if w.createdKey.Some? && TruthyStr(cfg.initialStatus) {
      StatusTraceStaged(w.createdKey.value, cfg.initialStatus.value, w);
      StagedAppend(head, StatusTrace(w.createdKey.value, cfg.initialStatus.value, w), 3, 4, 7);
    }
  }

  /** The calls `_send_notification` makes: the specification of
      `SendNotification`. */
  function NotifyTrace(cfg: Config, key: string, url: string, message: string, channelName: string,
                       userId: Option<string>, threadTs: Option<string>, w: World): seq<Effect>
  {
    [PostChannel(cfg.notificationChannel, NotificationText(url, key, channelName, userId, message))]
    + (if w.channelPostOk then [PostThreadReply(channelName, threadTs, ThreadReplyText(url, key))] else [])
  }

  /** `_send_notification`: announce the ticket in the notification channel,
      then reply in the original thread. Both posts share one `try`, so the
      reply is not sent when the announcement fails. */
  method SendNotification(cfg: Config, key: string, url: string, message: string, channelName: string,
                          userId: Option<string>, threadTs: Option<string>, w: World)
    returns (effects: seq<Effect>)
    ensures effects == NotifyTrace(cfg, key, url, message, channelName, userId, threadTs, w)
  {
    effects := [PostChannel(cfg.notificationChannel, NotificationText(url, key, channelName, userId, message))];
    if w.channelPostOk {
      effects := effects + [PostThreadReply(channelName, threadTs, ThreadReplyText(url, key))];
    }
  }

  /** The announcement comes first; the thread reply follows only when the
      announcement went through. */
  lemma NotifyTraceStaged(cfg: Config, key: string, url: string, message: string, channelName: string,
                          userId: Option<string>, threadTs: Option<string>, w: World)
    ensures var tr := NotifyTrace(cfg, key, url, message, channelName, userId, threadTs, w);
      && Staged(tr) && StagesIn(tr, 7, 9)
      && tr[0] == PostChannel(cfg.notificationChannel, NotificationText(url, key, channelName, userId, message))
      && (|tr| == 2 <==> w.channelPostOk)
      && (w.channelPostOk ==> tr[1] == PostThreadReply(channelName, threadTs, ThreadReplyText(url, key)))
  {
  }

  /** The author lookup succeeded, the record has a `real_name` key and its
      profile is not `null`: reading the reporter's name and email raises
      nothing. */
  predicate UserResolved(w: World) {
    w.user.Some? && ReporterName(w.user.value).Some? && ReporterEmail(w.user.value).Some?
  }

  /** The calls `_process_message` makes for a message of channel
      `channelName`, in the order it appends them: the specification of
      `ProcessMessage`. */
  function ProcessTrace(cfg: Config, event: Event, channelName: string, w: World): seq<Effect> {
    var text := TextOf(event);
    var a := Analyze(w.classifierReply, w.parse, cfg);
    if !a.shouldCreate then
      [Classify(text)]
    else if !UserResolved(w) then
      [Classify(text)] + [LookupUser(event.user)]
    else
      var u := w.user.value;
      var ticket := TicketTrace(cfg, a.ticketInfo.value, ReporterName(u).value, ReporterEmail(u).value,
                                channelName, text, w);
      if w.createdKey.None? then
        [Classify(text)] + [LookupUser(event.user)] + ticket
      else
        var key := w.createdKey.value;
        [Classify(text)] + [LookupUser(event.user)] + ticket
        + NotifyTrace(cfg, key, IssueUrl(cfg.jiraUrl, key), text, channelName, event.user, event.ts, w)
  }

  /** `_process_message`: classify the message and, on a "create" verdict,
      look up the author, create the ticket and notify. An exception at any
      stage ends the run. */
  method ProcessMessage(cfg: Config, event: Event, channelName: string, w: World) returns (effects: seq<Effect>)
    ensures effects == ProcessTrace(cfg, event, channelName, w)
  {
    var text := TextOf(event);
    effects := [Classify(text)];
    var analysis := Analyze(w.classifierReply, w.parse, cfg);
    if !analysis.shouldCreate {
      return;
    }
    effects := effects + [LookupUser(event.user)];
    if !UserResolved(w) {
      return;
    }
    var user := w.user.value;
    var ticketEffects, key := CreateJiraTicket(cfg, analysis.ticketInfo.value, ReporterName(user).value,
                                               ReporterEmail(user).value, channelName, text, w);
    effects := effects + ticketEffects;
    if key.None? {
      return;
    }
    var url := IssueUrl(cfg.jiraUrl, key.value);
    var notes := SendNotification(cfg, key.value, url, text, channelName, event.user, event.ts, w);
    effects := effects + notes;
  }

  /** The run starts with classification, and each call comes at a later
      stage than the one before it. */
  lemma ProcessTraceStaged(cfg: Config, event: Event, channelName: string, w: World)
    ensures var tr := ProcessTrace(cfg, event, channelName, w);
      Staged(tr) && StagesIn(tr, 1, 9) && tr[0] == Classify(TextOf(event))
  {
    if Analyze(w.classifierReply, w.parse, cfg).shouldCreate && UserResolved(w) {
      ProcessTraceSplit(cfg, event, channelName, w);
      StagedAppend(Prelude(cfg, event, channelName, w), Tail(cfg, event, channelName, w), 1, 7, 9);
    }
  }

  /** A "skip" verdict ends the run after classification: no user lookup, no
      ticket, no notification. */
  lemma SkipOnlyClassifies(cfg: Config, event: Event, channelName: string, w: World)
    requires !Analyze(w.classifierReply, w.parse, cfg).shouldCreate
    ensures ProcessTrace(cfg, event, channelName, w) == [Classify(TextOf(event))]
  {
  }

  /** A "create" verdict looks the author up right after classification. */
  lemma CreateLooksUpAuthor(cfg: Config, event: Event, channelName: string, w: World)
    requires Analyze(w.classifierReply, w.parse, cfg).shouldCreate
    ensures var tr := ProcessTrace(cfg, event, channelName, w);
      |tr| >= 2 && tr[1] == LookupUser(event.user)
  {
    if UserResolved(w) {
      ProcessTraceSplit(cfg, event, channelName, w);
    }
  }

  /** An author whose `real_name` is `null` is still reported: the ticket is
      created with the reporter rendered as `None` and whatever email the
      profile gives. */
  lemma NullNameIsReported(cfg: Config, event: Event, channelName: string, w: World)
    requires Analyze(w.classifierReply, w.parse, cfg).shouldCreate
    requires w.user.Some? && w.user.value.realName.Null? && !w.user.value.profile.NullProfile?
    ensures var tr := ProcessTrace(cfg, event, channelName, w);
      |tr| >= 3 && tr[2].CreateIssue?
      && tr[2].fields.description.reporterName == "None"
      && tr[2].fields.description.reporterEmail == ReporterEmail(w.user.value).value
  {
    ProcessTraceSplit(cfg, event, channelName, w);
  }

  /** An author record whose profile is `null` ends the run after the lookup:
      reading the email raises. */
  lemma NullProfileStops(cfg: Config, event: Event, channelName: string, w: World)
    requires Analyze(w.classifierReply, w.parse, cfg).shouldCreate
    requires w.user.Some? && w.user.value.profile.NullProfile?
    ensures ProcessTrace(cfg, event, channelName, w) == [Classify(TextOf(event)), LookupUser(event.user)]
  {
  }

  /** Every call after the author lookup needs a "create" verdict and a
      resolved author. */
  lemma LaterCallsNeedAuthor(cfg: Config, event: Event, channelName: string, w: World, i: nat)
    requires i < |ProcessTrace(cfg, event, channelName, w)|
    requires ProcessTrace(cfg, event, channelName, w)[i].Stage() > 2
    ensures Analyze(w.classifierReply, w.parse, cfg).shouldCreate && UserResolved(w)
  {
  }

  /** The calls up to the ticket step, for a "create" verdict and a resolved
      author. */
  function Prelude(cfg: Config, event: Event, channelName: string, w: World): seq<Effect>
    requires Analyze(w.classifierReply, w.parse, cfg).shouldCreate && UserResolved(w)
  {
    var a := Analyze(w.classifierReply, w.parse, cfg);
    var u := w.user.value;
    var text := TextOf(event);
    [Classify(text)] + [LookupUser(event.user)]
    + TicketTrace(cfg, a.ticketInfo.value, ReporterName(u).value, ReporterEmail(u).value, channelName, text, w)
  }

  /** The notification calls that follow, none when the issue was not
      created. */
  function Tail(cfg: Config, event: Event, channelName: string, w: World): seq<Effect> {
    if w.createdKey.None? then []
    else
      var key := w.createdKey.value;
      NotifyTrace(cfg, key, IssueUrl(cfg.jiraUrl, key), TextOf(event), channelName, event.user, event.ts, w)
  }

  /** Once the author is known the trace is the calls up to the ticket step,
      all below the announcement's stage, followed by the notification
      calls. */
  lemma ProcessTraceSplit(cfg: Config, event: Event, channelName: string, w: World)
    requires Analyze(w.classifierReply, w.parse, cfg).shouldCreate && UserResolved(w)
    ensures ProcessTrace(cfg, event, channelName, w) == Prelude(cfg, event, channelName, w) + Tail(cfg, event, channelName, w)
    ensures var before := Prelude(cfg, event, channelName, w);
      var a := Analyze(w.classifierReply, w.parse, cfg);
      var u := w.user.value;
      && Staged(before) && StagesIn(before, 1, 7) && |before| >= 3
      && before[0] == Classify(TextOf(event))
      && before[1] == LookupUser(event.user)
      && before[2] == CreateIssue(IssueFieldsFor(cfg, a.ticketInfo.value, ReporterName(u).value,
                                                 ReporterEmail(u).value, channelName, TextOf(event), w.now))
      && (|before| == 3 <==> !(w.createdKey.Some? && TruthyStr(cfg.initialStatus)))
    ensures var tail := Tail(cfg, event, channelName, w);
      && Staged(tail) && StagesIn(tail, 7, 9)
      && (w.createdKey.None? <==> tail == [])
  {
    var a := Analyze(w.classifierReply, w.parse, cfg);
    var u := w.user.value;
    var text := TextOf(event);
    var ticket := TicketTrace(cfg, a.ticketInfo.value, ReporterName(u).value, ReporterEmail(u).value, channelName, text, w);
    TicketTraceStaged(cfg, a.ticketInfo.value, ReporterName(u).value, ReporterEmail(u).value, channelName, text, w);
    StagedAppend([Classify(text)] + [LookupUser(event.user)], ticket, 1, 3, 7);
    assert Prelude(cfg, event, channelName, w)[2] == ticket[0];
    if w.createdKey.Some? {
      var key := w.createdKey.value;
      NotifyTraceStaged(cfg, key, IssueUrl(cfg.jiraUrl, key), text, channelName, event.user, event.ts, w);
    } else {
      assert Prelude(cfg, event, channelName, w) + [] == Prelude(cfg, event, channelName, w);
    }
  }

  /** A call of `before + tail` is a call of `before`, below stage `mid`, or
      a call of `tail`, at `mid` or later. */
  lemma SplitAt(before: seq<Effect>, tail: seq<Effect>, lo: nat, mid: nat, hi: nat, j: nat)
    requires Staged(before) && StagesIn(before, lo, mid)
    requires Staged(tail) && StagesIn(tail, mid, hi)
    requires j < |before + tail|
    ensures j < |before| ==> (before + tail)[j] == before[j] && (before + tail)[j].Stage() < mid
    ensures |before| <= j ==> (before + tail)[j] == tail[j - |before|] && mid <= (before + tail)[j].Stage()
  {
    if j < |before| {
      StagedWithin(before, lo, mid, j);
    } else {
      StagedWithin(tail, mid, hi, j - |before|);
    }
  }

  /** The issue is created only on a "create" verdict once the author is
      known, as the third call, from the classifier's ticket information. */
  lemma IssueFromAnalysis(cfg: Config, event: Event, channelName: string, w: World, i: nat)
    requires i < |ProcessTrace(cfg, event, channelName, w)|
    requires ProcessTrace(cfg, event, channelName, w)[i].CreateIssue?
    ensures Analyze(w.classifierReply, w.parse, cfg).shouldCreate && UserResolved(w)
    ensures i == 2
    ensures var a := Analyze(w.classifierReply, w.parse, cfg);
      var u := w.user.value;
      ProcessTrace(cfg, event, channelName, w)[i].fields
        == IssueFieldsFor(cfg, a.ticketInfo.value, ReporterName(u).value, ReporterEmail(u).value,
                          channelName, TextOf(event), w.now)
  {
    StageOfKind(ProcessTrace(cfg, event, channelName, w)[i]);
    LaterCallsNeedAuthor(cfg, event, channelName, w, i);
    ProcessTraceSplit(cfg, event, channelName, w);
    var before := Prelude(cfg, event, channelName, w);
    SplitAt(before, Tail(cfg, event, channelName, w), 1, 7, 9, i);
    StagedUnique(before, i, 2);
  }

  /** Nothing is posted unless the issue was created, and then only after
      the creation. */
  lemma PostsFollowIssue(cfg: Config, event: Event, channelName: string, w: World, j: nat)
    requires j < |ProcessTrace(cfg, event, channelName, w)|
    requires ProcessTrace(cfg, event, channelName, w)[j].IsPost()
    ensures w.createdKey.Some?
    ensures 2 < j && ProcessTrace(cfg, event, channelName, w)[2].CreateIssue?
  {
    StageOfKind(ProcessTrace(cfg, event, channelName, w)[j]);
    LaterCallsNeedAuthor(cfg, event, channelName, w, j);
    ProcessTraceSplit(cfg, event, channelName, w);
    var before := Prelude(cfg, event, channelName, w);
    var tail := Tail(cfg, event, channelName, w);
    SplitAt(before, tail, 1, 7, 9, j);
    SplitAt(before, tail, 1, 7, 9, 2);
  }

  /** The thread reply is sent only after the announcement went through, right
      after it, into the original message's thread. */
  lemma ReplyFollowsAnnouncement(cfg: Config, event: Event, channelName: string, w: World, j: nat)
    requires j < |ProcessTrace(cfg, event, channelName, w)|
    requires ProcessTrace(cfg, event, channelName, w)[j].PostThreadReply?
    ensures w.channelPostOk && w.createdKey.Some? && 0 < j
    ensures var tr := ProcessTrace(cfg, event, channelName, w);
      var key := w.createdKey.value;
      var url := IssueUrl(cfg.jiraUrl, key);
      && tr[j] == PostThreadReply(channelName, event.ts, ThreadReplyText(url, key))
      && tr[j - 1] == PostChannel(cfg.notificationChannel,
                                  NotificationText(url, key, channelName, event.user, TextOf(event)))
  {
    PostsFollowIssue(cfg, event, channelName, w, j);
    StageOfKind(ProcessTrace(cfg, event, channelName, w)[j]);
    LaterCallsNeedAuthor(cfg, event, channelName, w, j);
    ProcessTraceSplit(cfg, event, channelName, w);
    var before := Prelude(cfg, event, channelName, w);
    var tail := Tail(cfg, event, channelName, w);
    SplitAt(before, tail, 1, 7, 9, j);
    SplitAt(before, tail, 1, 7, 9, j - 1);
  }

  /** Status steps happen only for a created issue and a configured initial
      status. */
  lemma StatusStepsNeedInitialStatus(cfg: Config, event: Event, channelName: string, w: World, i: nat)
    requires i < |ProcessTrace(cfg, event, channelName, w)|
    requires ProcessTrace(cfg, event, channelName, w)[i].IsStatusStep()
    ensures w.createdKey.Some? && TruthyStr(cfg.initialStatus)
  {
    StageOfKind(ProcessTrace(cfg, event, channelName, w)[i]);
    LaterCallsNeedAuthor(cfg, event, channelName, w, i);
    ProcessTraceSplit(cfg, event, channelName, w);
    SplitAt(Prelude(cfg, event, channelName, w), Tail(cfg, event, channelName, w), 1, 7, 9, i);
  }

  /** An issue that was created is always announced in the notification
      channel. */
  lemma CreatedIssueIsAnnounced(cfg: Config, event: Event, channelName: string, w: World)
    requires Analyze(w.classifierReply, w.parse, cfg).shouldCreate && UserResolved(w) && w.createdKey.Some?
    ensures var key := w.createdKey.value;
      PostChannel(cfg.notificationChannel,
        NotificationText(IssueUrl(cfg.jiraUrl, key), key, channelName, event.user, TextOf(event)))
        in ProcessTrace(cfg, event, channelName, w)
  {
    ProcessTraceSplit(cfg, event, channelName, w);
    var before := Prelude(cfg, event, channelName, w);
    var tail := Tail(cfg, event, channelName, w);
    SplitAt(before, tail, 1, 7, 9, |before|);
  }

  /** The calls `handle_message` makes for one event: the specification of
      `HandleMessage`. */
  function HandleTrace(cfg: Config, event: Event, w: World): seq<Effect> {
    if IsNoise(event) then
      []
    else if w.channelName.None? then
      [LookupChannel(event.channel)]
    else match Admit(event, w.channelName.value, cfg.monitoredChannels)
      case Admitted(name) => [LookupChannel(event.channel)] + ProcessTrace(cfg, event, name, w)
      case _ => [LookupChannel(event.channel)]
  }

  /** `handle_message`: drop noise before looking the channel up, then
      process the message only when its channel is monitored. A failed lookup
      raises out of the handler. */
  method HandleMessage(cfg: Config, event: Event, w: World) returns (effects: seq<Effect>)
    ensures effects == HandleTrace(cfg, event, w)
  {
    effects := [];
    if IsNoise(event) {
      return;
    }
    effects := [LookupChannel(event.channel)];
    if w.channelName.None? {
      return;
    }
    var admission := Admit(event, w.channelName.value, cfg.monitoredChannels);
    if !admission.Admitted? {
      return;
    }
    var processed := ProcessMessage(cfg, event, admission.name, w);
    effects := effects + processed;
  }

  /** Noise causes no call at all; any other event first has its channel
      looked up, and the whole run is staged. */
  lemma HandleTraceStaged(cfg: Config, event: Event, w: World)
    ensures var tr := HandleTrace(cfg, event, w);
      && Staged(tr)
      && (IsNoise(event) <==> tr == [])
      && (!IsNoise(event) ==> tr[0] == LookupChannel(event.channel))
  {
    if !IsNoise(event) && w.channelName.Some? && w.channelName.value in cfg.monitoredChannels {
      ProcessTraceStaged(cfg, event, w.channelName.value, w);
      StagedAppend([LookupChannel(event.channel)], ProcessTrace(cfg, event, w.channelName.value, w), 0, 1, 9);
    }
  }

  /** A message is classified exactly when it is not noise and its channel
      resolves to a monitored name; classification then follows the lookup. */
  lemma ClassifiedIffMonitored(cfg: Config, event: Event, w: World)
    ensures var tr := HandleTrace(cfg, event, w);
      (exists i :: 0 <= i < |tr| && tr[i].Classify?)
        <==> !IsNoise(event) && w.channelName.Some? && w.channelName.value in cfg.monitoredChannels
    ensures var tr := HandleTrace(cfg, event, w);
      |tr| >= 2 ==> tr[1] == Classify(TextOf(event))
  {
    var tr := HandleTrace(cfg, event, w);
    if !IsNoise(event) && w.channelName.Some? && w.channelName.value in cfg.monitoredChannels {
      ProcessTraceStaged(cfg, event, w.channelName.value, w);
      assert tr[1].Classify?;
    }
  }
}
