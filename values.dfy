/** Python-side values the agent works with: optional values, and the JSON
    documents `json.loads` makes of the classifier's reply. */
module Values {

  datatype Option<+T> = None | Some(value: T)

  /** A decoded JSON document. JSON integers and floats are both `JNum`. */
  datatype Json =
    | JNull
    | JBool(b: bool)
    | JNum(n: real)
    | JStr(s: string)
    | JArray(items: seq<Json>)
    | JObject(fields: map<string, Json>)

  /** Python's `bool(x)` for a decoded JSON value: the falsy values are
      exactly `None`, `False`, zero, the empty string, the empty list and the
      empty dict. */
  predicate Truthy(j: Json): (t: bool)
    ensures !t <==> j == JNull || j == JBool(false) || j == JNum(0.0) || j == JStr("")
                    || j == JArray([]) || j == JObject(map[])
  {
    match j
    case JNull => false
    case JBool(b) => b
    case JNum(n) => n != 0.0
    case JStr(s) => s != ""
    case JArray(items) => |items| > 0
    case JObject(fields) => |fields| > 0
  }

  /** Python's `bool(x)` for a value that is a string or `None`. */
  predicate TruthyStr(s: Option<string>): (t: bool)
    ensures t <==> Truthy(if s.Some? then JStr(s.value) else JNull)
  {
    s.Some? && s.value != ""
  }

  /** `d.get(key, default)` on a decoded JSON object. */
  function Get(fields: map<string, Json>, key: string, default: Json): Json {
    if key in fields then fields[key] else default
  }

  /** `d.get(key, default)` for a value that is a string or absent. */
  function GetOr(s: Option<string>, default: string): string {
    if s.Some? then s.value else default
  }

  /** How an f-string renders a value that is a string or `None`. */
  function Render(s: Option<string>): (r: string)
    ensures s.Some? ==> r == s.value
    ensures s.None? ==> r == "None"
  {
    if s.Some? then s.value else "None"
  }
}

/** The parts of the agent's YAML configuration the core reads. The agent
    sets its configuration once, when it is constructed, and never changes
    it, so it is passed around as a value. */
module Settings {
  import opened Values

  datatype Config = Config(
    monitoredChannels: seq<string>,  // slack.monitored_channels
    notificationChannel: string,     // slack.notification_channel
    confidenceThreshold: real,       // ai.confidence_threshold
    jiraUrl: string,                 // jira.url
    projectKey: string,              // jira.project_key
    defaultIssueType: string,        // jira.default_issue_type
    defaultPriority: string,         // jira.default_priority
    initialStatus: Option<string>)   // jira.initial_status (optional)
}
