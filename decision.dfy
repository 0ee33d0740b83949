/** The verdict `_analyze_message` reaches from the classifier's reply: create
    a ticket only when the reply parses to an object whose
    `should_create_ticket` is truthy and whose `confidence` is at least the
    configured threshold, and fill a missing issue type or priority from the
    configured defaults. Every failure on the way means "no ticket". */
module Decision {
  import opened Values
  import opened Settings
  import opened ResponseCleaning

  /** The ticket description `_analyze_message` hands on. Values are passed
      through exactly as the classifier returned them. */
  datatype TicketInfo = TicketInfo(summary: Json, description: Json, issueType: Json, priority: Json)

  /** The pair `(should_create, ticket_info)`. */
  datatype Analysis = Analysis(shouldCreate: bool, ticketInfo: Option<TicketInfo>)

  const NoTicket := Analysis(false, None)

  /** The number Python compares with the threshold, or `None` where the
      comparison `x >= threshold` raises `TypeError`. `bool` is an `int`
      in Python, so `True` compares as 1. */
  function NumericValue(j: Json): (v: Option<real>)
    ensures v.Some? <==> j.JNum? || j.JBool?
    ensures j.JNum? ==> v == Some(j.n)
    ensures j == JBool(true) ==> v == Some(1.0)
    ensures j == JBool(false) ==> v == Some(0.0)
  {
    match j
    case JNum(n) => Some(n)
    case JBool(b) => Some(if b then 1.0 else 0.0)
    case _ => None
  }

  /** `result.get('should_create_ticket', False) and
      result.get('confidence', 0) >= threshold`, with `None` standing for the
      `TypeError` of a non-numeric confidence. The comparison is evaluated only
      when the flag is truthy. */
  function Verdict(fields: map<string, Json>, threshold: real): (v: Option<bool>)
    ensures "should_create_ticket" !in fields ==> v == Some(false)
    ensures v.None? <==>
      Truthy(Get(fields, "should_create_ticket", JBool(false)))
      && NumericValue(Get(fields, "confidence", JNum(0.0))).None?
    ensures v == Some(true) <==>
      && Truthy(Get(fields, "should_create_ticket", JBool(false)))
      && NumericValue(Get(fields, "confidence", JNum(0.0))).Some?
      && NumericValue(Get(fields, "confidence", JNum(0.0))).value >= threshold
  {
    var flag := Get(fields, "should_create_ticket", JBool(false));
    if !Truthy(flag) then Some(false)
    else match NumericValue(Get(fields, "confidence", JNum(0.0)))
      case None => None
      case Some(c) => Some(c >= threshold)
  }

  /** The ticket information built from a parsed reply. */
  function InfoOf(fields: map<string, Json>, cfg: Config): (info: TicketInfo)
    ensures "summary" in fields ==> info.summary == fields["summary"]
    ensures "summary" !in fields ==> info.summary == JNull
    ensures "description" in fields ==> info.description == fields["description"]
    ensures "description" !in fields ==> info.description == JNull
    ensures "issue_type" in fields ==> info.issueType == fields["issue_type"]
    ensures "issue_type" !in fields ==> info.issueType == JStr(cfg.defaultIssueType)
    ensures "priority" in fields ==> info.priority == fields["priority"]
    ensures "priority" !in fields ==> info.priority == JStr(cfg.defaultPriority)
  {
    TicketInfo(
      Get(fields, "summary", JNull),
      Get(fields, "description", JNull),
      Get(fields, "issue_type", JStr(cfg.defaultIssueType)),
      Get(fields, "priority", JStr(cfg.defaultPriority)))
  }

  /** The parsed reply as a JSON object, or `None` when the classifier call
      failed, the parser rejected the cleaned text, or the document is not an
      object (so `result.get` raises). */
  function ParsedFields(reply: Option<string>, parse: string -> Option<Json>): (r: Option<map<string, Json>>)
    ensures r.Some? <==> reply.Some? && parse(CleanResponse(reply.value)).Some?
                         && parse(CleanResponse(reply.value)).value.JObject?
    ensures r.Some? ==> parse(CleanResponse(reply.value)) == Some(JObject(r.value))
  {
    if reply.None? then None
    else match parse(CleanResponse(reply.value))
      case Some(JObject(fields)) => Some(fields)
      case _ => None
  }

  /** `_analyze_message`: `reply` is the classifier's text (`None` when the
      call raised), `parse` is `json.loads` (`None` when it raises). */
  function Analyze(reply: Option<string>, parse: string -> Option<Json>, cfg: Config): (a: Analysis)
    ensures a.ticketInfo.Some? <==> a.shouldCreate
    ensures a.shouldCreate ==> ParsedFields(reply, parse).Some?
    ensures a.shouldCreate ==> a.ticketInfo.value == InfoOf(ParsedFields(reply, parse).value, cfg)
  {
    match ParsedFields(reply, parse)
    case None => NoTicket
    case Some(fields) =>
      if Verdict(fields, cfg.confidenceThreshold) == Some(true) then
        Analysis(true, Some(InfoOf(fields, cfg)))
      else
        NoTicket
  }

  /** A ticket is created exactly when the reply parses to an object with a
      truthy flag and a numeric confidence at least the threshold. */
  lemma AnalyzeCreatesIff(reply: Option<string>, parse: string -> Option<Json>, cfg: Config)
    ensures Analyze(reply, parse, cfg).shouldCreate <==>
      && ParsedFields(reply, parse).Some?
      && var fields := ParsedFields(reply, parse).value;
      && Truthy(Get(fields, "should_create_ticket", JBool(false)))
      && NumericValue(Get(fields, "confidence", JNum(0.0))).Some?
      && NumericValue(Get(fields, "confidence", JNum(0.0))).value >= cfg.confidenceThreshold
  {
  }

  /** The comparison is inclusive: a confidence equal to the threshold, with a
      true flag, creates a ticket. */
  lemma TieCreates(reply: string, parse: string -> Option<Json>, cfg: Config, fields: map<string, Json>)
    requires parse(CleanResponse(reply)) == Some(JObject(fields))
    requires Get(fields, "should_create_ticket", JBool(false)) == JBool(true)
    requires Get(fields, "confidence", JNum(0.0)) == JNum(cfg.confidenceThreshold)
    ensures Analyze(Some(reply), parse, cfg).shouldCreate
  {
  }

  /** A reply without `should_create_ticket` never creates a ticket. */
  lemma MissingFlagSkips(reply: string, parse: string -> Option<Json>, cfg: Config, fields: map<string, Json>)
    requires parse(CleanResponse(reply)) == Some(JObject(fields))
    requires "should_create_ticket" !in fields
    ensures Analyze(Some(reply), parse, cfg) == NoTicket
  {
  }

  /** A missing confidence counts as 0. */
  lemma MissingConfidenceIsZero(reply: string, parse: string -> Option<Json>, cfg: Config, fields: map<string, Json>)
    requires parse(CleanResponse(reply)) == Some(JObject(fields))
    requires Truthy(Get(fields, "should_create_ticket", JBool(false)))
    requires "confidence" !in fields
    ensures Analyze(Some(reply), parse, cfg).shouldCreate <==> 0.0 >= cfg.confidenceThreshold
  {
  }

  /** A failed classifier call, a parse error, a document that is not an
      object or a non-numeric confidence under a truthy flag all give
      `(False, None)`. */
  lemma FailureMeansNoTicket(reply: Option<string>, parse: string -> Option<Json>, cfg: Config)
    requires
      || reply.None?
      || parse(CleanResponse(reply.value)).None?
      || !parse(CleanResponse(reply.value)).value.JObject?
      || (var fields := parse(CleanResponse(reply.value)).value.fields;
          Truthy(Get(fields, "should_create_ticket", JBool(false)))
          && NumericValue(Get(fields, "confidence", JNum(0.0))).None?)
    ensures Analyze(reply, parse, cfg) == NoTicket
  {
  }

  /** Lowering the threshold never turns a "create" into a "skip". */
  lemma ThresholdMonotone(reply: Option<string>, parse: string -> Option<Json>, cfg: Config, lower: real)
    requires Analyze(reply, parse, cfg).shouldCreate
    requires lower <= cfg.confidenceThreshold
    ensures Analyze(reply, parse, cfg.(confidenceThreshold := lower)).shouldCreate
  {
  }

  /** The classifier's flag is read with Python truthiness: a non-empty string,
      even `"false"`, counts as true. */
  lemma StringFlagIsTruthy(reply: string, parse: string -> Option<Json>, cfg: Config, fields: map<string, Json>)
    requires parse(CleanResponse(reply)) == Some(JObject(fields))
    requires Get(fields, "should_create_ticket", JBool(false)) == JStr("false")
    requires NumericValue(Get(fields, "confidence", JNum(0.0))) == Some(1.0)
    requires cfg.confidenceThreshold <= 1.0
    ensures Analyze(Some(reply), parse, cfg).shouldCreate
  {
  }
}
