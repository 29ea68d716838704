/**
 * The seven renderers of the handler, as functions of the notification
 * record and of the library calls they make. Each yields the status it
 * chose and the message text, or the exception the JavaScript would throw.
 */
module Render {
  import opened Wrappers
  import opened JsText
  import opened JsValue
  import opened Sns
  import Uri

  /** The three severities (`fleepStatus`). */
  datatype Status = Good | Warning | Danger

  /** The decoration that opens a message of the given severity. */
  function Tag(s: Status): string {
    match s
    case Good => " ;) *[GOOD]*"
    case Warning => " :/ *[WARNING]*"
    case Danger => " :O *[DANGER]*"
  }


  /**
   * The library calls the renderers make: `JSON.parse` (None where it
   * throws), `JSON.stringify`, and the text of `new Date(t).getTime() / 1000`.
   */
  datatype Lib = Lib(
    parse: string -> Option<Value>,
    stringify: Value -> string,
    epochSeconds: string -> string)

  /** What a renderer produces: the chosen status and the message text. */
  datatype Rendered = Rendered(status: Status, text: string)

  /** `JSON.parse(text)`, throwing a SyntaxError on malformed text. */
  function Parse(lib: Lib, text: string): (r: Result<Value, JsError>)
    ensures r.Err? <==> lib.parse(text).None?
    ensures r.Err? ==> r.error == SyntaxError
    ensures r.Ok? ==> r.value == lib.parse(text).value
  {
    match lib.parse(text)
    case Some(v) => Ok(v)
    case None => Err(SyntaxError)
  }

  /** The first line every message starts with: `status + ' *' + title + '* \n'`. */
  function Header(status: Status, title: string): string {
    Tag(status) + " *" + title + "* \n"
  }

  /**
   * The severity is visible in the text: every message opens with its
   * status tag, and the tags differ in their third character, so two equal
   * message texts carry equal severities whatever their titles and bodies.
   */
  lemma HeaderShowsStatus(s1: Status, title1: string, rest1: string, s2: Status, title2: string, rest2: string)
    requires Header(s1, title1) + rest1 == Header(s2, title2) + rest2
    ensures s1 == s2
  {
    assert (Header(s1, title1) + rest1)[2] == Tag(s1)[2];
    assert (Header(s2, title2) + rest2)[2] == Tag(s2)[2];
  }

  /** The line every message but Elastic Beanstalk's ends with. */
  function TimestampLine(lib: Lib, r: Record): string {
    "\n *Timestamp:* " + lib.epochSeconds(r.timestamp)
  }

  /** The text an optional string concatenates as: itself, or `'undefined'`. */
  function OptText(o: Option<string>): string {
    match o
    case Some(s) => s
    case None => "undefined"
  }

  /** `EventSubscriptionArn.split(':')[3]`: the region field of the ARN. */
  function ArnRegion(arn: string): Option<string> {
    SplitField(arn, ':', 3)
  }

  /** The value read by `m.key` when it did not throw. */
  function Field(m: Value, key: string): Value {
    match Get(m, key)
    case Ok(v) => v
    case Err(_) => Undefined
  }

  /** A value whose string conversion does not throw. */
  predicate Printable(v: Value) {
    ToStr(v).Ok?
  }

  /** The status of a deployment or pipeline state: SUCCEEDED, FAILED, anything else. */
  function StateStatus(state: Value): (s: Status)
    ensures s == Good <==> state == Str("SUCCEEDED")
    ensures s == Danger <==> state == Str("FAILED")
    ensures s == Warning <==> state != Str("SUCCEEDED") && state != Str("FAILED")
  {
    if state == Str("SUCCEEDED") then Good
    else if state == Str("FAILED") then Danger
    else Warning
  }

  /** The status of an alarm state (`NewStateValue`): ALARM, OK, anything else. */
  function AlarmStatus(state: Value): (s: Status)
    ensures s == Danger <==> state == Str("ALARM")
    ensures s == Good <==> state == Str("OK")
    ensures s == Warning <==> state != Str("ALARM") && state != Str("OK")
  {
    if state == Str("ALARM") then Danger
    else if state == Str("OK") then Good
    else Warning
  }

  // ----- Elastic Beanstalk -----

  /** The texts whose presence marks an Elastic Beanstalk event as dangerous. */
  const DangerPhrases: seq<string> := [
    " to RED", " to Severe", " but with errors", "You do not have permission",
    "Failed to deploy application", "Failed to deploy configuration",
    "Your quota allows for 0 more running instance", "Unsuccessful command execution"]

  /** The texts whose presence marks an Elastic Beanstalk event as a warning. */
  const WarningPhrases: seq<string> := [
    " to YELLOW", " to Degraded", " to Info", "Removed instance ", "Adding instance ",
    " aborted operation.", "some instances may have deployed the new application version"]

  /** Some phrase of the list is found by `indexOf` in the message. */
  predicate Mentions(message: string, phrases: seq<string>) {
    exists i | 0 <= i < |phrases| :: IndexOf(message, phrases[i]) != -1
  }

  /**
   * The status the two phrase tests leave: the warning test runs last and so
   * prevails. GOOD when no phrase occurs, DANGER when a danger phrase and no
   * warning phrase occurs, WARNING whenever a warning phrase occurs.
   */
  function EbStatus(message: string): (s: Status)
    ensures s == Good <==> !ContainsAny(message, DangerPhrases) && !ContainsAny(message, WarningPhrases)
    ensures s == Danger <==> ContainsAny(message, DangerPhrases) && !ContainsAny(message, WarningPhrases)
    ensures s == Warning <==> ContainsAny(message, WarningPhrases)
  {
    MentionsIsContainsAny(message, DangerPhrases);
    MentionsIsContainsAny(message, WarningPhrases);
    if Mentions(message, WarningPhrases) then Warning
    else if Mentions(message, DangerPhrases) then Danger
    else Good
  }

  /** Some phrase of the list is a substring of the message. */
  predicate ContainsAny(message: string, phrases: seq<string>) {
    exists i | 0 <= i < |phrases| :: Contains(message, phrases[i])
  }

  lemma MentionsIsContainsAny(message: string, phrases: seq<string>)
    ensures Mentions(message, phrases) <==> ContainsAny(message, phrases)
  {
    if Mentions(message, phrases) {
      var i :| 0 <= i < |phrases| && IndexOf(message, phrases[i]) != -1;
      assert Contains(message, phrases[i]);
    }
    if ContainsAny(message, phrases) {
      var i :| 0 <= i < |phrases| && Contains(message, phrases[i]);
      assert IndexOf(message, phrases[i]) != -1;
    }
  }

  /** A message that both turns RED and turns YELLOW is only a warning. */
  lemma EbWarningOverridesDanger(message: string)
    requires Contains(message, " to RED") && Contains(message, " to YELLOW")
    ensures EbStatus(message) == Warning
  {
    assert Contains(message, WarningPhrases[0]);
  }

  /** The Elastic Beanstalk message once its status is known: the header, then the parsed message. */
  function ElasticBeanstalkWith(lib: Lib, r: Record, status: Status): (res: Result<Rendered, JsError>)
    ensures res.Err? && res.error == SyntaxError <==> lib.parse(r.message).None?
    ensures res.Ok? ==> (res.value.status == status &&
      Header(status, SubjectOr(r.subject, "AWS Elastic Beanstalk Notification")) <= res.value.text)
  {
    var header := Header(status, SubjectOr(r.subject, "AWS Elastic Beanstalk Notification"));
    var body :- Parse(lib, r.message);
    var bodyText :- ToStr(body);
    Ok(Rendered(status, header + bodyText))
  }

  /** `handleElasticBeanstalk`: the message with the status of the phrase tests, or the parser's SyntaxError. */
  function ElasticBeanstalk(lib: Lib, r: Record): (res: Result<Rendered, JsError>)
    ensures res.Err? && res.error == SyntaxError <==> lib.parse(r.message).None?
    ensures res.Ok? ==> res.value.status == EbStatus(r.message)
  {
    ElasticBeanstalkWith(lib, r, EbStatus(r.message))
  }

  // ----- CodeDeploy -----

  const CodeDeployTitle := "AWS CodeDeploy Notification"

  /**
   * The `try` block of `handleCodeDeploy`: SyntaxError on text that is not
   * JSON, otherwise the status the `status` field gives.
   */
  function CodeDeployTry(lib: Lib, r: Record): (res: Result<Rendered, JsError>)
    ensures lib.parse(r.message).None? ==> res == Err(SyntaxError)
    ensures lib.parse(r.message).Some? && res.Err? ==> res.error == TypeError
    ensures res.Ok? ==> res.value.status == StateStatus(Field(lib.parse(r.message).value, "status"))
  {
    var m :- Parse(lib, r.message);
    var state :- Get(m, "status");
    CodeDeployWith(lib, r, m, StateStatus(state))
  }

  /**
   * The CodeDeploy text once the message is parsed and its status known: it
   * throws a TypeError exactly when the message or one of its four fields
   * cannot be converted to text.
   */
  function CodeDeployWith(lib: Lib, r: Record, m: Value, status: Status): (res: Result<Rendered, JsError>)
    ensures res.Ok? <==> (Printable(m) && Printable(Field(m, "deploymentGroupName")) &&
      Printable(Field(m, "applicationName")) && Printable(Field(m, "region")) && Printable(Field(m, "deploymentId")))
    ensures res.Err? ==> res.error == TypeError
    ensures res.Ok? ==> res.value.status == status
  {
    var body :- ToStr(m);
    // `m` is neither null nor undefined from here on: its further reads cannot throw
    var groupText :- ToStr(Field(m, "deploymentGroupName"));
    var appText :- ToStr(Field(m, "applicationName"));
    var regionText :- ToStr(Field(m, "region"));
    var idText :- ToStr(Field(m, "deploymentId"));
    Ok(Rendered(status,
      Header(status, CodeDeployTitle) + SubjectText(r.subject)
      + "\n" + body
      + "\n *Deployment Group:* " + groupText
      + "\n *Application:* " + appText
      + "\n *Status Link:* " + "https://console.aws.amazon.com/codedeploy/home?region=" + regionText
      + "#/deployments/" + idText
      + TimestampLine(lib, r)))
  }

  /** The `catch` block of `handleCodeDeploy`: GOOD, the raw subject and message, the time. */
  function CodeDeployFallback(lib: Lib, r: Record): (x: Rendered)
    ensures x.status == Good
    ensures Header(Good, CodeDeployTitle) <= x.text
  {
    Rendered(Good, Header(Good, CodeDeployTitle) + (SubjectText(r.subject) + "\n" + r.message + TimestampLine(lib, r)))
  }

  /** `handleCodeDeploy`: any exception of the `try` block is caught. */
  function CodeDeploy(lib: Lib, r: Record): (res: Result<Rendered, JsError>)
    ensures res.Ok?
  {
    match CodeDeployTry(lib, r)
    case Ok(x) => Ok(x)
    case Err(_) => Ok(CodeDeployFallback(lib, r))
  }

  /** The parsed CodeDeploy message evaluates without throwing. */
  predicate CodeDeployEvaluates(m: Value) {
    m != Undefined && m != Null && Printable(m) &&
    Printable(Field(m, "deploymentGroupName")) && Printable(Field(m, "applicationName")) &&
    Printable(Field(m, "region")) && Printable(Field(m, "deploymentId"))
  }

  // ----- CodePipeline -----

  const CodePipelineTitle := "AWS CodePipeline Notification"
  const PipelineExecution := "CodePipeline Pipeline Execution State Change"
  const StageExecution := "CodePipeline Stage Execution State Change"
  const ActionExecution := "CodePipeline Action Execution State Change"

  /**
   * The change label and the status the `try` block of `handleCodePipeline`
   * computes before composing the text.
   */
  function PipelineChange(m: Value): (res: Result<(string, Status), JsError>)
    ensures res.Err? ==> res.error == TypeError
    ensures res.Ok? ==> res.value.1 == StateStatus(Field(Field(m, "detail"), "state"))
  {
    var detailType :- Get(m, "detail-type");
    var change :-
      if detailType == Str(PipelineExecution) then Ok("")
      else if detailType == Str(StageExecution) then
        (var stage :- Get(Field(m, "detail"), "stage");
         var stageText :- ToStr(stage);
         Ok("STAGE " + stageText))
      else if detailType == Str(ActionExecution) then Ok("ACTION")
      else Ok("");
    var state :- Get(Field(m, "detail"), "state");
    Ok((change, StateStatus(state)))
  }

  /** The CodePipeline text once the label and status are known; it can throw only a TypeError. */
  function CodePipelineWith(lib: Lib, r: Record, m: Value, change: string, status: Status): (res: Result<Rendered, JsError>)
    ensures res.Err? ==> res.error == TypeError
    ensures res.Ok? ==> res.value.status == status
  {
    var body :- ToStr(m);
    var detail :- Get(m, "detail");
    var state :- Get(detail, "state");
    var stateText :- ToStr(state);
    var pipelineText :- ToStr(Field(detail, "pipeline"));
    var regionText :- ToStr(Field(m, "region"));
    Ok(Rendered(status,
      Header(status, CodePipelineTitle)
      + "\n" + body
      + "\n *" + stateText + ":* CodePipeline " + change
      + "\n *Pipeline:* " + pipelineText
      + "\n *Region:* " + regionText
      + "\n *Status Link:* " + "https://console.aws.amazon.com/codepipeline/home?region=" + regionText
      + "#/view/" + pipelineText
      + TimestampLine(lib, r)))
  }

  /**
   * The `try` block of `handleCodePipeline`: SyntaxError on text that is
   * not JSON, otherwise the status `detail.state` gives.
   */
  function CodePipelineTry(lib: Lib, r: Record): (res: Result<Rendered, JsError>)
    ensures lib.parse(r.message).None? ==> res == Err(SyntaxError)
    ensures lib.parse(r.message).Some? && res.Err? ==> res.error == TypeError
    ensures res.Ok? ==> res.value.status == StateStatus(Field(Field(lib.parse(r.message).value, "detail"), "state"))
  {
    var m :- Parse(lib, r.message);
    var change :- PipelineChange(m);
    CodePipelineWith(lib, r, m, change.0, change.1)
  }

  /**
   * The `catch` block of `handleCodePipeline`. `message` is now the raw
   * string, whose `detail` is undefined, so reading `detail.state` throws
   * before any text is built; the label `change` is never read.
   */
  function CodePipelineCatch(lib: Lib, r: Record, change: string): (res: Result<Rendered, JsError>)
    ensures res == Err(TypeError)
  {
    var detail := Field(Str(r.message), "detail");
    match Get(detail, "state")
    case Err(e) => Err(e)
    case Ok(state) =>
      match ToStr(state)
      case Err(e) => Err(e)
      case Ok(stateText) =>
        Ok(Rendered(Good,
          Header(Good, CodePipelineTitle) + "\n" + r.message
          + "\n *" + stateText + ":* CodePipeline " + change
          + TimestampLine(lib, r)))
  }

  /** `handleCodePipeline`: an exception in the `try` block leads to one in the `catch` block. */
  function CodePipeline(lib: Lib, r: Record): (res: Result<Rendered, JsError>)
    ensures res.Err? <==> CodePipelineTry(lib, r).Err?
    ensures res.Err? ==> res.error == TypeError
  {
    match CodePipelineTry(lib, r)
    case Ok(x) => Ok(x)
    case Err(_) => CodePipelineCatch(lib, r, "")
  }

  // ----- ElastiCache -----

  const ElastiCacheTitle := "AWS ElastiCache Notification"

  /**
   * The ElastiCache text once the first enumerated (key, value) pair of the
   * message is known: the event is the second `':'` field of the key.
   */
  function ElastiCacheWith(lib: Lib, r: Record, m: Value, first: Option<(string, Value)>): Result<Rendered, JsError> {
    var region := OptText(ArnRegion(r.subscriptionArn));
    var body :- ToStr(m);
    var eventName :- if first.Some? then Ok(first.value.0) else Err(TypeError);
    var event := OptText(SplitField(eventName, ':', 1));
    var nodeText :- ToStr(first.value.1);
    Ok(Rendered(Good,
      Header(Good, ElastiCacheTitle)
      + "\n" + body
      + "\n *Event:* " + event
      + "\n *Node:* " + nodeText
      + "\n *Link to cache node:* " + "https://console.aws.amazon.com/elasticache/home?region=" + region
      + "#cache-nodes:id=" + nodeText + ";nodes"
      + TimestampLine(lib, r)))
  }

  /** The first pair `for...in` visits, if any. */
  function FirstOf(es: seq<(string, Value)>): Option<(string, Value)> {
    if es == [] then None else Some(es[0])
  }

  /** `handleElasticache`: always GOOD; SyntaxError on text that is not JSON, otherwise only TypeErrors. */
  function ElastiCache(lib: Lib, r: Record): (res: Result<Rendered, JsError>)
    ensures lib.parse(r.message).None? ==> res == Err(SyntaxError)
    ensures lib.parse(r.message).Some? && res.Err? ==> res.error == TypeError
    ensures res.Ok? ==> res.value.status == Good
  {
    var m :- Parse(lib, r.message);
    ElastiCacheWith(lib, r, m, FirstOf(ForIn(m)))
  }

  // ----- CloudWatch -----

  const CloudWatchTitle := "AWS CloudWatch Notification"

  /** The trigger line of an alarm: statistic, metric, comparison, threshold and periods. */
  function TriggerText(trigger: Value, metricName: Value): (res: Result<string, JsError>)
    ensures res.Ok? <==> (Printable(Field(trigger, "Statistic")) && Printable(metricName) &&
      Printable(Field(trigger, "ComparisonOperator")) && Printable(Field(trigger, "Threshold")) &&
      Printable(Field(trigger, "EvaluationPeriods")) && Printable(Field(trigger, "Period")))
    ensures res.Err? ==> res.error == TypeError
  {
    var statisticText :- ToStr(Field(trigger, "Statistic"));
    var metricText :- ToStr(metricName);
    var operatorText :- ToStr(Field(trigger, "ComparisonOperator"));
    var thresholdText :- ToStr(Field(trigger, "Threshold"));
    var periodsText :- ToStr(Field(trigger, "EvaluationPeriods"));
    var periodText :- ToStr(Field(trigger, "Period"));
    Ok(statisticText + " " + metricText + " " + operatorText + " "
      + thresholdText + " for " + periodsText + " period(s) of " + periodText + " seconds.")
  }

  /** The CloudWatch text once the alarm, its name, its trigger, its metric and its status are known. */
  function CloudWatchWith(lib: Lib, r: Record, m: Value, alarmName: Value, trigger: Value, metricName: Value,
                          status: Status): (res: Result<Rendered, JsError>)
    ensures res.Ok? <==> (Printable(m) && Printable(alarmName) && Printable(Field(m, "NewStateReason")) &&
      TriggerText(trigger, metricName).Ok? &&
      Printable(Field(m, "OldStateValue")) && Printable(Field(m, "NewStateValue")))
    ensures res.Err? ==> res.error == TypeError
    ensures res.Ok? ==> res.value == Rendered(status, CloudWatchText(lib, r, status, ToStr(m).value, ToStr(alarmName).value,
      ToStr(Field(m, "NewStateReason")).value, TriggerText(trigger, metricName).value,
      ToStr(Field(m, "OldStateValue")).value, ToStr(Field(m, "NewStateValue")).value))
  {
    var oldState := Field(m, "OldStateValue");
    var newState := Field(m, "NewStateValue");
    var reason := Field(m, "NewStateReason");
    var body :- ToStr(m);
    var alarmText :- ToStr(alarmName);
    var reasonText :- ToStr(reason);
    var triggerText :- TriggerText(trigger, metricName);
    var oldText :- ToStr(oldState);
    var newText :- ToStr(newState);
    Ok(Rendered(status, CloudWatchText(lib, r, status, body, alarmText, reasonText, triggerText, oldText, newText)))
  }

  /** The CloudWatch layout, filled with the converted values. */
  function CloudWatchText(lib: Lib, r: Record, status: Status, body: string, alarmText: string, reasonText: string,
                          triggerText: string, oldText: string, newText: string): string
  {
    Header(status, CloudWatchTitle)
    + "\n" + body
    + "\n *Alarm Name:* " + alarmText
    + "\n *Alarm Description:* " + reasonText
    + "\n *Trigger:* " + triggerText
    + "\n *Old State:* " + oldText
    + "\n *Current State:* " + newText
    + "\n *Link to Alarm:* " + "https://console.aws.amazon.com/cloudwatch/home?region=" + OptText(ArnRegion(r.subscriptionArn))
    + "#alarm:alarmFilter=ANY;name=" + Uri.EncodeURIComponent(alarmText)
    + TimestampLine(lib, r)
  }

  /** `handleCloudWatch`: SyntaxError on text that is not JSON, otherwise the status `NewStateValue` gives. */
  function CloudWatch(lib: Lib, r: Record): (res: Result<Rendered, JsError>)
    ensures lib.parse(r.message).None? ==> res == Err(SyntaxError)
    ensures lib.parse(r.message).Some? && res.Err? ==> res.error == TypeError
    ensures res.Ok? ==> res.value.status == AlarmStatus(Field(lib.parse(r.message).value, "NewStateValue"))
  {
    var m :- Parse(lib, r.message);
    var alarmName :- Get(m, "AlarmName");
    // `m` is neither null nor undefined from here on
    var trigger := Field(m, "Trigger");
    var metricName :- Get(trigger, "MetricName");
    CloudWatchWith(lib, r, m, alarmName, trigger, metricName, AlarmStatus(Field(m, "NewStateValue")))
  }

  // ----- AutoScaling -----

  const AutoScalingTitle := "AWS AutoScaling Notification"

  /** `handleAutoScaling`: always GOOD; SyntaxError on text that is not JSON, otherwise only TypeErrors. */
  function AutoScaling(lib: Lib, r: Record): (res: Result<Rendered, JsError>)
    ensures lib.parse(r.message).None? ==> res == Err(SyntaxError)
    ensures lib.parse(r.message).Some? && res.Err? ==> res.error == TypeError
    ensures res.Ok? ==> res.value.status == Good
  {
    var m :- Parse(lib, r.message);
    var body :- ToStr(m);
    var description :- Get(m, "Description");
    var descriptionText :- ToStr(description);
    // `m` is neither null nor undefined from here on
    var eventText :- ToStr(Field(m, "Event"));
    var causeText :- ToStr(Field(m, "Cause"));
    Ok(Rendered(Good,
      Header(Good, AutoScalingTitle) + SubjectText(r.subject)
      + "\n" + body
      + "\n *Description:* " + descriptionText
      + "\n *Event:* " + eventText
      + "\n *Cause:* " + causeText
      + TimestampLine(lib, r)))
  }

  // ----- catch-all -----

  /** How the catch-all shows one value: objects (and null) as JSON, the rest as they convert. */
  function Shown(stringify: Value -> string, v: Value): string {
    if IsObjectType(v) then stringify(v) else PrimitiveText(v)
  }

  /** The description line of one enumerated pair. */
  function Line(stringify: Value -> string, e: (string, Value)): string {
    "\n" + e.0 + ": " + Shown(stringify, e.1)
  }

  /** The catch-all description: the lines of the pairs, in enumeration order. */
  function Description(stringify: Value -> string, es: seq<(string, Value)>): string {
    if es == [] then "" else Description(stringify, es[..|es| - 1]) + Line(stringify, es[|es| - 1])
  }

  /** The catch-all text once the status and description are known. */
  function CatchAllWith(lib: Lib, r: Record, m: Value, status: Status, description: string): Result<Rendered, JsError> {
    var body :- ToStr(m);
    Ok(Rendered(status,
      Header(status, SubjectText(r.subject))
      + "\n" + body
      + "\n *Description:* " + description
      + TimestampLine(lib, r)))
  }

  /** `handleCatchAll`: SyntaxError on text that is not JSON, otherwise the status `NewStateValue` gives. */
  function CatchAll(lib: Lib, r: Record): (res: Result<Rendered, JsError>)
    ensures lib.parse(r.message).None? ==> res == Err(SyntaxError)
    ensures lib.parse(r.message).Some? && res.Err? ==> res.error == TypeError
    ensures res.Ok? ==> res.value.status == AlarmStatus(Field(lib.parse(r.message).value, "NewStateValue"))
  {
    var m :- Parse(lib, r.message);
    var newState :- Get(m, "NewStateValue");
    CatchAllWith(lib, r, m, AlarmStatus(newState), Description(lib.stringify, ForIn(m)))
  }
}
