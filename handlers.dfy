/**
 * The handlers in the step-by-step form they are written in: the status
 * and the change label are reassigned as the tests run, the ElastiCache
 * handler stops its `for...in` loop at the first key, and the catch-all
 * accumulates its description key by key. Each method is the stepwise form
 * of the `Render` or `Notify` function it is proved equal to, not a second
 * model of the handler: the properties are proved once, about the function.
 */
module Handlers {
  import opened Wrappers
  import opened JsText
  import opened JsValue
  import opened Sns
  import opened Config
  import opened Classifier
  import Render
  import RenderProps
  import Notify

  /** The fifteen `indexOf` tests and two `if`s of `handleElasticBeanstalk`. */
  method ElasticBeanstalkStatus(message: string) returns (status: Render.Status)
    ensures status == Render.EbStatus(message)
  {
    var stateRed := IndexOf(message, " to RED");
    var stateSevere := IndexOf(message, " to Severe");
    var butWithErrors := IndexOf(message, " but with errors");
    var noPermission := IndexOf(message, "You do not have permission");
    var failedDeploy := IndexOf(message, "Failed to deploy application");
    var failedConfig := IndexOf(message, "Failed to deploy configuration");
    var failedQuota := IndexOf(message, "Your quota allows for 0 more running instance");
    var unsuccessfulCommand := IndexOf(message, "Unsuccessful command execution");

    var stateYellow := IndexOf(message, " to YELLOW");
    var stateDegraded := IndexOf(message, " to Degraded");
    var stateInfo := IndexOf(message, " to Info");
    var removedInstance := IndexOf(message, "Removed instance ");
    var addingInstance := IndexOf(message, "Adding instance ");
    var abortedOperation := IndexOf(message, " aborted operation.");
    var abortedDeployment := IndexOf(message, "some instances may have deployed the new application version");

    status := Render.Good;
    if stateRed != -1 || stateSevere != -1 || butWithErrors != -1 || noPermission != -1 || failedDeploy != -1
      || failedConfig != -1 || failedQuota != -1 || unsuccessfulCommand != -1
    {
      status := Render.Danger;
    }
    if stateYellow != -1 || stateDegraded != -1 || stateInfo != -1 || removedInstance != -1 || addingInstance != -1
      || abortedOperation != -1 || abortedDeployment != -1
    {
      status := Render.Warning;
    }
    MentionsUnrolled(message);
  }

  /** The phrase lists tested one phrase at a time. */
  lemma MentionsUnrolled(message: string)
    ensures Render.Mentions(message, Render.DangerPhrases) <==>
      IndexOf(message, " to RED") != -1 || IndexOf(message, " to Severe") != -1 ||
      IndexOf(message, " but with errors") != -1 || IndexOf(message, "You do not have permission") != -1 ||
      IndexOf(message, "Failed to deploy application") != -1 || IndexOf(message, "Failed to deploy configuration") != -1 ||
      IndexOf(message, "Your quota allows for 0 more running instance") != -1 ||
      IndexOf(message, "Unsuccessful command execution") != -1
    ensures Render.Mentions(message, Render.WarningPhrases) <==>
      IndexOf(message, " to YELLOW") != -1 || IndexOf(message, " to Degraded") != -1 ||
      IndexOf(message, " to Info") != -1 || IndexOf(message, "Removed instance ") != -1 ||
      IndexOf(message, "Adding instance ") != -1 || IndexOf(message, " aborted operation.") != -1 ||
      IndexOf(message, "some instances may have deployed the new application version") != -1
  {
    var d, w := Render.DangerPhrases, Render.WarningPhrases;
    assert d[0] == " to RED" && d[1] == " to Severe" && d[2] == " but with errors";
    assert d[3] == "You do not have permission" && d[4] == "Failed to deploy application";
    assert d[5] == "Failed to deploy configuration" && d[6] == "Your quota allows for 0 more running instance";
    assert d[7] == "Unsuccessful command execution" && |d| == 8;
    assert w[0] == " to YELLOW" && w[1] == " to Degraded" && w[2] == " to Info";
    assert w[3] == "Removed instance " && w[4] == "Adding instance " && w[5] == " aborted operation.";
    assert w[6] == "some instances may have deployed the new application version" && |w| == 7;
  }

  /** `status` starts WARNING and is reassigned for SUCCEEDED and FAILED. */
  method StateStatusOf(state: Value) returns (status: Render.Status)
    ensures status == Render.StateStatus(state)
  {
    status := Render.Warning;
    if state == Str("SUCCEEDED") {
      status := Render.Good;
    } else if state == Str("FAILED") {
      status := Render.Danger;
    }
  }

  /** `status` starts WARNING and is reassigned for ALARM and OK. */
  method AlarmStatusOf(state: Value) returns (status: Render.Status)
    ensures status == Render.AlarmStatus(state)
  {
    status := Render.Warning;
    if state == Str("ALARM") {
      status := Render.Danger;
    } else if state == Str("OK") {
      status := Render.Good;
    }
  }

  /** `handleElasticBeanstalk`. */
  method HandleElasticBeanstalk(lib: Render.Lib, r: Record) returns (res: Result<Render.Rendered, JsError>)
    ensures res == Render.ElasticBeanstalk(lib, r)
  {
    var status := ElasticBeanstalkStatus(r.message);
    res := Render.ElasticBeanstalkWith(lib, r, status);
  }

  /** The `try` block of `handleCodeDeploy`. */
  method CodeDeployAttempt(lib: Render.Lib, r: Record) returns (res: Result<Render.Rendered, JsError>)
    ensures res == Render.CodeDeployTry(lib, r)
  {
    var message :- Render.Parse(lib, r.message);
    var state :- Get(message, "status");
    var status := StateStatusOf(state);
    res := Render.CodeDeployWith(lib, r, message, status);
  }

  /** `handleCodeDeploy`: on an exception the status is reset to GOOD and the raw message shown. */
  method HandleCodeDeploy(lib: Render.Lib, r: Record) returns (res: Result<Render.Rendered, JsError>)
    ensures res == Render.CodeDeploy(lib, r)
    ensures res.Ok?
  {
    var attempt := CodeDeployAttempt(lib, r);
    if attempt.Ok? {
      res := attempt;
    } else {
      res := Ok(Render.CodeDeployFallback(lib, r));
    }
  }

  /**
   * The `try` block of `handleCodePipeline` up to the text: `changeType`
   * starts empty and is reassigned by `detail-type`, then `status` by
   * `detail.state`.
   */
  method CodePipelineChange(m: Value) returns (res: Result<(string, Render.Status), JsError>)
    ensures res == Render.PipelineChange(m)
  {
    var detailType :- Get(m, "detail-type");
    var changeType := "";
    if detailType == Str(Render.PipelineExecution) {
      changeType := "";
    } else if detailType == Str(Render.StageExecution) {
      var stage :- Get(Render.Field(m, "detail"), "stage");
      var stageText :- ToStr(stage);
      changeType := "STAGE " + stageText;
    } else if detailType == Str(Render.ActionExecution) {
      changeType := "ACTION";
    }
    var state :- Get(Render.Field(m, "detail"), "state");
    var status := StateStatusOf(state);
    res := Ok((changeType, status));
  }

  /** The `try` block of `handleCodePipeline`. */
  method CodePipelineAttempt(lib: Render.Lib, r: Record) returns (res: Result<Render.Rendered, JsError>)
    ensures res == Render.CodePipelineTry(lib, r)
  {
    var message :- Render.Parse(lib, r.message);
    var change :- CodePipelineChange(message);
    res := Render.CodePipelineWith(lib, r, message, change.0, change.1);
  }

  /** `handleCodePipeline`: the `catch` block rethrows, as it reads `detail.state` of a string. */
  method HandleCodePipeline(lib: Render.Lib, r: Record) returns (res: Result<Render.Rendered, JsError>)
    ensures res == Render.CodePipeline(lib, r)
  {
    var attempt := CodePipelineAttempt(lib, r);
    if attempt.Ok? {
      res := attempt;
    } else {
      res := Render.CodePipelineCatch(lib, r, "");
    }
  }

  /** The `for...in` loop of `handleElasticache`: it takes the first pair and breaks. */
  method FirstEntry(entries: seq<(string, Value)>) returns (first: Option<(string, Value)>)
    ensures first.None? <==> entries == []
    ensures first.Some? ==> first.value == entries[0]
  {
    first := None;
    for i := 0 to |entries|
      invariant i == 0 && first == None
    {
      first := Some(entries[i]);
      break;
    }
  }

  /** `handleElasticache`. */
  method HandleElastiCache(lib: Render.Lib, r: Record) returns (res: Result<Render.Rendered, JsError>)
    ensures res == Render.ElastiCache(lib, r)
  {
    var message :- Render.Parse(lib, r.message);
    var first := FirstEntry(ForIn(message));
    res := Render.ElastiCacheWith(lib, r, message, first);
  }

  /** `handleCloudWatch`. */
  method HandleCloudWatch(lib: Render.Lib, r: Record) returns (res: Result<Render.Rendered, JsError>)
    ensures res == Render.CloudWatch(lib, r)
  {
    var message :- Render.Parse(lib, r.message);
    var alarmName :- Get(message, "AlarmName");
    var trigger := Render.Field(message, "Trigger");
    var metricName :- Get(trigger, "MetricName");
    var status := AlarmStatusOf(Render.Field(message, "NewStateValue"));
    res := Render.CloudWatchWith(lib, r, message, alarmName, trigger, metricName, status);
  }

  /** The description loop of `handleCatchAll`: one line per enumerated key, appended in order. */
  method Describe(stringify: Value -> string, entries: seq<(string, Value)>) returns (description: string)
    ensures description == Render.Description(stringify, entries)
    ensures description == RenderProps.Lines(stringify, entries)
  {
    description := "";
    var i := 0;
    while i < |entries|
      invariant 0 <= i <= |entries|
      invariant description == Render.Description(stringify, entries[..i])
    {
      var key := entries[i].0;
      var value := entries[i].1;
      var shown := if IsObjectType(value) then stringify(value) else PrimitiveText(value);
      description := description + "\n" + key + ": " + shown;
      RenderProps.DescriptionSnoc(stringify, entries, i);
      i := i + 1;
    }
    assert entries[..i] == entries;
    RenderProps.DescriptionIsLines(stringify, entries);
  }

  /** `handleCatchAll`. */
  method HandleCatchAll(lib: Render.Lib, r: Record) returns (res: Result<Render.Rendered, JsError>)
    ensures res == Render.CatchAll(lib, r)
  {
    var message :- Render.Parse(lib, r.message);
    var newState :- Get(message, "NewStateValue");
    var status := AlarmStatusOf(newState);
    var description := Describe(lib.stringify, ForIn(message));
    res := Render.CatchAllWith(lib, r, message, status, description);
  }

  /** The handler the classification chain selected. */
  method RunHandler(lib: Render.Lib, r: Record, route: Route) returns (rendered: Result<Render.Rendered, JsError>)
    ensures rendered == Notify.Dispatch(lib, r, route)
  {
    match route
    case Service(CodePipeline) => rendered := HandleCodePipeline(lib, r);
    case Service(ElasticBeanstalk) => rendered := HandleElasticBeanstalk(lib, r);
    case Service(CloudWatch) => rendered := HandleCloudWatch(lib, r);
    case Service(CodeDeploy) => rendered := HandleCodeDeploy(lib, r);
    case Service(ElastiCache) => rendered := HandleElastiCache(lib, r);
    case Service(AutoScaling) => rendered := Render.AutoScaling(lib, r);
    case CatchAll => rendered := HandleCatchAll(lib, r);
  }

  /** `processEvent` up to the post: the classification chain, then the chosen handler. */
  method ProcessEvent(lib: Render.Lib, records: seq<Record>, settings: Settings)
    returns (res: Result<Notify.FleepMessage, JsError>)
    ensures res == Notify.Process(lib, records, settings)
  {
    if records == [] {
      return Err(TypeError);
    }
    var r := records[0];
    var rendered := RunHandler(lib, r, ClassifyRecord(r));
    var message :- rendered;
    res := Ok(Notify.FleepMessage(message.text, settings.fleepUsername));
  }
}
