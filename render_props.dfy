/** What the renderers promise: severities, fallbacks, failures and layout. */
module RenderProps {
  import opened Wrappers
  import opened JsText
  import opened JsValue
  import opened Sns
  import opened Render
  import Uri

  // ----- CodeDeploy -----

  /**
   * CodeDeploy never throws. When the parsed message evaluates, the status
   * follows its `status` field; when parsing or evaluation throws, the
   * message is GOOD and holds only the header, the SNS subject, the raw
   * message and the timestamp line.
   */
  lemma CodeDeploySeverity(lib: Lib, r: Record)
    ensures CodeDeploy(lib, r).Ok?
    ensures lib.parse(r.message).None? ==> CodeDeploy(lib, r).value == CodeDeployFallback(lib, r)
    ensures lib.parse(r.message).Some? && !CodeDeployEvaluates(lib.parse(r.message).value) ==>
      CodeDeploy(lib, r).value == CodeDeployFallback(lib, r)
    ensures lib.parse(r.message).Some? && CodeDeployEvaluates(lib.parse(r.message).value) ==>
      CodeDeploy(lib, r).value.status == StateStatus(Field(lib.parse(r.message).value, "status"))
  {
    match lib.parse(r.message)
    case None =>
    case Some(m) =>
      if CodeDeployEvaluates(m) {
        assert CodeDeployTry(lib, r).Ok?;
      } else {
        assert CodeDeployTry(lib, r).Err?;
      }
  }

  /**
   * The fallback message is GOOD and is only the header, the SNS subject,
   * the raw message and the time: it starts with the header and the subject
   * and ends with the raw message on its own line followed by the timestamp.
   */
  lemma CodeDeployFallbackLayout(lib: Lib, r: Record)
    ensures CodeDeployFallback(lib, r).status == Good
    ensures Header(Good, CodeDeployTitle) + SubjectText(r.subject) <= CodeDeployFallback(lib, r).text
    ensures EndsWith(CodeDeployFallback(lib, r).text, "\n" + r.message + TimestampLine(lib, r))
    ensures EndsWith(CodeDeployFallback(lib, r).text, TimestampLine(lib, r))
  {
    FallbackShape(Header(Good, CodeDeployTitle), SubjectText(r.subject), r.message, TimestampLine(lib, r));
  }

  /** Where the header, subject, message and timestamp sit in a text of the fallback layout. */
  lemma FallbackShape(h: string, sub: string, m: string, ts: string)
    ensures var t := h + (sub + "\n" + m + ts);
      h + sub <= t && EndsWith(t, "\n" + m + ts) && EndsWith(t, ts)
  {
    var t := h + (sub + "\n" + m + ts);
    assert t == (h + sub) + ("\n" + m + ts);
    EndsWithAppend(h + sub, "\n" + m + ts);
    assert t == (h + sub + "\n" + m) + ts;
    EndsWithAppend(h + sub + "\n" + m, ts);
  }

  /** Where the three labelled values sit in a text of the CodeDeploy layout. */
  lemma CodeDeployShape(x0: string, a: string, g: string, b: string, ap: string,
                        l1: string, l2: string, rg: string, d: string, id: string, ts: string)
    ensures var t := x0 + a + g + b + ap + l1 + l2 + rg + d + id + ts;
      Contains(t, a + g) && Contains(t, b + ap) && Contains(t, d + id)
  {
    var x1 := x0 + a + g;
    var x2 := x1 + b + ap;
    var x4 := x2 + l1 + l2 + rg + d + id;
    var t := x4 + ts;
    assert x2 + l1 + l2 + rg + d + id == x2 + (l1 + l2 + rg + d + id);
    assert x1 + b + ap == x1 + (b + ap);
    ContainsPair(x0, a, g);
    ContainsExtend(x1, b + ap, a + g);
    ContainsExtend(x2, l1 + l2 + rg + d + id, a + g);
    ContainsExtend(x4, ts, a + g);
    ContainsPair(x1, b, ap);
    ContainsExtend(x2, l1 + l2 + rg + d + id, b + ap);
    ContainsExtend(x4, ts, b + ap);
    ContainsPair(x2 + l1 + l2 + rg, d, id);
    ContainsExtend(x4, ts, d + id);
  }

  /**
   * A notification that evaluates lists its deployment group and
   * application, and links to the console page of its deployment.
   */
  lemma CodeDeployLines(lib: Lib, r: Record)
    requires lib.parse(r.message).Some? && CodeDeployEvaluates(lib.parse(r.message).value)
    ensures var m, t := lib.parse(r.message).value, CodeDeploy(lib, r).value.text;
      Contains(t, "\n *Deployment Group:* " + ToStr(Field(m, "deploymentGroupName")).value) &&
      Contains(t, "\n *Application:* " + ToStr(Field(m, "applicationName")).value) &&
      Contains(t, "#/deployments/" + ToStr(Field(m, "deploymentId")).value)
  {
    var m := lib.parse(r.message).value;
    var status := StateStatus(Field(m, "status"));
    CodeDeployTryText(lib, r);
    CodeDeployShape(Header(status, CodeDeployTitle) + SubjectText(r.subject) + "\n" + ToStr(m).value,
      "\n *Deployment Group:* ", ToStr(Field(m, "deploymentGroupName")).value,
      "\n *Application:* ", ToStr(Field(m, "applicationName")).value,
      "\n *Status Link:* ", "https://console.aws.amazon.com/codedeploy/home?region=", ToStr(Field(m, "region")).value,
      "#/deployments/", ToStr(Field(m, "deploymentId")).value, TimestampLine(lib, r));
  }

  lemma CodeDeployTryText(lib: Lib, r: Record)
    requires lib.parse(r.message).Some? && CodeDeployEvaluates(lib.parse(r.message).value)
    ensures var m := lib.parse(r.message).value;
      var status := StateStatus(Field(m, "status"));
      CodeDeploy(lib, r) == Ok(Rendered(status,
        Header(status, CodeDeployTitle) + SubjectText(r.subject)
        + "\n" + ToStr(m).value
        + "\n *Deployment Group:* " + ToStr(Field(m, "deploymentGroupName")).value
        + "\n *Application:* " + ToStr(Field(m, "applicationName")).value
        + "\n *Status Link:* " + "https://console.aws.amazon.com/codedeploy/home?region=" + ToStr(Field(m, "region")).value
        + "#/deployments/" + ToStr(Field(m, "deploymentId")).value
        + TimestampLine(lib, r)))
  {
  }

  // ----- Elastic Beanstalk -----

  /**
   * Elastic Beanstalk parses the raw message: it throws a SyntaxError
   * exactly when the message is not JSON, and a TypeError when the parsed
   * value cannot be converted to text; otherwise its status is the one the
   * phrase tests leave.
   */
  lemma ElasticBeanstalkOutcome(lib: Lib, r: Record)
    ensures ElasticBeanstalk(lib, r).Err? && ElasticBeanstalk(lib, r).error == SyntaxError <==>
      lib.parse(r.message).None?
    ensures ElasticBeanstalk(lib, r).Ok? <==>
      lib.parse(r.message).Some? && Printable(lib.parse(r.message).value)
    ensures ElasticBeanstalk(lib, r).Ok? ==> ElasticBeanstalk(lib, r).value.status == EbStatus(r.message)
  {
  }

  // ----- CodePipeline -----

  /** The parsed CodePipeline message evaluates without throwing. */
  predicate PipelineEvaluates(m: Value) {
    var d := Field(m, "detail");
    m != Undefined && m != Null && d != Undefined && d != Null &&
    (Field(m, "detail-type") == Str(StageExecution) ==> Printable(Field(d, "stage"))) &&
    Printable(m) && Printable(Field(d, "state")) && Printable(Field(d, "pipeline")) && Printable(Field(m, "region"))
  }

  /**
   * The change label by `detail-type`: empty for pipeline executions,
   * `STAGE` and the stage for stage executions, `ACTION` for action
   * executions and empty for any other type; the status follows
   * `detail.state`. Computing them throws only on a null or undefined
   * message or detail, or on a stage that cannot be converted.
   */
  lemma PipelineChangeRules(m: Value)
    ensures var d := Field(m, "detail");
      PipelineChange(m).Ok? <==> (m != Undefined && m != Null && d != Undefined && d != Null &&
        (Field(m, "detail-type") == Str(StageExecution) ==> Printable(Field(d, "stage"))))
    ensures PipelineChange(m).Err? ==> PipelineChange(m).error == TypeError
    ensures PipelineChange(m).Ok? ==>
      PipelineChange(m).value.1 == StateStatus(Field(Field(m, "detail"), "state"))
    ensures PipelineChange(m).Ok? && Field(m, "detail-type") == Str(StageExecution) ==>
      PipelineChange(m).value.0 == "STAGE " + ToStr(Field(Field(m, "detail"), "stage")).value
    ensures PipelineChange(m).Ok? && Field(m, "detail-type") == Str(ActionExecution) ==>
      PipelineChange(m).value.0 == "ACTION"
    ensures (PipelineChange(m).Ok? && Field(m, "detail-type") != Str(StageExecution) &&
      Field(m, "detail-type") != Str(ActionExecution)) ==> PipelineChange(m).value.0 == ""
  {
  }

  /**
   * CodePipeline succeeds exactly when the parsed message evaluates; a
   * message that is not JSON ends in the failing `catch` block, so every
   * failure is a TypeError, never the parser's SyntaxError.
   */
  lemma CodePipelineOutcome(lib: Lib, r: Record)
    ensures lib.parse(r.message).None? ==> CodePipeline(lib, r) == Err(TypeError)
    ensures CodePipeline(lib, r).Ok? <==>
      lib.parse(r.message).Some? && PipelineEvaluates(lib.parse(r.message).value)
    ensures CodePipeline(lib, r).Err? ==> CodePipeline(lib, r).error == TypeError
    ensures CodePipeline(lib, r).Ok? ==>
      CodePipeline(lib, r).value.status == StateStatus(Field(Field(lib.parse(r.message).value, "detail"), "state"))
  {
    match lib.parse(r.message)
    case None =>
    case Some(m) =>
      PipelineChangeRules(m);
  }

  /**
   * A successful CodePipeline message announces the state with the change
   * label, and closes with the console link of the pipeline.
   */
  lemma CodePipelineLines(lib: Lib, r: Record)
    requires CodePipeline(lib, r).Ok?
    ensures var m := lib.parse(r.message).value;
      var d, t := Field(m, "detail"), CodePipeline(lib, r).value.text;
      Contains(t, "\n *" + ToStr(Field(d, "state")).value + ":* CodePipeline " + PipelineChange(m).value.0) &&
      EndsWith(t, "#/view/" + ToStr(Field(d, "pipeline")).value + TimestampLine(lib, r))
  {
    var m := lib.parse(r.message).value;
    var d := Field(m, "detail");
    var change := PipelineChange(m).value;
    assert CodePipeline(lib, r) == CodePipelineWith(lib, r, m, change.0, change.1);
    CodePipelineWithText(lib, r, m, change.0, change.1);
    var st, pl, rg := ToStr(Field(d, "state")).value, ToStr(Field(d, "pipeline")).value, ToStr(Field(m, "region")).value;
    PipelineShape(Header(change.1, CodePipelineTitle) + "\n" + ToStr(m).value,
      "\n *", st, ":* CodePipeline ", change.0, "\n *Pipeline:* ", pl, "\n *Region:* ", rg,
      "\n *Status Link:* ", "https://console.aws.amazon.com/codepipeline/home?region=", rg, "#/view/", pl,
      TimestampLine(lib, r));
  }

  lemma CodePipelineWithText(lib: Lib, r: Record, m: Value, change: string, status: Status)
    requires CodePipelineWith(lib, r, m, change, status).Ok?
    ensures var d := Field(m, "detail");
      var pl, rg := ToStr(Field(d, "pipeline")).value, ToStr(Field(m, "region")).value;
      CodePipelineWith(lib, r, m, change, status).value.text ==
      Header(status, CodePipelineTitle)
      + "\n" + ToStr(m).value
      + "\n *" + ToStr(Field(d, "state")).value + ":* CodePipeline " + change
      + "\n *Pipeline:* " + pl
      + "\n *Region:* " + rg
      + "\n *Status Link:* " + "https://console.aws.amazon.com/codepipeline/home?region=" + rg
      + "#/view/" + pl
      + TimestampLine(lib, r)
  {
  }

  /** Where the state line and the link sit in a text of the CodePipeline layout. */
  lemma PipelineShape(x0: string, a: string, st: string, b: string, ch: string,
                      y1: string, pl: string, y2: string, rg: string, y3: string, u: string, rg2: string,
                      v: string, pl2: string, ts: string)
    ensures var t := x0 + a + st + b + ch + y1 + pl + y2 + rg + y3 + u + rg2 + v + pl2 + ts;
      Contains(t, a + st + b + ch) && EndsWith(t, v + pl2 + ts)
  {
    var t := x0 + a + st + b + ch + y1 + pl + y2 + rg + y3 + u + rg2 + v + pl2 + ts;
    var tail := y1 + pl + y2 + rg + y3 + u + rg2 + v + pl2 + ts;
    assert t == x0 + (a + st + b + ch) + tail;
    ContainsInfix(x0, a + st + b + ch, tail);
    EndsWithLast3(x0 + a + st + b + ch + y1 + pl + y2 + rg + y3 + u + rg2, v, pl2, ts);
  }

  // ----- ElastiCache -----

  /**
   * ElastiCache is always GOOD. It throws a SyntaxError on a message that is
   * not JSON and a TypeError when the parsed value has no enumerable key.
   */
  lemma ElastiCacheOutcome(lib: Lib, r: Record)
    ensures lib.parse(r.message).None? ==> ElastiCache(lib, r) == Err(SyntaxError)
    ensures lib.parse(r.message).Some? && ForIn(lib.parse(r.message).value) == [] ==>
      ElastiCache(lib, r) == Err(TypeError)
    ensures ElastiCache(lib, r).Ok? <==> (lib.parse(r.message).Some? &&
      var m := lib.parse(r.message).value;
      ForIn(m) != [] && Printable(m) && Printable(ForIn(m)[0].1))
    ensures ElastiCache(lib, r).Ok? ==> ElastiCache(lib, r).value.status == Good
  {
  }

  /**
   * Only the first enumerated pair is used: the event is the second `':'`
   * field of its key (`undefined` when the key has no `':'`), the node is
   * its value, and the link carries the region field of the subscription
   * ARN and closes with the node.
   */
  lemma ElastiCacheLines(lib: Lib, r: Record)
    requires ElastiCache(lib, r).Ok?
    ensures var m := lib.parse(r.message).value;
      var first, t := ForIn(m)[0], ElastiCache(lib, r).value.text;
      var node := ToStr(first.1).value;
      Contains(t, "\n *Event:* " + OptText(SplitField(first.0, ':', 1))) &&
      Contains(t, "\n *Node:* " + node) &&
      Contains(t, "https://console.aws.amazon.com/elasticache/home?region=" + OptText(ArnRegion(r.subscriptionArn))) &&
      EndsWith(t, "#cache-nodes:id=" + node + ";nodes" + TimestampLine(lib, r))
  {
    var m := lib.parse(r.message).value;
    var first := ForIn(m)[0];
    assert FirstOf(ForIn(m)) == Some(first);
    ElastiCacheWithText(lib, r, m, first);
    ElastiCacheShape(Header(Good, ElastiCacheTitle) + "\n" + ToStr(m).value,
      "\n *Event:* ", OptText(SplitField(first.0, ':', 1)),
      "\n *Node:* ", ToStr(first.1).value,
      "\n *Link to cache node:* ", "https://console.aws.amazon.com/elasticache/home?region=",
      OptText(ArnRegion(r.subscriptionArn)), "#cache-nodes:id=", ";nodes", TimestampLine(lib, r));
  }

  lemma ElastiCacheWithText(lib: Lib, r: Record, m: Value, first: (string, Value))
    requires ElastiCacheWith(lib, r, m, Some(first)).Ok?
    ensures ElastiCacheWith(lib, r, m, Some(first)).value.text ==
      Header(Good, ElastiCacheTitle)
      + "\n" + ToStr(m).value
      + "\n *Event:* " + OptText(SplitField(first.0, ':', 1))
      + "\n *Node:* " + ToStr(first.1).value
      + "\n *Link to cache node:* " + "https://console.aws.amazon.com/elasticache/home?region="
      + OptText(ArnRegion(r.subscriptionArn))
      + "#cache-nodes:id=" + ToStr(first.1).value + ";nodes"
      + TimestampLine(lib, r)
  {
  }

  /** Where the labelled values sit in a text of the ElastiCache layout. */
  lemma ElastiCacheShape(x0: string, a: string, ev: string, b: string, nd: string,
                         l: string, u: string, rg: string, c: string, s: string, ts: string)
    ensures var t := x0 + a + ev + b + nd + l + u + rg + c + nd + s + ts;
      Contains(t, a + ev) && Contains(t, b + nd) && Contains(t, u + rg) && EndsWith(t, c + nd + s + ts)
  {
    var x1 := x0 + a + ev;
    var x2 := x1 + b + nd;
    var x3 := x2 + l + u + rg;
    var t := x3 + c + nd + s + ts;
    assert x1 + b + nd == x1 + (b + nd);
    assert x2 + l + u + rg == x2 + (l + u + rg);
    assert x3 + c + nd + s + ts == x3 + (c + nd + s + ts);
    assert x2 + l + u + rg == (x2 + l) + u + rg;
    ContainsPair(x0, a, ev);
    ContainsExtend(x1, b + nd, a + ev);
    ContainsExtend(x2, l + u + rg, a + ev);
    ContainsExtend(x3, c + nd + s + ts, a + ev);
    ContainsPair(x1, b, nd);
    ContainsExtend(x2, l + u + rg, b + nd);
    ContainsExtend(x3, c + nd + s + ts, b + nd);
    ContainsPair(x2 + l, u, rg);
    ContainsExtend(x3, c + nd + s + ts, u + rg);
    EndsWithAppend(x3, c + nd + s + ts);
  }

  // ----- CloudWatch -----

  /** The parsed alarm evaluates without throwing. */
  predicate AlarmEvaluates(m: Value) {
    var t := Field(m, "Trigger");
    m != Undefined && m != Null && t != Undefined && t != Null && Printable(m) &&
    Printable(Field(m, "AlarmName")) && Printable(Field(m, "NewStateReason")) &&
    Printable(Field(t, "Statistic")) && Printable(Field(t, "MetricName")) &&
    Printable(Field(t, "ComparisonOperator")) && Printable(Field(t, "Threshold")) &&
    Printable(Field(t, "EvaluationPeriods")) && Printable(Field(t, "Period")) &&
    Printable(Field(m, "OldStateValue")) && Printable(Field(m, "NewStateValue"))
  }

  /**
   * CloudWatch throws a SyntaxError on a message that is not JSON and a
   * TypeError on a null or undefined alarm or `Trigger`; otherwise it
   * succeeds exactly when the alarm evaluates, with the status the new
   * state gives.
   */
  lemma CloudWatchOutcome(lib: Lib, r: Record)
    ensures lib.parse(r.message).None? ==> CloudWatch(lib, r) == Err(SyntaxError)
    ensures lib.parse(r.message).Some? ==> CloudWatch(lib, r).Err? ==> CloudWatch(lib, r).error == TypeError
    ensures (lib.parse(r.message).Some? &&
      var m := lib.parse(r.message).value;
      m == Undefined || m == Null || Field(m, "Trigger") == Undefined || Field(m, "Trigger") == Null) ==>
      CloudWatch(lib, r) == Err(TypeError)
    ensures CloudWatch(lib, r).Ok? <==>
      lib.parse(r.message).Some? && AlarmEvaluates(lib.parse(r.message).value)
    ensures CloudWatch(lib, r).Ok? ==>
      CloudWatch(lib, r).value.status == AlarmStatus(Field(lib.parse(r.message).value, "NewStateValue"))
  {
    match lib.parse(r.message)
    case None =>
    case Some(m) =>
      if m != Undefined && m != Null {
        var t := Field(m, "Trigger");
        if t != Undefined && t != Null {
          assert CloudWatch(lib, r) == CloudWatchWith(lib, r, m, Field(m, "AlarmName"), t, Field(t, "MetricName"), AlarmStatus(Field(m, "NewStateValue")));
        }
      }
  }

  /**
   * The alarm link closes the message, just before the timestamp line; it
   * carries the alarm name percent-encoded, every character of it
   * unreserved or part of an escape, and decoding gives the name back.
   */
  lemma CloudWatchLink(lib: Lib, r: Record)
    requires CloudWatch(lib, r).Ok?
    ensures var name := ToStr(Field(lib.parse(r.message).value, "AlarmName")).value;
      var encoded := Uri.EncodeURIComponent(name);
      EndsWith(CloudWatch(lib, r).value.text, "#alarm:alarmFilter=ANY;name=" + encoded + TimestampLine(lib, r)) &&
      (forall i :: 0 <= i < |encoded| ==> Uri.UriSafe(encoded[i])) &&
      Uri.DecodeURIComponent(encoded) == Some(name)
  {
    var m := lib.parse(r.message).value;
    var t := Field(m, "Trigger");
    CloudWatchIsWith(lib, r);
    CloudWatchWithLink(lib, r, m, Field(m, "AlarmName"), t, Field(t, "MetricName"), AlarmStatus(Field(m, "NewStateValue")));
    Uri.DecodeEncode(ToStr(Field(m, "AlarmName")).value);
  }

  lemma CloudWatchIsWith(lib: Lib, r: Record)
    requires CloudWatch(lib, r).Ok?
    ensures var m := lib.parse(r.message).value;
      var t := Field(m, "Trigger");
      CloudWatch(lib, r) == CloudWatchWith(lib, r, m, Field(m, "AlarmName"), t, Field(t, "MetricName"),
        AlarmStatus(Field(m, "NewStateValue")))
  {
  }

  lemma CloudWatchWithLink(lib: Lib, r: Record, m: Value, alarmName: Value, t: Value, metricName: Value, status: Status)
    requires CloudWatchWith(lib, r, m, alarmName, t, metricName, status).Ok?
    ensures EndsWith(CloudWatchWith(lib, r, m, alarmName, t, metricName, status).value.text,
      "#alarm:alarmFilter=ANY;name=" + Uri.EncodeURIComponent(ToStr(alarmName).value) + TimestampLine(lib, r))
  {
    var body, alarmText, reasonText := ToStr(m).value, ToStr(alarmName).value, ToStr(Field(m, "NewStateReason")).value;
    var triggerText := TriggerText(t, metricName).value;
    var oldText, newText := ToStr(Field(m, "OldStateValue")).value, ToStr(Field(m, "NewStateValue")).value;
    CloudWatchTextLink(lib, r, status, body, alarmText, reasonText, triggerText, oldText, newText);
  }

  lemma CloudWatchTextLink(lib: Lib, r: Record, status: Status, body: string, alarmText: string, reasonText: string,
                           triggerText: string, oldText: string, newText: string)
    ensures EndsWith(CloudWatchText(lib, r, status, body, alarmText, reasonText, triggerText, oldText, newText),
      "#alarm:alarmFilter=ANY;name=" + Uri.EncodeURIComponent(alarmText) + TimestampLine(lib, r))
  {
    var x := Header(status, CloudWatchTitle)
      + "\n" + body
      + "\n *Alarm Name:* " + alarmText
      + "\n *Alarm Description:* " + reasonText
      + "\n *Trigger:* " + triggerText
      + "\n *Old State:* " + oldText
      + "\n *Current State:* " + newText
      + "\n *Link to Alarm:* " + "https://console.aws.amazon.com/cloudwatch/home?region=" + OptText(ArnRegion(r.subscriptionArn));
    EndsWithLast3(x, "#alarm:alarmFilter=ANY;name=", Uri.EncodeURIComponent(alarmText), TimestampLine(lib, r));
  }

  // ----- AutoScaling -----

  /** The parsed AutoScaling message evaluates without throwing. */
  predicate ScalingEvaluates(m: Value) {
    m != Undefined && m != Null && Printable(m) && Printable(Field(m, "Description")) &&
    Printable(Field(m, "Event")) && Printable(Field(m, "Cause"))
  }

  /**
   * AutoScaling is always GOOD; it throws a SyntaxError on a message that is
   * not JSON and otherwise succeeds exactly when the parsed message evaluates.
   */
  lemma AutoScalingOutcome(lib: Lib, r: Record)
    ensures lib.parse(r.message).None? ==> AutoScaling(lib, r) == Err(SyntaxError)
    ensures lib.parse(r.message).Some? ==> AutoScaling(lib, r).Err? ==> AutoScaling(lib, r).error == TypeError
    ensures AutoScaling(lib, r).Ok? <==>
      lib.parse(r.message).Some? && ScalingEvaluates(lib.parse(r.message).value)
    ensures AutoScaling(lib, r).Ok? ==> AutoScaling(lib, r).value.status == Good
  {
  }

  /**
   * A successful AutoScaling message lists the description, the event and
   * the cause, and the cause line comes last before the timestamp line.
   */
  lemma AutoScalingLines(lib: Lib, r: Record)
    requires AutoScaling(lib, r).Ok?
    ensures var m, t := lib.parse(r.message).value, AutoScaling(lib, r).value.text;
      Contains(t, "\n *Description:* " + ToStr(Field(m, "Description")).value) &&
      Contains(t, "\n *Event:* " + ToStr(Field(m, "Event")).value) &&
      EndsWith(t, "\n *Cause:* " + ToStr(Field(m, "Cause")).value + TimestampLine(lib, r))
  {
    var m := lib.parse(r.message).value;
    AutoScalingText(lib, r);
    ScalingShape(Header(Good, AutoScalingTitle) + SubjectText(r.subject) + "\n" + ToStr(m).value,
      "\n *Description:* ", ToStr(Field(m, "Description")).value,
      "\n *Event:* ", ToStr(Field(m, "Event")).value,
      "\n *Cause:* ", ToStr(Field(m, "Cause")).value, TimestampLine(lib, r));
  }

  lemma AutoScalingText(lib: Lib, r: Record)
    requires AutoScaling(lib, r).Ok?
    ensures var m := lib.parse(r.message).value;
      AutoScaling(lib, r).value.text ==
      Header(Good, AutoScalingTitle) + SubjectText(r.subject)
      + "\n" + ToStr(m).value
      + "\n *Description:* " + ToStr(Field(m, "Description")).value
      + "\n *Event:* " + ToStr(Field(m, "Event")).value
      + "\n *Cause:* " + ToStr(Field(m, "Cause")).value
      + TimestampLine(lib, r)
  {
  }

  /** Where the labelled values sit in a text of the AutoScaling layout. */
  lemma ScalingShape(x0: string, a: string, d: string, b: string, e: string, c: string, ca: string, ts: string)
    ensures var t := x0 + a + d + b + e + c + ca + ts;
      Contains(t, a + d) && Contains(t, b + e) && EndsWith(t, c + ca + ts)
  {
    var x1 := x0 + a + d;
    var x2 := x1 + b + e;
    assert x1 + b + e == x1 + (b + e);
    ContainsPair(x0, a, d);
    ContainsExtend(x1, b + e, a + d);
    ContainsExtend(x2, c + ca + ts, a + d);
    ContainsPair(x1, b, e);
    ContainsExtend(x2, c + ca + ts, b + e);
    EndsWithLast3(x2, c, ca, ts);
    assert x2 + c + ca + ts == x2 + (c + ca + ts);
  }

  // ----- catch-all -----

  /**
   * The catch-all throws a SyntaxError on a message that is not JSON and a
   * TypeError on a null message or one that cannot be converted to text;
   * otherwise its status is the one the new state gives.
   */
  lemma CatchAllOutcome(lib: Lib, r: Record)
    ensures lib.parse(r.message).None? ==> CatchAll(lib, r) == Err(SyntaxError)
    ensures lib.parse(r.message).Some? ==> CatchAll(lib, r).Err? ==> CatchAll(lib, r).error == TypeError
    ensures CatchAll(lib, r).Ok? <==> (lib.parse(r.message).Some? &&
      var m := lib.parse(r.message).value;
      m != Undefined && m != Null && Printable(m))
    ensures CatchAll(lib, r).Ok? ==>
      CatchAll(lib, r).value.status == AlarmStatus(Field(lib.parse(r.message).value, "NewStateValue"))
  {
  }

  /** The description closes the catch-all message, just before the timestamp line. */
  lemma CatchAllDescription(lib: Lib, r: Record)
    requires CatchAll(lib, r).Ok?
    ensures EndsWith(CatchAll(lib, r).value.text,
      "\n *Description:* " + Description(lib.stringify, ForIn(lib.parse(r.message).value)) + TimestampLine(lib, r))
  {
    var m := lib.parse(r.message).value;
    var status := AlarmStatus(Field(m, "NewStateValue"));
    var d := Description(lib.stringify, ForIn(m));
    assert CatchAll(lib, r) == CatchAllWith(lib, r, m, status, d);
    EndsWithLast3(Header(status, SubjectText(r.subject)) + "\n" + ToStr(m).value,
      "\n *Description:* ", d, TimestampLine(lib, r));
  }

  /** The description line by line, first pair first: the reference the fold is checked against. */
  function Lines(stringify: Value -> string, es: seq<(string, Value)>): string {
    if es == [] then "" else Line(stringify, es[0]) + Lines(stringify, es[1..])
  }

  /** Describing two runs of pairs describes the first, then the second. */
  lemma {:induction false} DescriptionConcat(stringify: Value -> string, es1: seq<(string, Value)>, es2: seq<(string, Value)>)
    ensures Description(stringify, es1 + es2) == Description(stringify, es1) + Description(stringify, es2)
    decreases |es2|
  {
    if es2 != [] {
      var init := es2[..|es2| - 1];
      var last := es2[|es2| - 1];
      assert (es1 + es2)[..|es1 + es2| - 1] == es1 + init;
      assert (es1 + es2)[|es1 + es2| - 1] == last;
      DescriptionConcat(stringify, es1, init);
      var d1, d2, l := Description(stringify, es1), Description(stringify, init), Line(stringify, last);
      assert Description(stringify, es2) == d2 + l;
      assert Description(stringify, es1 + es2) == d1 + d2 + l;
      assert d1 + d2 + l == d1 + (d2 + l);
    } else {
      assert es1 + es2 == es1;
    }
  }

  /**
   * The catch-all description is one `'\n' + key + ': ' + value` line per
   * enumerated pair, in enumeration order, and nothing else.
   */
  lemma {:induction false} DescriptionIsLines(stringify: Value -> string, es: seq<(string, Value)>)
    ensures Description(stringify, es) == Lines(stringify, es)
    decreases |es|
  {
    if es != [] {
      var head, tail := es[0], es[1..];
      assert es == [head] + tail;
      DescriptionConcat(stringify, [head], tail);
      assert Description(stringify, [head]) == Line(stringify, head) by {
        assert [head][..0] == [];
      }
      DescriptionIsLines(stringify, tail);
    }
  }

  /** Every pair has its line in the description, and the lines of earlier pairs come before it. */
  lemma EveryPairDescribed(stringify: Value -> string, es: seq<(string, Value)>, i: nat)
    requires i < |es|
    ensures Description(stringify, es) ==
      Description(stringify, es[..i]) + Line(stringify, es[i]) + Description(stringify, es[i + 1..])
    ensures Contains(Description(stringify, es), Line(stringify, es[i]))
  {
    SplitAt(es, i);
    DescriptionConcat(stringify, es[..i + 1], es[i + 1..]);
    DescriptionSnoc(stringify, es, i);
    ContainsInfix(Description(stringify, es[..i]), Line(stringify, es[i]), Description(stringify, es[i + 1..]));
  }

  lemma SplitAt(es: seq<(string, Value)>, i: nat)
    requires i < |es|
    ensures es[..i + 1] + es[i + 1..] == es
  {
  }

  lemma DescriptionSnoc(stringify: Value -> string, es: seq<(string, Value)>, i: nat)
    requires i < |es|
    ensures Description(stringify, es[..i + 1]) == Description(stringify, es[..i]) + Line(stringify, es[i])
  {
    var front := es[..i + 1];
    assert front[..|front| - 1] == es[..i];
  }

  /** A line shows objects, arrays and null as JSON and every other value as it converts. */
  lemma LineShows(stringify: Value -> string, key: string, v: Value)
    ensures IsObjectType(v) ==> Line(stringify, (key, v)) == "\n" + key + ": " + stringify(v)
    ensures !IsObjectType(v) ==> Line(stringify, (key, v)) == "\n" + key + ": " + ToStr(v).value
  {
  }
}
