/**
 * `processEvent` up to the post: the first record of the delivery is
 * classified, rendered by the chosen handler, and sent as the message with
 * the configured sender name.
 */
module Notify {
  import opened Wrappers
  import opened JsText
  import opened JsValue
  import opened Sns
  import opened Config
  import opened Classifier
  import Render

  /** The object handed to the post: `{message: compiled}` merged with `{user: fleepUsername}`. */
  datatype FleepMessage = FleepMessage(message: string, user: Option<string>)

  /**
   * The handler a route runs. Whatever the route, an exception it throws is
   * a TypeError or the parser's SyntaxError on text that is not JSON; the
   * CodeDeploy handler throws none.
   */
  function Dispatch(lib: Render.Lib, r: Record, route: Route): (res: Result<Render.Rendered, JsError>)
    ensures res.Err? ==> res.error == TypeError || (res.error == SyntaxError && lib.parse(r.message).None?)
    ensures route == Service(CodeDeploy) ==> res.Ok?
  {
    match route
    case Service(CodePipeline) => Render.CodePipeline(lib, r)
    case Service(ElasticBeanstalk) => Render.ElasticBeanstalk(lib, r)
    case Service(CloudWatch) => Render.CloudWatch(lib, r)
    case Service(CodeDeploy) => Render.CodeDeploy(lib, r)
    case Service(ElastiCache) => Render.ElastiCache(lib, r)
    case Service(AutoScaling) => Render.AutoScaling(lib, r)
    case CatchAll => Render.CatchAll(lib, r)
  }

  /**
   * The message `processEvent` posts for the delivered `records`, or the
   * exception it throws first: reading the first record of an empty
   * delivery throws a TypeError, and so does every exception of a handler.
   */
  function Process(lib: Render.Lib, records: seq<Record>, settings: Settings): (res: Result<FleepMessage, JsError>)
    ensures records == [] ==> res == Err(TypeError)
    ensures records != [] ==> (res.Ok? <==> Dispatch(lib, records[0], ClassifyRecord(records[0])).Ok?)
    ensures res.Ok? ==> res.value.user == settings.fleepUsername
  {
    if records == [] then Err(TypeError)
    else
      var r := records[0];
      var rendered :- Dispatch(lib, r, ClassifyRecord(r));
      Ok(FleepMessage(rendered.text, settings.fleepUsername))
  }

  /** Only the first record of a delivery is looked at. */
  lemma FirstRecordOnly(lib: Render.Lib, records: seq<Record>, settings: Settings)
    requires records != []
    ensures Process(lib, records, settings) == Process(lib, records[..1], settings)
  {
  }

  /**
   * The message posted is the text of the handler of the first service,
   * in priority order, whose signature occurs in the first record.
   */
  lemma ProcessSelects(lib: Render.Lib, records: seq<Record>, settings: Settings, i: nat)
    requires records != [] && i < |Priority|
    requires var r := records[0];
      Occurs(Priority[i], r.subscriptionArn, SubjectOr(r.subject, "no subject"), r.message) &&
      forall j :: 0 <= j < i ==> !Occurs(Priority[j], r.subscriptionArn, SubjectOr(r.subject, "no subject"), r.message)
    ensures Process(lib, records, settings) ==
      match Dispatch(lib, records[0], Service(Priority[i]))
      case Ok(x) => Ok(FleepMessage(x.text, settings.fleepUsername))
      case Err(e) => Err(e)
  {
    var r := records[0];
    ClassifySelects(r.subscriptionArn, SubjectOr(r.subject, "no subject"), r.message, i);
  }

  /** When no signature occurs in the first record, the catch-all renders the message. */
  lemma ProcessCatchAll(lib: Render.Lib, records: seq<Record>, settings: Settings)
    requires records != []
    requires var r := records[0];
      forall j :: 0 <= j < |Priority| ==> !Occurs(Priority[j], r.subscriptionArn, SubjectOr(r.subject, "no subject"), r.message)
    ensures Process(lib, records, settings) ==
      match Render.CatchAll(lib, records[0])
      case Ok(x) => Ok(FleepMessage(x.text, settings.fleepUsername))
      case Err(e) => Err(e)
  {
    var r := records[0];
    ClassifyCatchAll(r.subscriptionArn, SubjectOr(r.subject, "no subject"), r.message);
  }

  /** Every exception that escapes `processEvent` is a TypeError or the parser's SyntaxError. */
  lemma ProcessErrors(lib: Render.Lib, records: seq<Record>, settings: Settings)
    ensures Process(lib, records, settings).Err? ==>
      Process(lib, records, settings).error == TypeError ||
      (Process(lib, records, settings).error == SyntaxError && lib.parse(records[0].message).None?)
  {
  }
}
