/** The choice of handler in `processEvent`: the first service whose signature occurs. */
module Classifier {
  import opened JsText
  import opened Config
  import opened Sns

  /** The handler `processEvent` runs: one per service, or the catch-all. */
  datatype Route = Service(key: ServiceKey) | CatchAll

  /** The order in which the chain tests the signatures. */
  const Priority: seq<ServiceKey> :=
    [CodePipeline, ElasticBeanstalk, CloudWatch, CodeDeploy, ElastiCache, AutoScaling]

  /** One test of the chain: `indexOf(match_text) > -1` on the ARN, the subject or the message. */
  predicate Hit(k: ServiceKey, arn: string, subject: string, message: string) {
    IndexOf(arn, MatchText(k)) > -1 || IndexOf(subject, MatchText(k)) > -1 || IndexOf(message, MatchText(k)) > -1
  }

  /** The signature of `k` is a substring of one of the three fields. */
  predicate Occurs(k: ServiceKey, arn: string, subject: string, message: string) {
    Contains(arn, MatchText(k)) || Contains(subject, MatchText(k)) || Contains(message, MatchText(k))
  }

  /**
   * The `if / else if` chain of `processEvent`: a chosen service's test
   * holds, and the catch-all is chosen exactly when no entry of the
   * `services` table is hit.
   */
  function Classify(arn: string, subject: string, message: string): (r: Route)
    ensures r.Service? ==> Hit(r.key, arn, subject, message)
    ensures r == CatchAll <==> forall k :: k in Services ==> !Hit(k, arn, subject, message)
  {
    assert forall k :: k in Services <==> k in {ElasticBeanstalk, CloudWatch, CodePipeline, CodeDeploy, ElastiCache, AutoScaling};

    if Hit(CodePipeline, arn, subject, message) then Service(CodePipeline)
    else if Hit(ElasticBeanstalk, arn, subject, message) then Service(ElasticBeanstalk)
    else if Hit(CloudWatch, arn, subject, message) then Service(CloudWatch)
    else if Hit(CodeDeploy, arn, subject, message) then Service(CodeDeploy)
    else if Hit(ElastiCache, arn, subject, message) then Service(ElastiCache)
    else if Hit(AutoScaling, arn, subject, message) then Service(AutoScaling)
    else CatchAll
  }

  /**
   * The route of a record; a missing or empty subject is searched as
   * `'no subject'`. A chosen service's signature occurs in the record, and
   * the catch-all is chosen exactly when no table entry's signature does.
   */
  function ClassifyRecord(r: Record): (route: Route)
    ensures route.Service? ==> Occurs(route.key, r.subscriptionArn, SubjectOr(r.subject, "no subject"), r.message)
    ensures route == CatchAll <==>
      forall k :: k in Services ==> !Occurs(k, r.subscriptionArn, SubjectOr(r.subject, "no subject"), r.message)
  {
    HitIffOccurs(r.subscriptionArn, SubjectOr(r.subject, "no subject"), r.message);
    Classify(r.subscriptionArn, SubjectOr(r.subject, "no subject"), r.message)
  }

  /** `HitIsOccurs` for every service at once. */
  lemma HitIffOccurs(arn: string, subject: string, message: string)
    ensures forall k :: Hit(k, arn, subject, message) <==> Occurs(k, arn, subject, message)
  {
    forall k ensures Hit(k, arn, subject, message) <==> Occurs(k, arn, subject, message) {
      HitIsOccurs(k, arn, subject, message);
    }
  }

  /** The chain tests every entry of the `services` table, each exactly once. */
  lemma ChainTestsTable()
    ensures multiset(Priority) == multiset(Services)
  {
  }

  /** The first service of `keys` whose signature occurs, if any: the reference definition. */
  function FirstOccurring(keys: seq<ServiceKey>, arn: string, subject: string, message: string): (r: Route)
    ensures r.Service? ==> r.key in keys && Occurs(r.key, arn, subject, message)
    ensures r == CatchAll ==> forall i :: 0 <= i < |keys| ==> !Occurs(keys[i], arn, subject, message)
  {
    if keys == [] then CatchAll
    else if Occurs(keys[0], arn, subject, message) then Service(keys[0])
    else FirstOccurring(keys[1..], arn, subject, message)
  }

  /** The chain's `indexOf` test is the substring test. */
  lemma HitIsOccurs(k: ServiceKey, arn: string, subject: string, message: string)
    ensures Hit(k, arn, subject, message) <==> Occurs(k, arn, subject, message)
  {
  }

  /** The first service of `keys` that the chain's test hits. */
  function FirstHit(keys: seq<ServiceKey>, arn: string, subject: string, message: string): Route {
    if keys == [] then CatchAll
    else if Hit(keys[0], arn, subject, message) then Service(keys[0])
    else FirstHit(keys[1..], arn, subject, message)
  }

  lemma {:induction false} FirstHitIsFirstOccurring(keys: seq<ServiceKey>, arn: string, subject: string, message: string)
    ensures FirstHit(keys, arn, subject, message) == FirstOccurring(keys, arn, subject, message)
  {
    if keys != [] {
      HitIsOccurs(keys[0], arn, subject, message);
      FirstHitIsFirstOccurring(keys[1..], arn, subject, message);
    }
  }

  /** The chain selects the first service, in priority order, whose signature occurs. */
  lemma ClassifyIsFirstOccurring(arn: string, subject: string, message: string)
    ensures Classify(arn, subject, message) == FirstOccurring(Priority, arn, subject, message)
  {
    FirstHitIsFirstOccurring(Priority, arn, subject, message);
    ClassifyIsFirstHit(arn, subject, message);
  }

  /** The chain is the first-hit search over the priority list. */
  lemma ClassifyIsFirstHit(arn: string, subject: string, message: string)
    ensures Classify(arn, subject, message) == FirstHit(Priority, arn, subject, message)
  {
    var p0 := Priority;
    var p1 := [ElasticBeanstalk, CloudWatch, CodeDeploy, ElastiCache, AutoScaling];
    var p2 := [CloudWatch, CodeDeploy, ElastiCache, AutoScaling];
    var p3 := [CodeDeploy, ElastiCache, AutoScaling];
    var p4 := [ElastiCache, AutoScaling];
    var p5 := [AutoScaling];
    FirstHitStep(p0, p1, arn, subject, message);
    FirstHitStep(p1, p2, arn, subject, message);
    FirstHitStep(p2, p3, arn, subject, message);
    FirstHitStep(p3, p4, arn, subject, message);
    FirstHitStep(p4, p5, arn, subject, message);
    FirstHitStep(p5, [], arn, subject, message);
  }

  lemma FirstHitStep(keys: seq<ServiceKey>, rest: seq<ServiceKey>, arn: string, subject: string, message: string)
    requires keys != [] && keys[1..] == rest
    ensures FirstHit(keys, arn, subject, message) ==
      if Hit(keys[0], arn, subject, message) then Service(keys[0]) else FirstHit(rest, arn, subject, message)
  {
  }

  /**
   * Exactly one handler is chosen: service `Priority[i]` exactly when its
   * signature occurs and no earlier one does.
   */
  lemma {:induction false} ClassifySelects(arn: string, subject: string, message: string, i: nat)
    requires i < |Priority|
    ensures Classify(arn, subject, message) == Service(Priority[i]) <==>
      (Occurs(Priority[i], arn, subject, message) &&
       forall j :: 0 <= j < i ==> !Occurs(Priority[j], arn, subject, message))
  {
    ClassifyIsFirstOccurring(arn, subject, message);
    PriorityDistinct();
    FirstOccurringSelects(Priority, arn, subject, message, i);
  }

  /** The priority order lists every service once. */
  lemma PriorityDistinct()
    ensures forall a, b :: 0 <= a < b < |Priority| ==> Priority[a] != Priority[b]
    ensures forall k: ServiceKey :: k in Priority
  {
    forall k: ServiceKey ensures k in Priority {
      match k
      case CodePipeline => assert Priority[0] == k;
      case ElasticBeanstalk => assert Priority[1] == k;
      case CloudWatch => assert Priority[2] == k;
      case CodeDeploy => assert Priority[3] == k;
      case ElastiCache => assert Priority[4] == k;
      case AutoScaling => assert Priority[5] == k;
    }
  }

  /** The catch-all is chosen exactly when no signature occurs. */
  lemma ClassifyCatchAll(arn: string, subject: string, message: string)
    ensures Classify(arn, subject, message) == CatchAll <==>
      forall j :: 0 <= j < |Priority| ==> !Occurs(Priority[j], arn, subject, message)
  {
    ClassifyIsFirstOccurring(arn, subject, message);
    var r := Classify(arn, subject, message);
    if r != CatchAll {
      var i :| 0 <= i < |Priority| && Priority[i] == r.key;
      assert Occurs(Priority[i], arn, subject, message);
    }
  }

  lemma {:induction false} FirstOccurringSelects(keys: seq<ServiceKey>, arn: string, subject: string, message: string, i: nat)
    requires i < |keys|
    requires forall a, b :: 0 <= a < b < |keys| ==> keys[a] != keys[b]
    ensures FirstOccurring(keys, arn, subject, message) == Service(keys[i]) <==>
      (Occurs(keys[i], arn, subject, message) &&
       forall j :: 0 <= j < i ==> !Occurs(keys[j], arn, subject, message))
  {
    if i > 0 && !Occurs(keys[0], arn, subject, message) {
      FirstOccurringSelects(keys[1..], arn, subject, message, i - 1);
      forall j | 0 < j < i ensures keys[j] == keys[1..][j - 1] {}
    } else if i > 0 {
      assert keys[0] != keys[i];
    }
  }

  /** Two signatures in one notification: the one earlier in priority order wins. */
  lemma CodePipelineBeforeElasticBeanstalk(arn: string, subject: string, message: string)
    requires Occurs(CodePipeline, arn, subject, message)
    ensures Classify(arn, subject, message) == Service(CodePipeline)
  {
    ClassifySelects(arn, subject, message, 0);
  }
}
