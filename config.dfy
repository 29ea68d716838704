/** The settings module: the service signature table and the three optional settings. */
module Config {
  import opened Wrappers

  /** The services of the table, named as its keys are. */
  datatype ServiceKey = ElasticBeanstalk | CloudWatch | CodePipeline | CodeDeploy | ElastiCache | AutoScaling

  /** The `services` table, in the order it is declared. */
  const Services: seq<ServiceKey> :=
    [ElasticBeanstalk, CloudWatch, CodePipeline, CodeDeploy, ElastiCache, AutoScaling]

  /**
   * A service's `match_text`: the text looked for in the topic, subject or
   * message. None is empty, so no test holds of every notification
   * (`indexOf('')` is 0 on any string).
   */
  function MatchText(k: ServiceKey): (t: string)
    ensures |t| > 0
  {
    match k
    case ElasticBeanstalk => "ElasticBeanstalkNotifications"
    case CloudWatch => "CloudWatchNotifications"
    case CodePipeline => "CodePipelineNotifications"
    case CodeDeploy => "CodeDeploy"
    case ElastiCache => "ElastiCache"
    case AutoScaling => "AutoScaling"
  }

  /**
   * The settings read from the environment: the encrypted webhook URL, the
   * plaintext webhook URL and the sender name; each may be unset.
   */
  datatype Settings = Settings(
    kmsEncryptedHookUrl: Option<string>,
    unencryptedHookUrl: Option<string>,
    fleepUsername: Option<string>)
}
