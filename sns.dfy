/** The notification record a handler reads (the first record of the delivery). */
module Sns {
  import opened Wrappers
  import opened JsValue

  /** `Sns.Subject`: unset, `null`, or a string. */
  datatype Subject = Absent | NullSubject | Given(text: string)

  /** One record: `EventSubscriptionArn`, and `Sns.Subject`, `Sns.Message`, `Sns.Timestamp`. */
  datatype Record = Record(subscriptionArn: string, subject: Subject, message: string, timestamp: string)

  /** The JavaScript value the subject field holds. */
  function SubjectValue(s: Subject): Value {
    match s
    case Absent => Undefined
    case NullSubject => Null
    case Given(t) => Str(t)
  }

  /**
   * `Sns.Subject || fallback`: for a subject value JavaScript treats as true
   * (a non-empty string), the text `'' + Sns.Subject` gives too; for the
   * false ones (unset, null, empty), the fallback, where `||` and `+` part ways.
   */
  function SubjectOr(s: Subject, fallback: string): (t: string)
    ensures SubjectValue(s) !in {Undefined, Null, Str("")} ==> t == SubjectText(s)
    ensures SubjectValue(s) in {Undefined, Null, Str("")} ==> t == fallback
    ensures fallback != "" ==> t != ""
  {
    if s.Given? && s.text != "" then s.text else fallback
  }

  /** `'' + Sns.Subject`: the string conversion of the subject's value. */
  function SubjectText(s: Subject): (t: string)
    ensures ToStr(SubjectValue(s)) == Ok(t)
  {
    match s
    case Absent => "undefined"
    case NullSubject => "null"
    case Given(t) => t
  }
}
