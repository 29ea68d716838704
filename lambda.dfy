/**
 * `exports.handler`: the module-level `hookUrl` cache, its resolution from
 * the settings, and the disposition of the post's response.
 */
module Lambda {
  import opened Wrappers
  import opened JsText
  import opened JsValue
  import opened Sns
  import opened Config
  import Render
  import Notify

  /** The status line of the webhook's HTTP response. */
  datatype Response = Response(statusCode: nat, statusMessage: string)

  /** How an invocation ends: `context.succeed()`, `context.fail(reason)`, or an uncaught exception. */
  datatype Outcome = Succeeded | Failed(reason: string) | Threw(error: JsError)

  /**
   * The response callback of `processEvent`. Codes below 400 and the 4xx
   * codes succeed (a request the webhook refuses is not retried); 5xx and
   * above fail with the code and status message, so that the invoker retries.
   */
  function Disposition(response: Response): (o: Outcome)
    ensures o == Succeeded <==> response.statusCode < 500
    ensures o.Failed? <==> response.statusCode >= 500
    ensures !o.Threw?
    ensures o.Failed? ==>
      o.reason == "server error when processing message: " + NatToString(response.statusCode) + " - " + response.statusMessage
  {
    if response.statusCode < 400 then Succeeded
    else if response.statusCode < 500 then Succeeded
    else Failed("server error when processing message: " + NatToString(response.statusCode) + " - " + response.statusMessage)
  }

  /** An octet of a Node `Buffer`. */
  type byte = b: int | 0 <= b < 256

  /** What the KMS `decrypt` call reports: the plaintext bytes, or an error. */
  datatype Decrypted = Plaintext(bytes: seq<byte>) | DecryptError

  /** `buffer.toString('ascii')`: each byte with its high bit cleared, as one character. */
  function AsciiText(bytes: seq<byte>): (s: string)
    ensures |s| == |bytes|
    ensures forall i :: 0 <= i < |s| ==> s[i] as int == bytes[i] % 128
  {
    seq(|bytes|, i requires 0 <= i < |bytes| => (bytes[i] % 128) as char)
  }

  /** A setting or cache value that JavaScript treats as true: set and not empty. */
  predicate Truthy(o: Option<string>) {
    o.Some? && o.value != ""
  }

  /** The value the encrypted setting keeps until it is configured. */
  const Placeholder := "<kmsEncryptedHookUrl>"

  /** The encrypted setting is configured: set, not empty, and not the placeholder. */
  predicate HasEncrypted(settings: Settings) {
    Truthy(settings.kmsEncryptedHookUrl) && settings.kmsEncryptedHookUrl.value != Placeholder
  }

  /** Where the resolution of the hook URL leaves the invocation: processing with the cache, or failing early. */
  datatype Resolution = Proceed(hookUrl: Option<string>) | Abort

  /**
   * The `if / else if` chain of `exports.handler`. A cached URL is used as
   * it is; otherwise the plaintext setting is copied into the cache;
   * otherwise a configured encrypted setting is decrypted, and `'https://'`
   * and the plaintext are cached, or, when decryption fails, processing
   * goes on with the cache still empty; otherwise the invocation fails.
   */
  function Resolve(hookUrl: Option<string>, settings: Settings, decrypted: Decrypted): (res: Resolution)
    ensures Truthy(hookUrl) ==> res == Proceed(hookUrl)
    ensures !Truthy(hookUrl) && Truthy(settings.unencryptedHookUrl) ==>
      res == Proceed(settings.unencryptedHookUrl)
    ensures !Truthy(hookUrl) && !Truthy(settings.unencryptedHookUrl) && HasEncrypted(settings) ==>
      res == (match decrypted
              case Plaintext(bytes) => Proceed(Some("https://" + AsciiText(bytes)))
              case DecryptError => Proceed(hookUrl))
    ensures res == Abort <==>
      !Truthy(hookUrl) && !Truthy(settings.unencryptedHookUrl) && !HasEncrypted(settings)
  {
    if Truthy(hookUrl) then Proceed(hookUrl)
    else if Truthy(settings.unencryptedHookUrl) then Proceed(settings.unencryptedHookUrl)
    else if HasEncrypted(settings) then
      match decrypted
      case Plaintext(bytes) => Proceed(Some("https://" + AsciiText(bytes)))
      case DecryptError => Proceed(hookUrl)
    else Abort
  }

  /** A cache that is empty or holds a URL. */
  predicate CacheValid(hookUrl: Option<string>) {
    hookUrl.None? || hookUrl.value != ""
  }

  /** What one invocation does: how it ends, what it posted where, and the cache it leaves. */
  datatype Run = Run(outcome: Outcome, posted: Option<(string, Notify.FleepMessage)>, hookUrl: Option<string>)

  /**
   * `processEvent` with the resolved cache: a handler's exception escapes;
   * with no URL the post cannot even parse its target and throws; otherwise
   * the message is posted to the cached URL and the response decides.
   */
  function Deliver(lib: Render.Lib, records: seq<Record>, settings: Settings, hookUrl: Option<string>,
                   response: Response): (run: Run)
    ensures run.hookUrl == hookUrl
    ensures run.posted.Some? <==> Notify.Process(lib, records, settings).Ok? && hookUrl.Some?
    ensures run.posted.Some? ==> run.posted.value == (hookUrl.value, Notify.Process(lib, records, settings).value)
    ensures run.posted.Some? ==> run.outcome == Disposition(response)
    ensures run.posted.None? ==> run.outcome.Threw?
  {
    match Notify.Process(lib, records, settings)
    case Err(e) => Run(Threw(e), None, hookUrl)
    case Ok(message) =>
      if hookUrl.None? then Run(Threw(TypeError), None, hookUrl)
      else Run(Disposition(response), Some((hookUrl.value, message)), hookUrl)
  }

  /**
   * `exports.handler`: resolve the URL, then process, or fail with
   * `'hook url has not been set.'`. End to end: a message is posted only to
   * the URL left in the cache, and then the response decides; a cached URL
   * is kept; the invocation fails for want of a URL exactly when no setting
   * applies; and the cache stays empty or a URL.
   */
  function Invoke(lib: Render.Lib, records: seq<Record>, settings: Settings, hookUrl: Option<string>,
                  decrypted: Decrypted, response: Response): (run: Run)
    ensures Resolve(hookUrl, settings, decrypted) == Abort ==>
      run == Run(Failed("hook url has not been set."), None, hookUrl)
    ensures Resolve(hookUrl, settings, decrypted).Proceed? ==>
      run == Deliver(lib, records, settings, Resolve(hookUrl, settings, decrypted).hookUrl, response)
    ensures run.posted.Some? ==>
      run.hookUrl.Some? && run.posted.value.0 == run.hookUrl.value && run.outcome == Disposition(response)
    ensures run.posted.Some? <==> (Notify.Process(lib, records, settings).Ok? && run.hookUrl.Some? &&
      Resolve(hookUrl, settings, decrypted).Proceed?)
    ensures run.posted.Some? ==> run.posted.value.1 == Notify.Process(lib, records, settings).value
    ensures Truthy(hookUrl) ==> run.hookUrl == hookUrl
    ensures run.outcome == Failed("hook url has not been set.") <==> Resolve(hookUrl, settings, decrypted) == Abort
    ensures CacheValid(hookUrl) ==> CacheValid(run.hookUrl)
  {
    match Resolve(hookUrl, settings, decrypted)
    case Abort => Run(Failed("hook url has not been set."), None, hookUrl)
    case Proceed(url) => Deliver(lib, records, settings, url, response)
  }

  /** Every resolution keeps the cache empty or holding a URL. */
  lemma ResolveKeepsCacheValid(hookUrl: Option<string>, settings: Settings, decrypted: Decrypted)
    requires CacheValid(hookUrl)
    ensures Resolve(hookUrl, settings, decrypted).Proceed? ==> CacheValid(Resolve(hookUrl, settings, decrypted).hookUrl)
  {
  }

  /**
   * Once a URL is cached it stays: a later invocation uses it whatever the
   * settings and whatever decryption would report.
   */
  lemma CachedUrlSticks(hookUrl: Option<string>, settings: Settings, decrypted: Decrypted, url: string,
                        later: Settings, laterDecrypted: Decrypted)
    requires CacheValid(hookUrl)
    requires Resolve(hookUrl, settings, decrypted) == Proceed(Some(url))
    ensures Resolve(Some(url), later, laterDecrypted) == Proceed(Some(url))
  {
  }

  /** A decrypted URL is `https://` and seven-bit text. */
  lemma DecryptedUrl(settings: Settings, bytes: seq<byte>)
    requires !Truthy(settings.unencryptedHookUrl) && HasEncrypted(settings)
    ensures var url := Resolve(None, settings, Plaintext(bytes)).hookUrl.value;
      "https://" <= url && |url| == 8 + |bytes| && forall i :: 8 <= i < |url| ==> url[i] as int < 128
  {
    var url := "https://" + AsciiText(bytes);
    assert forall i :: 8 <= i < |url| ==> url[i] == AsciiText(bytes)[i - 8];
  }

  /** The Lambda container: the module-level `hookUrl` that outlives one invocation. */
  class Container {
    var hookUrl: Option<string>

    predicate Valid()
      reads this
    {
      CacheValid(hookUrl)
    }

    /** A fresh container: nothing cached yet. */
    constructor()
      ensures hookUrl == None
      ensures Valid()
    {
      hookUrl := None;
    }

    /** One invocation of `exports.handler`, updating the cache as it resolves the URL. */
    method Handler(lib: Render.Lib, records: seq<Record>, settings: Settings, decrypted: Decrypted,
                   response: Response) returns (outcome: Outcome, posted: Option<(string, Notify.FleepMessage)>)
      requires Valid()
      modifies this
      ensures Valid()
      ensures Run(outcome, posted, hookUrl) == Invoke(lib, records, settings, old(hookUrl), decrypted, response)
    {
      if Truthy(hookUrl) {
      } else if Truthy(settings.unencryptedHookUrl) {
        hookUrl := settings.unencryptedHookUrl;
      } else if HasEncrypted(settings) {
        match decrypted
        case Plaintext(bytes) =>
          hookUrl := Some("https://" + AsciiText(bytes));
        case DecryptError =>
      } else {
        outcome, posted := Failed("hook url has not been set."), None;
        return;
      }
      var run := Deliver(lib, records, settings, hookUrl, response);
      outcome, posted := run.outcome, run.posted;
    }
  }
}
