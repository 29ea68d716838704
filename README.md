# lambda-cloudwatch-fleep, modelled in Dafny

This project models the core of lambda-cloudwatch-fleep. It is an AWS Lambda function that receives an SNS notification and decides which AWS service sent it. It renders a chat message with a severity tag, and posts it to a Fleep webhook. The model covers five parts of `index.js` and `config.js`:

- the `services` signature table and the three settings (`config.js`);
- the classification chain of `processEvent`;
- the seven `handle*` renderers, each with its severity rules, its text layout and the exceptions it throws;
- the disposition of the webhook's HTTP status code;
- the module-level `hookUrl` cache that `exports.handler` fills from the settings.

Modules, one per file:

- `Wrappers`: `Option` and `Result`.
- `JsText`:
  - `indexOf`, `split` and the decimal text of a natural number;
  - a substring predicate, `Contains`;
  - the round-trip lemmas of `split` and `join`.
- `JsValue`: the JavaScript values that `JSON.parse` can produce, plus `undefined`. Objects keep their own properties in `for...in` order. It also defines:
  - property reads, which throw a TypeError on `null` or `undefined`;
  - string conversion (`'' + v`), which throws a TypeError when a parsed object has its own `toString` key;
  - `for...in` enumeration.
- `Uri`: `encodeURIComponent` as section 18.2.6.5 of ECMAScript 2015 defines it, with UTF-8 escapes of every character outside the unreserved set. It also has a decoder, and `DecodeEncode` proves that decoding gives every string back.
- `Config`: the signature table and the settings.
- `Sns`: the notification record, with its subject that may be unset or null.
- `Classifier`: the `if / else if` chain, and its relation to a reference "first signature that occurs" search.
- `Render`: the renderers as functions of the record and of the library calls they make. The library calls are `JSON.parse`, `JSON.stringify` and the date conversion, bundled as `Lib`.
  - Each renderer returns the status and the text, or the exception it throws.
  - `try`/`catch` is modelled as a match on that result.
- `RenderProps`: what the renderers promise: severities, fallbacks, where exceptions arise, and where labelled values sit in the text.
- `Notify`: `processEvent` up to the post. It picks the first record and classifies it, runs the handler, and attaches the `user` setting.
- `Handlers`: the same handlers in the step-by-step form the source uses:
  - `status` and `changeType` are reassigned as the tests run;
  - the ElastiCache `for...in` loop breaks at the first key;
  - the catch-all description loop accumulates one line per key.

  Each method is proved equal to its function in `Render` or `Notify`.
- `Lambda`:
  - the response disposition;
  - the resolution of the hook URL;
  - one invocation as a function;
  - the class `Container`, whose field `hookUrl` outlives invocations and whose `Handler` method updates it.

Behaviours of the code worth noting, all kept in the model:

- **Elastic Beanstalk severity.** The warning test runs after the danger test and overwrites it. A message that turns RED and also turns YELLOW is therefore only a warning (`Render.EbWarningOverridesDanger`).
- **Elastic Beanstalk parsing.** The handler calls `JSON.parse` on the message, so a message that is not JSON throws a SyntaxError.
- **Elastic Beanstalk timestamp.** Its text has no timestamp line.
- **CodePipeline fallback.** The `catch` block reads `detail.state` of the raw string and throws a TypeError. So CodePipeline has no degraded message: every failure in it is a TypeError.
- **Decryption error.** The settings are not tried again after a failed decryption. Processing goes on with the cache still empty, and the post then throws because it has no URL.
- **Username.** The `user` field is whatever `FLEEP_USERNAME` holds, possibly unset.

## Model

The `Render.*With` functions (`ElastiCacheWith`, `CatchAllWith` and the like) are the second halves of the renderers, after the message is parsed and its early fields are read; what they do is stated through the renderer rows that use them, such as `Render.ElastiCache`, `RenderProps.ElastiCacheOutcome`, `Render.CatchAll` and `RenderProps.CatchAllOutcome`.

| member | source | states |
|---|---|---|
| Config.MatchText | config.js:7-32 | every `match_text` signature is non-empty, so no service's test holds of every notification |
| Sns.SubjectOr | index.js:320 | `Subject || fallback` agrees with the text `'' + Subject` on every subject value JavaScript treats as true, and is the fallback on the false ones (unset, null, empty); it is never empty when the fallback is not |
| Sns.SubjectText | index.js:110 | `'' + Sns.Subject` is JavaScript's string conversion of the subject's value: `'undefined'`, `'null'` or the text |
| JsText.IndexOf | index.js:54-69 | `indexOf` returns -1 exactly when the needle does not occur; otherwise it returns an index where it occurs, with no earlier occurrence |
| JsText.SplitField | index.js:194 | `split(sep)[i]` is a piece exactly when `i` is below the piece count; it is then the `i`-th piece of `Split`, which holds no separator |
| JsText.JoinSplit | index.js:207 | joining the pieces of `split` with the separator gives the string back |
| JsText.SplitJoin | index.js:207 | splitting the join of separator-free pieces gives the pieces back |
| JsValue.Get | index.js:223-228 | a property read throws a TypeError exactly on null or undefined; on an object it gives the own property's value (`Lookup`), or `undefined` for a missing key; on any other primitive, `undefined` |
| JsValue.ToStr | index.js:111 | string conversion never throws on a primitive and gives `'undefined'`, `'null'`, `'true'`/`'false'`, the number's or string's text; an array is joined with commas; an object gives `'[object Object]'`, or throws a TypeError exactly when it has its own `toString` |
| JsValue.ForIn | index.js:198-202 | `for...in` visits exactly an object's own properties, in order, each key one it owns; for an array or string, one pair per index with pairwise distinct keys and the element at that index; nothing for other values |
| Uri.EncodeURIComponent | index.js:250 | every character of the encoding is unreserved, `%` or an upper-case hex digit |
| Uri.DecodeEncode | index.js:250 | decoding the percent-encoding of any string gives that string back |
| Uri.DecodeHead | index.js:250 | the decoder never yields a surrogate, and never accepts a UTF-8 sequence longer than the shortest form of its code point |
| Uri.OverlongRefused | index.js:250 | the decoder refuses the overlong escape `%C0%80`, as `decodeURIComponent` does |
| Classifier.Classify | index.js:323-349 | a chosen service's `indexOf` test holds; the catch-all is chosen exactly when no entry of the `services` table is hit |
| Classifier.ClassifyRecord | index.js:319-349 | a record's chosen service has its signature in the ARN, the subject (or `'no subject'`) or the message; the catch-all exactly when no table entry's signature does |
| Classifier.ChainTestsTable | index.js:323-346 | the chain tests every entry of the `services` table, each exactly once |
| Classifier.HitIsOccurs | index.js:323 | an `indexOf(...) > -1` test on the three fields is the substring test |
| Classifier.ClassifyIsFirstOccurring | index.js:319-349 | the chain returns the first service, in priority order, whose signature occurs, or the catch-all |
| Classifier.ClassifySelects | index.js:319-349 | service `Priority[i]` is chosen exactly when its signature occurs and no earlier service's does |
| Classifier.ClassifyCatchAll | index.js:347-349 | the catch-all is chosen exactly when no signature occurs in the ARN, the subject (or `'no subject'`) or the message |
| Classifier.CodePipelineBeforeElasticBeanstalk | index.js:323-330 | a notification carrying the CodePipeline signature goes to CodePipeline even when another signature occurs too |
| Classifier.FirstOccurring | index.js:319-349 | the reference search: a chosen service is in the list and occurs; the catch-all means none occurs |
| Render.HeaderShowsStatus | index.js:8-12 | the severity can be read off a message's opening characters: two equal texts carry equal severities |
| Render.Parse | index.js:82 | `JSON.parse` throws a SyntaxError exactly when the text is not JSON |
| Render.StateStatus | index.js:102-106 | SUCCEEDED gives GOOD, FAILED gives DANGER, and any other state gives WARNING, both ways |
| Render.AlarmStatus | index.js:231-235 | ALARM gives DANGER, OK gives GOOD, and any other state gives WARNING, both ways |
| Render.EbStatus | index.js:54-78 | GOOD iff no phrase occurs; DANGER iff a danger phrase and no warning phrase occurs; WARNING iff a warning phrase occurs |
| Render.MentionsIsContainsAny | index.js:73-76 | the `indexOf != -1` disjunctions are the substring tests over the phrase lists |
| Render.EbWarningOverridesDanger | index.js:73-78 | a message that turns RED and turns YELLOW is a WARNING |
| Render.ElasticBeanstalk | index.js:50-89 | the handler throws a SyntaxError exactly when the message is not JSON; a message it renders has the phrase-test status |
| Render.ElasticBeanstalkWith | index.js:80-82 | the handler throws a SyntaxError exactly when the message is not JSON; its text starts with the header of the status and subject |
| Render.CodeDeployTry | index.js:99-116 | the `try` block throws a SyntaxError on a message that is not JSON, otherwise only TypeErrors; its status follows the `status` field |
| Render.CodeDeployWith | index.js:108-115 | composing the text throws a TypeError exactly when the message or one of its four fields does not convert; the status is the one given |
| Render.CodeDeployFallback | index.js:117-126 | the `catch` message is GOOD and opens with the CodeDeploy header |
| Render.CodeDeploy | index.js:99-126 | CodeDeploy never throws |
| Render.PipelineChange | index.js:146-160 | computing the label and status throws only TypeErrors; the status follows `detail.state` |
| Render.CodePipelineWith | index.js:162-169 | composing the text throws only TypeErrors and keeps the status given |
| Render.CodePipelineTry | index.js:144-170 | the `try` block throws a SyntaxError on a message that is not JSON, otherwise only TypeErrors; its status follows `detail.state` |
| Render.CodePipelineCatch | index.js:171-180 | the `catch` block of CodePipeline always throws a TypeError |
| Render.CodePipeline | index.js:144-180 | CodePipeline throws exactly when its `try` block does, and then with a TypeError |
| Render.ElastiCache | index.js:190-216 | ElastiCache is GOOD; a SyntaxError on a message that is not JSON, otherwise only TypeErrors |
| Render.CloudWatch | index.js:218-257 | CloudWatch throws a SyntaxError on a message that is not JSON, otherwise only TypeErrors; its status follows `NewStateValue` |
| Render.AutoScaling | index.js:259-279 | AutoScaling is GOOD; a SyntaxError on a message that is not JSON, otherwise only TypeErrors |
| Render.CatchAll | index.js:281-314 | the catch-all throws a SyntaxError on a message that is not JSON, otherwise only TypeErrors; its status follows `NewStateValue` |
| RenderProps.ElasticBeanstalkOutcome | index.js:50-89 | SyntaxError iff the message is not JSON; success iff it parses to a convertible value; the status is the phrase-test status |
| RenderProps.CodeDeploySeverity | index.js:96-126 | on a parse or evaluation failure the message is the GOOD fallback; otherwise the status follows the `status` field |
| RenderProps.CodeDeployFallbackLayout | index.js:117-126 | the fallback is GOOD and is only the header, the SNS subject, the raw message and the time: it starts with the header followed by the subject, and ends with the raw message on its own line followed by the timestamp line |
| RenderProps.CodeDeployLines | index.js:108-115 | the text holds the deployment group line, the application line and the console link ending with the deployment id |
| RenderProps.PipelineChangeRules | index.js:141-160 | the label is empty, `STAGE <stage>`, `ACTION` or empty for pipeline, stage, action and other events; the status follows `detail.state`; the failure conditions are exact and the errors are TypeErrors |
| RenderProps.CodePipelineOutcome | index.js:144-180 | a message that is not JSON gives a TypeError, not a SyntaxError; success iff the parsed message evaluates; the status follows `detail.state` |
| RenderProps.CodePipelineLines | index.js:162-169 | the text holds the state line with the change label and ends with the pipeline's console link and the timestamp |
| RenderProps.ElastiCacheOutcome | index.js:190-216 | always GOOD; SyntaxError on a message that is not JSON; TypeError when the parsed value has no key; success iff there is a key and the value and body convert |
| RenderProps.ElastiCacheLines | index.js:194-210 | the event is the second `':'` field of the first key, the node is its value, and the link carries the ARN's fourth field and closes with the node |
| RenderProps.CloudWatchOutcome | index.js:218-251 | SyntaxError on a message that is not JSON; TypeError on a null alarm or `Trigger`; success iff every read value converts; the status follows `NewStateValue` |
| RenderProps.CloudWatchLink | index.js:250-251 | the message ends with the alarm link, which holds the percent-encoded alarm name; the name decodes back |
| Render.CloudWatchWith | index.js:237-256 | once the alarm's parts are read, the text is built exactly when the message, the alarm name, the reason, the trigger line and both states convert; it can fail only with a TypeError, and the text is the CloudWatch layout of those converted values |
| Render.TriggerText | index.js:242-247 | the trigger line is built exactly when its six values convert |
| RenderProps.AutoScalingOutcome | index.js:259-279 | always GOOD; SyntaxError on a message that is not JSON; success iff the message and its three fields convert |
| RenderProps.AutoScalingLines | index.js:266-273 | the text holds the description and event lines, and ends with the cause line and the timestamp |
| RenderProps.CatchAllOutcome | index.js:281-307 | SyntaxError on a message that is not JSON; success iff the parsed value is not null and converts; the status follows `NewStateValue` |
| RenderProps.CatchAllDescription | index.js:303-307 | the catch-all text ends with the description of the enumerated pairs and the timestamp line |
| RenderProps.DescriptionConcat | index.js:295-301 | describing two runs of pairs gives the first description followed by the second |
| RenderProps.DescriptionIsLines | index.js:295-301 | the accumulated description is exactly one line per pair, in enumeration order |
| RenderProps.EveryPairDescribed | index.js:295-301 | every pair's line occurs in the description, after the lines of the earlier pairs |
| RenderProps.LineShows | index.js:297-300 | objects, arrays and null are shown as their JSON text, and other values as they convert |
| Notify.Dispatch | index.js:323-349 | whichever handler a route runs, an escaping exception is a TypeError or the SyntaxError of a message that is not JSON; the CodeDeploy route never throws |
| Notify.Process | index.js:316-349 | an empty delivery throws a TypeError; otherwise the result succeeds iff the chosen handler does; the `user` is the setting |
| Notify.FirstRecordOnly | index.js:319-321 | only the first record of a delivery matters |
| Notify.ProcessSelects | index.js:323-346 | the posted message is rendered by the handler of the first service whose signature occurs |
| Notify.ProcessCatchAll | index.js:347-349 | with no signature present, the catch-all renders the message |
| Notify.ProcessErrors | index.js:316-349 | every escaping exception is a TypeError, or a SyntaxError of a message that is not JSON |
| Handlers.ElasticBeanstalkStatus | index.js:54-78 | the fifteen `indexOf` tests and two reassignments compute the Elastic Beanstalk severity |
| Handlers.MentionsUnrolled | index.js:73-76 | the two phrase lists are tested phrase by phrase |
| Handlers.StateStatusOf | index.js:96-106 | the stepwise reassignment gives the state status |
| Handlers.AlarmStatusOf | index.js:229-235 | the stepwise reassignment gives the alarm status |
| Handlers.HandleElasticBeanstalk | index.js:50-89 | the handler renders the Elastic Beanstalk message |
| Handlers.CodeDeployAttempt | index.js:99-116 | the `try` block of CodeDeploy |
| Handlers.HandleCodeDeploy | index.js:91-134 | the handler renders the CodeDeploy message and never throws |
| Handlers.CodePipelineChange | index.js:140-160 | the stepwise label and status are the ones `PipelineChangeRules` describes |
| Handlers.CodePipelineAttempt | index.js:144-170 | the `try` block of CodePipeline |
| Handlers.HandleCodePipeline | index.js:136-188 | the handler renders the CodePipeline message |
| Handlers.FirstEntry | index.js:198-202 | the loop that breaks at once yields nothing exactly for an empty enumeration, else its first pair |
| Handlers.HandleElastiCache | index.js:190-216 | the handler renders the ElastiCache message |
| Handlers.HandleCloudWatch | index.js:218-257 | the handler renders the CloudWatch message |
| Handlers.Describe | index.js:295-301 | the accumulating loop yields the description, one line per pair in order |
| Handlers.HandleCatchAll | index.js:281-314 | the handler renders the catch-all message |
| Handlers.RunHandler | index.js:323-349 | the branch of the chain runs the handler of its route |
| Handlers.ProcessEvent | index.js:316-349 | the stepwise `processEvent` computes `Notify.Process` |
| Lambda.Disposition | index.js:351-363 | codes below 500, including 4xx, succeed; 500 and above fail with the code and status message |
| Lambda.AsciiText | index.js:382 | `'ascii'` decoding keeps the length and clears the high bit of every byte |
| Lambda.Resolve | index.js:366-388 | a cached URL is kept; else the plaintext setting is taken; else a configured encrypted setting is decrypted, caching `https://` and the plaintext or, on error, nothing; the invocation aborts iff none applies |
| Lambda.Deliver | index.js:351-363 | a message is posted to the cached URL exactly when rendering succeeds and a URL is cached, and then the response decides; otherwise the invocation throws |
| Lambda.Invoke | index.js:366-388 | a message is posted only to the URL left in the cache, exactly when some setting applies, a URL is cached and rendering succeeds, and then the response decides; a cached URL is kept; the invocation fails with `hook url has not been set.` exactly when no setting applies; the cache stays empty or a URL |
| Lambda.ResolveKeepsCacheValid | index.js:367-385 | the cache is always empty or a non-empty URL |
| Lambda.CachedUrlSticks | index.js:367-368 | once a URL is cached, every later invocation uses it, whatever the settings and decryption |
| Lambda.DecryptedUrl | index.js:382 | a decrypted URL is `https://` followed by one seven-bit character per plaintext byte |
| Lambda.Container.constructor | index.js:6 | a fresh container has nothing cached |
| Lambda.Container.Handler | index.js:366-388 | one invocation updates the cache and ends as `Invoke` says, and the cache stays valid |

## Left out

- `postMessage` (`index.js:18-48`) is network I/O. The model takes the HTTP response (status code and status message) as an input. With no URL cached, `url.parse(undefined)` throws, and the model gives that as a TypeError.
- The KMS `decrypt` call and the base64 decoding of the encrypted setting are a foreign, asynchronous call. Their outcome is an input: plaintext bytes or an error.
- `JSON.parse` and `JSON.stringify` are library calls, parameters of `Lib`. The parse result is not constrained further. In particular, the model assumes the parser already lists an object's own properties in `for...in` order. It does not model how duplicate keys are resolved or that integer-like keys are enumerated first.
- `new Date(t).getTime() / 1000` is date parsing and floating-point division. It is an opaque `Lib.epochSeconds` text.
- A number's text (`Num`) is the text JavaScript would print for it, carried as given.
- `console.log`, `console.info` and `console.error` are logging, including the `JSON.stringify(event, null, 2)` at line 317.
- `process.env` reads become the `Settings` value.
- lodash `_.merge` is modelled only as attaching `user`.
- `context.succeed` and `context.fail` become `Outcome` values.
- Exceptions are modelled as the invocation ending with `Threw`. The Lambda runtime's reporting of them is not modelled.
- The order of the asynchronous callbacks is not modelled; an invocation is one sequential step. Two such steps never overlap in the model, so concurrent invocations sharing the cache are not modelled.
- Strings are sequences of Unicode scalar values, while JavaScript strings are UTF-16 code units. So:
  - indices from `indexOf` and string `for...in`, and the pieces of `split`, count characters rather than code units;
  - lone surrogates, on which `encodeURIComponent` throws a URIError, cannot be represented.
- Property reads see only own properties, and string conversion treats an own `toString` as hiding the inherited one. This holds for every name the handlers read. Properties inherited from `Object.prototype` are not modelled.
- Each record field (`EventSubscriptionArn`, `Sns.Message`, `Sns.Timestamp`) is a string. A record whose fields are missing or not strings, which would make `indexOf` or `split` throw, is not modelled.
- `handleAutoScaling` reassigns nothing. It has no method form, and `Render.AutoScaling` is used directly.
