# Convert handler: a Dafny model

This project models the request pipeline of the `/api/convert` serverless handler
(`api/convert.js`). The handler turns a tweet-style text into Xiaohongshu-style copy by
calling the DeepSeek chat-completion API for an authenticated user who still has daily
quota. The handler works as follows:

1. It answers a CORS pre-flight and rejects every method but `POST`.
2. It reads a `Bearer` token and verifies it with Supabase auth.
3. It loads the caller's profile. When the row is missing (error `PGRST116`), it creates
   one with a daily quota of 5 and reads it back.
4. It refuses callers whose quota is used up. This happens before it looks at the text.
5. It checks the text (empty, or shorter than 5 characters after trimming) and then the
   API key.
6. It calls the provider. A non-ok reply is classified by HTTP status.
7. On success it writes the quota less one and a usage-log row. It ignores failures of
   either write and returns 200 with the converted text.

Anything thrown inside the outer `try` becomes a 500. The code comes from a fixed-order
check of the error's name and message.

Files:

- `wrappers.dfy`: `Option`.
- `js_string.dfy` (module `JsString`): the ECMAScript string operations the handler uses:
  `trim` (with the exact WhiteSpace and LineTerminator set), `startsWith`, `indexOf`,
  `includes`, `replace` with a string pattern and a literal replacement (the handler
  passes `""`), `substring(0, n)`, and decimal rendering.
- `handler.dfy` (module `Handler`): the data model and the pipeline. `Handle(req, env)` is
  a pure function. `env: Services` holds the outcome of each external call. Each outcome
  is either a returned value or a thrown `JsError`. The result is the `Response` plus the
  list of external calls issued, in order (`effects`). Each stage is its
  own function (`OnVerified`, `OnProfile`, `OnCreated`, `OnReselected`, `CheckQuota`,
  `ReadInput`, `OnCompletion`, `Record`). The two classification blocks keep the source's
  form: `ClassifyProviderError` and `ClassifyException` reassign their locals step by step.
  Each is proved equal to the function the pipeline uses. The exception classification is
  specified by a precedence table of rules, where the first rule that fires wins.
- `handler_properties.dfy` (module `HandlerProperties`): lemmas over `Handle`, both for
  all inputs and branch by branch.

## Model

| member | source | states |
|---|---|---|
| JsString.TrimStartSuffix | api/convert.js:135 | `trim` drops a leading run of whitespace: the result is a suffix, everything removed is whitespace, and it does not start with whitespace |
| JsString.TrimEndPrefix | api/convert.js:135 | the same for the trailing run: a prefix, everything removed is whitespace, and it does not end with whitespace |
| JsString.TrimInfix | api/convert.js:143 | `text.trim()` is an infix of the text, with only whitespace around it and no whitespace at either end |
| JsString.TrimEmptyIff | api/convert.js:135 | `text.trim().length === 0` holds exactly when every character is whitespace |
| JsString.IndexOf | api/convert.js:36 | the search `replace` does returns the least index where the pattern occurs, or none when there is no occurrence |
| JsString.ContainsIff | api/convert.js:289-295 | `includes` (the fragment occurs at some index) agrees with the `indexOf` search |
| JsString.ReplaceLeading | api/convert.js:36 | replacing a leading pattern with "" removes exactly that prefix |
| JsString.Prefix | api/convert.js:245-246 | `substring(0, n)` is the prefix of length `min(n, length)`: the whole string when it is short enough, exactly `n` characters otherwise |
| JsString.DecimalString | api/convert.js:207 | `${status}` gives canonical decimal digits that denote the status |
| Handler.BearerTokenIff | api/convert.js:28-36 | a header yields a token exactly when it starts with "Bearer ", and the token is the header without its first 7 characters |
| Handler.QuotaGate | api/convert.js:91-121 | `quota \|\| 0` is positive exactly for a positive number; whatever the `<= 0` test after the read-back refuses, the gate at line 121 refuses too (an `undefined` quota passes the first and is caught by the second) |
| Handler.ValidateTextCases | api/convert.js:133-149 | missing, falsy or all-whitespace text is blank; a trimmed length of 1 to 4 is too short; a truthy non-string cannot be trimmed; otherwise the untrimmed text is accepted |
| Handler.ClassifyProviderError | api/convert.js:190-208 | the reassignments of `errorMessage` and `errorCode` give the code and message of the provider-error functions |
| Handler.ProviderErrorClasses | api/convert.js:194-208 | RATE_LIMITED exactly for 429 and AI_AUTH_FAILED exactly for 401, each with a readable body and with its fixed message; AI_SERVICE_ERROR otherwise, with `error.message`, else the serialized body, else "HTTP <status>" as the message; a body that does not parse (or is `null`) gives AI_SERVICE_ERROR with message "HTTP <status>" whatever the status |
| Handler.FirstFiring | api/convert.js:289-298 | the index of the first rule that fires, with none firing before it, or none when no rule fires |
| Handler.ClassifyException | api/convert.js:285-298 | the catch block's reassignments give status 500 and the code and message of the first firing rule of the precedence table, else UNKNOWN_ERROR with the error's own message |
| Handler.ExceptionPrecedence | api/convert.js:289-298 | NETWORK_ERROR exactly for a `FetchError` name or a message containing "fetch"; otherwise TIMEOUT for "timeout"; otherwise PARSE_ERROR for "JSON"; otherwise UNKNOWN_ERROR, which keeps the message |
| Handler.ConvertedText | api/convert.js:219 | the converted text is the provider's content when it is non-empty, and the fixed placeholder otherwise; it is never empty |
| Handler.MaskId | api/convert.js:273 | the returned ID is the first (at most) 8 characters of the user ID followed by "..." |
| Handler.LogEntry | api/convert.js:241-253 | the log row's `input_text` and `output_text` are prefixes of at most 5000 and 10000 characters, kept whole when short enough and exactly 5000 (10000) characters long otherwise; the metadata lengths are the full untruncated lengths; the model is `deepseek-chat` |
| HandlerProperties.HandleDisciplined | api/convert.js:10-307 | the reply to a non-POST method makes no call and has no `success` field; every reply to a POST is an error or a conversion and keeps these rules: an error's status matches its code; the quota is written exactly once, on success, with the value reported, and never below 0; the provider is called at most once, only for accepted text with a configured key, and always before a success |
| HandlerProperties.QuotaWrittenOnlyOnSuccess | api/convert.js:224-233 | a quota write happens if and only if the reply is a success, and then it writes the `remaining` the reply reports, which is at least 0 |
| HandlerProperties.ProviderCalledOnlyWhenReady | api/convert.js:133-165 | the provider is called only for a POST whose text passed both checks, with a configured key |
| HandlerProperties.StatusMatchesCode | api/convert.js:29-214 | every error reply has the HTTP status its code calls for: 401, 403, 404, 400 or 500 |
| HandlerProperties.MethodGuard | api/convert.js:17-22 | OPTIONS gets 200 with no body; any other non-POST method gets 405; neither makes an external call, and the outcome of the external calls does not matter |
| HandlerProperties.MissingBearer | api/convert.js:28-34 | a missing header, or one that does not start with "Bearer ", gets 401 AUTH_REQUIRED with no external call |
| HandlerProperties.TokenVerified | api/convert.js:36-47 | the first call verifies the header without "Bearer "; an auth error or a missing user gets 401 INVALID_TOKEN after that call alone |
| HandlerProperties.ProfileBranches | api/convert.js:58-117 | PGRST116 triggers creating a row with `daily_quota_remaining = 5`; a failed create gets 500 PROFILE_CREATE_FAILED; any other select error gets 500 PROFILE_FETCH_FAILED; no error and no row gets 404 PROFILE_NOT_FOUND |
| HandlerProperties.ExistingProfileExhausted | api/convert.js:120-128 | an existing profile whose quota is missing, falsy or not positive gets 403 QUOTA_EXHAUSTED with `remaining = 0`, whatever the body holds |
| HandlerProperties.NewProfileExhausted | api/convert.js:85-98 | a created profile that reads back missing, or with a quota that is not a positive number, gets the same 403, whatever the body holds |
| HandlerProperties.BlankTextRejected | api/convert.js:135-141 | blank text gets 400 EMPTY_INPUT with no external call |
| HandlerProperties.ShortTextRejected | api/convert.js:143-149 | a trimmed length of 1 to 4 gets 400 INPUT_TOO_SHORT with no external call |
| HandlerProperties.MissingKeyRejected | api/convert.js:152-160 | accepted text without a non-empty API key gets 500 API_KEY_MISSING with no external call |
| HandlerProperties.CompletionRequested | api/convert.js:133-188 | accepted text with a key is sent untrimmed, with the body's style or "trendy" |
| HandlerProperties.UnreadableBody | api/convert.js:133-135 | an undefined body, or a truthy non-string `text`, throws a TypeError that the outer catch turns into an error reply |
| HandlerProperties.ProviderFailure | api/convert.js:190-215 | a non-ok provider reply gets 500 with the classified code and message and no further call, so there is no quota write |
| HandlerProperties.BookkeepingInvisible | api/convert.js:224-279 | the 200 reply is the same however the quota update goes; it carries the content, quota − 1, the masked ID and the untrimmed lengths; a throwing update skips the log insert |
| HandlerProperties.SignedInSelectsProfile | api/convert.js:36-56 | a verified caller goes on to the profile select for its user ID |
| HandlerProperties.ExistingProfileAdmitted | api/convert.js:115-121 | an existing profile with a positive quota goes on to the input checks with that quota |
| HandlerProperties.CompletionAnswered | api/convert.js:218-219 | an ok reply that has `choices` goes on to the bookkeeping with the content or the placeholder |
| HandlerProperties.BookkeepingWrites | api/convert.js:226-253 | when the update returns, the calls are the quota write of quota − 1 and then the log row |
| HandlerProperties.HappyPath | api/convert.js:24-279 | the complete successful run: its exact reply and its exact sequence of five external calls |
| HandlerProperties.ProviderThrow | api/convert.js:281-305 | a throw from the provider call gets 500 with the classified code and no quota write; a `FetchError` is always NETWORK_ERROR |
| JsString.Trim | api/convert.js:135 | `text.trim()`; specified by `JsString.TrimInfix` and `JsString.TrimEmptyIff` |
| JsString.ReplaceFirst | api/convert.js:36 | `s.replace(pat, rep)` for a string pattern and a literal replacement; specified by `JsString.IndexOf` and `JsString.ReplaceLeading` |
| JsString.Contains | api/convert.js:289-295 | `s.includes(sub)`; specified by `JsString.ContainsIff` |
| Handler.BearerToken | api/convert.js:28-36 | the token taken from the header, or none when the handler rejects it; specified by `Handler.BearerTokenIff` |
| Handler.ValidateText | api/convert.js:133-149 | the verdict of the text checks; specified by `Handler.ValidateTextCases` |
| Handler.ProviderErrorMessage | api/convert.js:191-208 | the `errorMessage` of a non-ok reply; specified by `Handler.ProviderErrorClasses` and `Handler.ClassifyProviderError` |
| Handler.ProviderErrorCode | api/convert.js:192-205 | the `errorCode` of a non-ok reply; specified by `Handler.ProviderErrorClasses` and `Handler.ClassifyProviderError` |
| Handler.ExceptionOutcome | api/convert.js:285-298 | the code and message of a caught error; specified by `Handler.ExceptionPrecedence` and `Handler.ClassifyException` |
| Handler.NewProfileRow | api/convert.js:66-74 | the upserted row: the user's ID and email, quota 5, counters 0, role "user"; specified by `HandlerProperties.ProfileBranches` |
| Handler.Handle | api/convert.js:10-307 | the whole handler, with the method guard of lines 17-22; specified by `HandlerProperties.HandleDisciplined` and `HandlerProperties.MethodGuard` |
| Handler.Authenticate | api/convert.js:27-36 | the bearer check, then the token verification; specified by `HandlerProperties.MissingBearer` and `HandlerProperties.TokenVerified` |
| Handler.OnVerified | api/convert.js:39-56 | what `getUser` answered; specified by `HandlerProperties.TokenVerified`, `HandlerProperties.VerifyThrow` and `HandlerProperties.SignedInSelectsProfile` |
| Handler.OnProfile | api/convert.js:52-117 | what the profile select answered; specified by `HandlerProperties.ProfileBranches`, `HandlerProperties.SelectThrow` and `HandlerProperties.ExistingProfileAdmitted` |
| Handler.OnCreated | api/convert.js:64-89 | what the upsert answered; specified by `HandlerProperties.ProfileBranches` and `HandlerProperties.CreateThrow` |
| Handler.OnReselected | api/convert.js:85-101 | what reading the new profile back gave; specified by `HandlerProperties.NewProfileExhausted`, `HandlerProperties.NewProfileAdmitted` and `HandlerProperties.ReselectThrow` |
| Handler.CheckQuota | api/convert.js:119-128 | the quota gate; specified by `HandlerProperties.ExistingProfileExhausted` and `HandlerProperties.ExistingProfileAdmitted` |
| Handler.ReadInput | api/convert.js:133-165 | the body, the text checks and the key check; specified by `HandlerProperties.BlankTextRejected`, `HandlerProperties.ShortTextRejected`, `HandlerProperties.MissingKeyRejected`, `HandlerProperties.CompletionRequested` and `HandlerProperties.UnreadableBody` |
| Handler.OnCompletion | api/convert.js:190-219 | what the provider answered; specified by `HandlerProperties.ProviderFailure`, `HandlerProperties.ProviderThrow`, `HandlerProperties.BrokenReply` and `HandlerProperties.CompletionAnswered` |
| Handler.Record | api/convert.js:224-279 | the bookkeeping and the 200 reply; specified by `HandlerProperties.BookkeepingWrites` and `HandlerProperties.BookkeepingInvisible` |
| Handler.Caught | api/convert.js:281-305 | the outer catch's 500 reply; specified by `Handler.ExceptionPrecedence` and `Handler.ClassifyException` |
| HandlerProperties.NewProfileAdmitted | api/convert.js:85-121 | a created profile that reads back with a positive quota goes on to the input checks with that read-back quota, after exactly the four calls before it |
| HandlerProperties.VerifyThrow | api/convert.js:39 | a throw from `getUser` (caught by lines 281-305) gets the caught 500 reply after the token verification alone |
| HandlerProperties.SelectThrow | api/convert.js:52-56 | a throw from the profile select (caught by lines 281-305) gets the caught 500 reply after the verification and the select |
| HandlerProperties.CreateThrow | api/convert.js:64-74 | a throw from the upsert (caught by lines 281-305) gets the caught 500 reply after the upsert, with the read-back never issued |
| HandlerProperties.ReselectThrow | api/convert.js:85-89 | a throw from the read-back (caught by lines 281-305) gets the caught 500 reply after the read-back |
| HandlerProperties.BrokenReply | api/convert.js:218-219 | an ok reply that does not parse, is `null` or has no `choices` gets the caught 500 reply for that error, with neither the quota nor the log written |
| Handler.Body.Success | api/convert.js:268 | the `success` field of the reply (`false` at lines 30 and 301, `true` at line 268, absent at line 21); specified by `HandlerProperties.SuccessFlag` |
| HandlerProperties.SuccessFlag | api/convert.js:17-305 | `success` is `true` exactly for the 200 conversion, `false` on every error reply (status 400, 401, 403, 404 or 500), and absent exactly for a non-POST method |
| Handler.StatusFor | api/convert.js:29-214 | the status each error code is sent with; specified by `HandlerProperties.StatusMatchesCode` and `HandlerProperties.HandleDisciplined` |
| Handler.LooseAtMostZero | api/convert.js:91 | JavaScript's `q <= 0` on the read-back quota (true for `null`, false for `undefined`); specified by `Handler.QuotaGate` and `HandlerProperties.NewProfileExhausted` |
| Handler.QuotaOrZero | api/convert.js:120 | `daily_quota_remaining \|\| 0`; specified by `Handler.QuotaGate` |
| Handler.IsOk | api/convert.js:190 | `response.ok`, a 2xx status; specified by `HandlerProperties.ProviderFailure`, `HandlerProperties.BrokenReply` and `HandlerProperties.CompletionAnswered` |
| Handler.Exhausted | api/convert.js:122-127 | the 403 QUOTA_EXHAUSTED reply with `remaining: 0` (also lines 92-97); specified by `HandlerProperties.ExistingProfileExhausted` and `HandlerProperties.NewProfileExhausted` |
| Handler.SuccessReply | api/convert.js:267-279 | the 200 reply; specified by `HandlerProperties.BookkeepingInvisible` and `HandlerProperties.HappyPath` |
| JsString.StartsWith | api/convert.js:28 | `s.startsWith(p)`; specified by `Handler.BearerTokenIff` and `JsString.ReplaceLeading` |
| JsString.TrimStart | api/convert.js:135 | the leading half of `trim`; specified by `JsString.TrimStartSuffix` |
| JsString.TrimEnd | api/convert.js:135 | the trailing half of `trim`; specified by `JsString.TrimEndPrefix` |

## Left out

- Supabase client construction, the CORS headers, `res.status().json()` mechanics and
  `console` logging: framework plumbing with no decisions in it. The `total_used` value read at line 54 is
  only logged (line 130) and is not modelled.
- The DeepSeek request itself: the URL, the prompt template, `temperature`, `max_tokens`
  and the 30-second timeout option. A `RequestCompletion(text, style)` effect stands for
  the request. Its outcome (a throw, a status and the parsed body) is an input.
- JSON parsing is not modelled. The parsed reply body is given as `ReplyBody`: whether it
  parses, whether it is `null`, its `error.message`, its `JSON.stringify` form, and the
  content of `choices[0].message`.
- The usage-log insert's outcome: nothing the handler does depends on it. The model still
  records that the insert was issued.
- `updated_at` timestamps and the `NODE_ENV`-dependent `details` field: they depend on the
  clock and the environment.
- The read-then-write race on `daily_quota_remaining` between concurrent requests. The
  model covers one request at a time.
- Strings are sequences of Unicode code points. JavaScript's `length` and `substring`
  count UTF-16 code units, so lengths differ for characters outside the Basic Multilingual
  Plane.
- The wording of TypeErrors raised by the JavaScript engine (`BodyUndefinedError` and the
  others) follows V8. Only their classification (UNKNOWN_ERROR) matters. A `null` body or
  `choices` gives a message that differs slightly from the one modelled.
- JavaScript values the source does not expect are not modelled: a non-numeric quota, a
  non-string `style`, `content` or `error.message`, and a thrown value that is not an
  `Error`.
- A failed re-read of a newly created profile is ignored by the code (line 85 discards the
  error). It is reported as QUOTA_EXHAUSTED, and the model keeps that behaviour.
