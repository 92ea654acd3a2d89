/**
 The `/api/convert` serverless handler: it authenticates the caller with a
 bearer token, loads (or creates) the caller's profile, gates on the daily
 quota, validates the text, asks the DeepSeek chat-completion endpoint to
 rewrite it, then decrements the quota and records a usage log.

 The handler is modelled as the pure function `Handle` from a request and the
 outcomes of the external calls (`Services`) to the response sent and the
 external calls issued, in order (`effects`). Every awaited call may throw;
 a throw is caught by the handler's outer `try` and classified.
 */
module Handler {
  import opened Wrappers
  import opened JsString

  // ---------------------------------------------------------------- codes

  /** The machine-readable error codes of the response envelope. */
  datatype Code =
    | AuthRequired | InvalidToken
    | ProfileCreateFailed | ProfileFetchFailed | ProfileNotFound
    | QuotaExhausted
    | EmptyInput | InputTooShort | ApiKeyMissing
    | RateLimited | AiAuthFailed | AiServiceError
    | NetworkError | Timeout | ParseError | UnknownError
  {
    /** The code as it appears in the JSON body. */
    function Name(): string {
      match this
      case AuthRequired => "AUTH_REQUIRED"
      case InvalidToken => "INVALID_TOKEN"
      case ProfileCreateFailed => "PROFILE_CREATE_FAILED"
      case ProfileFetchFailed => "PROFILE_FETCH_FAILED"
      case ProfileNotFound => "PROFILE_NOT_FOUND"
      case QuotaExhausted => "QUOTA_EXHAUSTED"
      case EmptyInput => "EMPTY_INPUT"
      case InputTooShort => "INPUT_TOO_SHORT"
      case ApiKeyMissing => "API_KEY_MISSING"
      case RateLimited => "RATE_LIMITED"
      case AiAuthFailed => "AI_AUTH_FAILED"
      case AiServiceError => "AI_SERVICE_ERROR"
      case NetworkError => "NETWORK_ERROR"
      case Timeout => "TIMEOUT"
      case ParseError => "PARSE_ERROR"
      case UnknownError => "UNKNOWN_ERROR"
    }
  }

  /** The HTTP status that goes with each code. */
  function StatusFor(c: Code): nat {
    match c
    case AuthRequired | InvalidToken => 401
    case QuotaExhausted => 403
    case ProfileNotFound => 404
    case EmptyInput | InputTooShort => 400
    case _ => 500
  }

  // ------------------------------------------------------------ constants

  const BearerPrefix := "Bearer "
  const MissingProfileCode := "PGRST116"
  const DefaultDailyQuota := 5
  const DefaultStyle := "trendy"
  const MinTextLength := 5
  const LogInputLimit := 5000
  const LogOutputLimit := 10000
  const ModelName := "deepseek-chat"
  const Placeholder := "转换失败，未获得有效回复。"

  const PostOnlyMessage := "只支持POST请求"
  const LoginMessage := "请先登录"
  const ExpiredMessage := "登录已过期，请重新登录"
  const CreateFailedMessage := "用户信息初始化失败"
  const FetchFailedMessage := "获取用户信息失败"
  const NotFoundMessage := "用户信息不存在"
  const ExhaustedMessage := "今日免费次数已用完，请兑换卡密"
  const EmptyMessage := "请输入内容"
  const TooShortMessage := "内容太短，请输入至少5个字符"
  const KeyMissingMessage := "服务器配置错误: 未找到DEEPSEEK_API_KEY"
  const ServiceErrorMessage := "AI服务错误"
  const RateLimitedMessage := "AI服务请求过于频繁，请稍后重试"
  const AiAuthMessage := "AI服务认证失败"
  const NetworkMessage := "网络请求失败，请检查网络连接"
  const TimeoutMessage := "请求超时，请稍后重试"
  const ParseMessage := "数据解析错误"

  // --------------------------------------------------------------- inputs

  /** A thrown JavaScript `Error`. */
  datatype JsError = JsError(name: string, message: string)

  /** What an awaited external call did. */
  datatype Call<T> = Returned(value: T) | Threw(error: JsError)

  /** The `text` property of the body: a string, or another value and whether it is truthy. */
  datatype JsText = Str(s: string) | NonString(truthy: bool)

  /** `style` is `None` when it is `undefined`, which selects the default. */
  datatype RequestBody = RequestBody(text: JsText, style: Option<string>)

  /** `body` is `None` when `req.body` is `undefined` or `null`. */
  datatype Request = Request(httpMethod: string, authorization: Option<string>, body: Option<RequestBody>)

  datatype User = User(id: string, email: string)

  /** `supabase.auth.getUser`: whether `error` was set, and the user if any. */
  datatype AuthReply = AuthReply(failed: bool, user: Option<User>)

  /** A JavaScript value read from `daily_quota_remaining`. */
  datatype QuotaValue = Undefined | Null | Num(n: int)

  datatype Profile = Profile(dailyQuota: QuotaValue)

  datatype DbError = DbError(code: string)

  /** A `.single()` profile select: `data` and `error`. */
  datatype ProfileReply = ProfileReply(data: Option<Profile>, error: Option<DbError>)

  /** An upsert, update or insert: whether it reported an `error`. */
  datatype WriteReply = Written | WriteFailed

  /** `data.choices` of a completion: absent, or the content of its first element if any. */
  datatype Choices = NoChoices | Choices(firstContent: Option<string>)

  /**
   What `response.json()` gives: it throws, or yields JSON `null`, or a value
   with its `error.message` ("" when absent or falsy), its `JSON.stringify`
   form and its `choices`.
   */
  datatype ReplyBody =
    | Unparseable(error: JsError)
    | NullJson
    | JsonValue(errorMessage: string, serialized: string, choices: Choices)

  datatype ProviderReply = ProviderReply(status: nat, body: ReplyBody)

  /** The outcome of every external call the handler may await. */
  datatype Services = Services(
    verifyToken: Call<AuthReply>,
    profile: Call<ProfileReply>,
    create: Call<WriteReply>,
    reselect: Call<Option<Profile>>,
    apiKey: Option<string>,
    completion: Call<ProviderReply>,
    quotaUpdate: Call<WriteReply>)

  // -------------------------------------------------------------- outputs

  datatype UserView = UserView(email: string, id: string)
  datatype Usage = Usage(inputLength: nat, outputLength: nat)

  datatype Body =
    | Empty
    | MethodNotAllowed(error: string)
    | Failure(error: string, code: Code, remaining: Option<int>)
    | Converted(convertedText: string, newRemaining: int, user: UserView, usage: Usage)
  {
    /** The envelope's `success` field, absent from the 405 body. */
    function Success(): Option<bool> {
      match this
      case Empty | MethodNotAllowed(_) => None
      case Failure(_, _, _) => Some(false)
      case Converted(_, _, _, _) => Some(true)
    }
  }

  datatype Response = Response(status: nat, body: Body)

  /** The row the handler upserts for a caller without a profile. */
  datatype ProfileRow = ProfileRow(id: string, email: string, dailyQuotaRemaining: int,
                                   totalQuotaPurchased: int, totalUsed: int, role: string)

  datatype UsageLogEntry = UsageLogEntry(userId: string, inputText: string, outputText: string,
                                         style: string, inputLength: nat, outputLength: nat,
                                         model: string)

  /** An external call the handler issues. */
  datatype Effect =
    | VerifyToken(token: string)
    | SelectProfile(userId: string)
    | CreateProfile(row: ProfileRow)
    | ReselectProfile(userId: string)
    | RequestCompletion(text: string, style: string)
    | UpdateQuota(userId: string, remaining: int)
    | InsertUsageLog(entry: UsageLogEntry)

  datatype Output = Output(response: Response, effects: seq<Effect>)

  // -------------------------------------------------------------- helpers

  /** The token of an `Authorization` header, if it is a bearer header. */
  function BearerToken(header: Option<string>): Option<string> {
    if header.None? || header.value == "" || !StartsWith(header.value, BearerPrefix) then None
    else Some(ReplaceFirst(header.value, BearerPrefix, ""))
  }

  /** A header yields a token exactly when it starts with "Bearer ", and the token is the rest. */
  lemma BearerTokenIff(header: Option<string>, token: string)
    ensures BearerToken(header) == Some(token)
        <==> header.Some? && StartsWith(header.value, BearerPrefix) && token == header.value[7..]
  {
    if header.Some? && StartsWith(header.value, BearerPrefix) {
      ReplaceLeading(header.value, BearerPrefix);
    }
  }

  /** JavaScript's `q <= 0` at line 91: `undefined` compares false, `null` as 0. */
  predicate LooseAtMostZero(q: QuotaValue) {
    match q
    case Undefined => false
    case Null => true
    case Num(n) => n <= 0
  }

  /** `daily_quota_remaining || 0`. */
  function QuotaOrZero(q: QuotaValue): int {
    if q.Num? then q.n else 0
  }

  /** A quota value lets the caller through exactly when it is a positive number. */
  lemma QuotaGate(q: QuotaValue)
    ensures QuotaOrZero(q) > 0 <==> q.Num? && q.n > 0
    ensures LooseAtMostZero(q) ==> QuotaOrZero(q) <= 0
  {
  }

  /** The outcome of checking the `text` property (lines 135-149). */
  datatype TextVerdict = Blank | TooShort | NotAString | Accepted(text: string)

  function ValidateText(t: JsText): TextVerdict {
    match t
    case NonString(truthy) => if !truthy then Blank else NotAString
    case Str(s) =>
      if s == "" || |Trim(s)| == 0 then Blank
      else if |Trim(s)| < MinTextLength then TooShort
      else Accepted(s)
  }

  /**
   The verdicts, each exactly characterised: falsy or all-whitespace text is
   blank, a trimmed length of 1 to 4 is too short, a truthy non-string cannot
   be trimmed, anything else is accepted untrimmed.
   */
  lemma ValidateTextCases(t: JsText)
    ensures var v := ValidateText(t);
      && (v == Blank <==> (t.NonString? && !t.truthy) || (t.Str? && AllWhitespace(t.s)))
      && (v == TooShort <==> t.Str? && 1 <= |Trim(t.s)| < MinTextLength)
      && (v == NotAString <==> t.NonString? && t.truthy)
      && (v.Accepted? <==> t.Str? && |Trim(t.s)| >= MinTextLength)
      && (v.Accepted? ==> v.text == t.s)
  {
    if t.Str? { TrimEmptyIff(t.s); }
  }

  /** `response.ok`. */
  predicate IsOk(status: nat) {
    200 <= status <= 299
  }

  /** The `errorMessage` of a non-ok reply (lines 191-208). */
  function ProviderErrorMessage(status: nat, body: ReplyBody): string {
    if !body.JsonValue? then "HTTP " + DecimalString(status)
    else if status == 429 then RateLimitedMessage
    else if status == 401 then AiAuthMessage
    else if body.errorMessage != "" then body.errorMessage
    else if body.serialized != "" then body.serialized
    else "HTTP " + DecimalString(status)
  }

  /** The `errorCode` of a non-ok reply (lines 191-208). */
  function ProviderErrorCode(status: nat, body: ReplyBody): Code {
    if !body.JsonValue? then AiServiceError
    else if status == 429 then RateLimited
    else if status == 401 then AiAuthFailed
    else AiServiceError
  }

  /** The classification block of lines 191-208 as written, reassigning its two locals. */
  method ClassifyProviderError(status: nat, body: ReplyBody) returns (errorMessage: string, errorCode: Code)
    ensures errorMessage == ProviderErrorMessage(status, body)
    ensures errorCode == ProviderErrorCode(status, body)
  {
    errorMessage := ServiceErrorMessage;
    errorCode := AiServiceError;
    match body {
      case JsonValue(message, serialized, _) =>
        errorMessage := if message != "" then message
                        else if serialized != "" then serialized
                        else "HTTP " + DecimalString(status);
        if status == 429 {
          errorMessage := RateLimitedMessage;
          errorCode := RateLimited;
        } else if status == 401 {
          errorMessage := AiAuthMessage;
          errorCode := AiAuthFailed;
        }
      case _ =>
        // `response.json()` threw, or `null.error` did: the inner `catch`.
        errorMessage := "HTTP " + DecimalString(status);
    }
  }

  /** The provider error code by status; an unreadable body always gives AI_SERVICE_ERROR and "HTTP <status>". */
  lemma ProviderErrorClasses(status: nat, body: ReplyBody)
    ensures ProviderErrorCode(status, body) == RateLimited <==> body.JsonValue? && status == 429
    ensures ProviderErrorCode(status, body) == AiAuthFailed <==> body.JsonValue? && status == 401
    ensures ProviderErrorCode(status, body) == AiServiceError
        <==> !body.JsonValue? || (status != 429 && status != 401)
    ensures !body.JsonValue? ==> ProviderErrorMessage(status, body) == "HTTP " + DecimalString(status)
    ensures body.JsonValue? && status == 429 ==> ProviderErrorMessage(status, body) == RateLimitedMessage
    ensures body.JsonValue? && status == 401 ==> ProviderErrorMessage(status, body) == AiAuthMessage
    ensures body.JsonValue? && status != 429 && status != 401 ==>
      ProviderErrorMessage(status, body)
      == (if body.errorMessage != "" then body.errorMessage
          else if body.serialized != "" then body.serialized
          else "HTTP " + DecimalString(status))
  {
  }

  /** One test of the exception classifier. */
  datatype Probe = NameIs(name: string) | MessageHas(fragment: string)

  predicate ProbeHolds(p: Probe, e: JsError) {
    match p
    case NameIs(n) => e.name == n
    case MessageHas(f) => Contains(e.message, f)
  }

  /** A rule fires when any of its probes holds. */
  datatype Rule = Rule(probes: seq<Probe>, code: Code, message: string)

  predicate Fires(r: Rule, e: JsError) {
    exists i :: 0 <= i < |r.probes| && ProbeHolds(r.probes[i], e)
  }

  /** The exception classification of lines 289-298, in precedence order. */
  const ExceptionRules: seq<Rule> := [
    Rule([NameIs("FetchError"), MessageHas("fetch")], NetworkError, NetworkMessage),
    Rule([MessageHas("timeout")], Timeout, TimeoutMessage),
    Rule([MessageHas("JSON")], ParseError, ParseMessage)
  ]

  /** The first rule that fires. */
  function FirstFiring(rules: seq<Rule>, e: JsError): (r: Option<nat>)
    ensures r.Some? ==> r.value < |rules| && Fires(rules[r.value], e)
    ensures r.Some? ==> forall j :: 0 <= j < r.value ==> !Fires(rules[j], e)
    ensures r.None? ==> forall j :: 0 <= j < |rules| ==> !Fires(rules[j], e)
  {
    if |rules| == 0 then None
    else if Fires(rules[0], e) then Some(0)
    else
      match FirstFiring(rules[1..], e)
      case None => None
      case Some(i) => Some(i + 1)
  }

  /** The code and message of a caught exception: the first firing rule's, else UNKNOWN_ERROR and the message itself. */
  function ExceptionOutcome(e: JsError): (Code, string) {
    match FirstFiring(ExceptionRules, e)
    case Some(i) => (ExceptionRules[i].code, ExceptionRules[i].message)
    case None => (UnknownError, e.message)
  }

  /** The outer `catch` block of lines 285-298 as written, reassigning its three locals. */
  method ClassifyException(e: JsError) returns (statusCode: nat, errorCode: Code, errorMessage: string)
    ensures statusCode == 500
    ensures (errorCode, errorMessage) == ExceptionOutcome(e)
  {
    errorCode := UnknownError;
    errorMessage := e.message;
    statusCode := 500;
    assert ProbeHolds(ExceptionRules[0].probes[0], e) ==> Fires(ExceptionRules[0], e);
    assert ProbeHolds(ExceptionRules[0].probes[1], e) ==> Fires(ExceptionRules[0], e);
    assert ProbeHolds(ExceptionRules[1].probes[0], e) ==> Fires(ExceptionRules[1], e);
    assert ProbeHolds(ExceptionRules[2].probes[0], e) ==> Fires(ExceptionRules[2], e);
    if e.name == "FetchError" || Contains(e.message, "fetch") {
      errorCode := NetworkError;
      errorMessage := NetworkMessage;
    } else if Contains(e.message, "timeout") {
      errorCode := Timeout;
      errorMessage := TimeoutMessage;
    } else if Contains(e.message, "JSON") {
      errorCode := ParseError;
      errorMessage := ParseMessage;
    }
  }

  /** Which code a caught exception gets, in the fixed precedence network, timeout, parse. */
  lemma ExceptionPrecedence(e: JsError)
    ensures ExceptionOutcome(e).0 == NetworkError
        <==> e.name == "FetchError" || Contains(e.message, "fetch")
    ensures ExceptionOutcome(e).0 == Timeout
        <==> !(e.name == "FetchError" || Contains(e.message, "fetch")) && Contains(e.message, "timeout")
    ensures ExceptionOutcome(e).0 == ParseError
        <==> !(e.name == "FetchError" || Contains(e.message, "fetch"))
             && !Contains(e.message, "timeout") && Contains(e.message, "JSON")
    ensures ExceptionOutcome(e).0 == UnknownError
        <==> !(e.name == "FetchError" || Contains(e.message, "fetch"))
             && !Contains(e.message, "timeout") && !Contains(e.message, "JSON")
    ensures ExceptionOutcome(e).0 == UnknownError ==> ExceptionOutcome(e).1 == e.message
  {
    var rules := ExceptionRules;
    assert Fires(rules[0], e) <==> ProbeHolds(rules[0].probes[0], e) || ProbeHolds(rules[0].probes[1], e);
    assert Fires(rules[1], e) <==> ProbeHolds(rules[1].probes[0], e);
    assert Fires(rules[2], e) <==> ProbeHolds(rules[2].probes[0], e);
  }

  /** `data.choices[0]?.message?.content || placeholder`. */
  function ConvertedText(content: Option<string>): (r: string)
    ensures r != ""
    ensures content.Some? && content.value != "" ==> r == content.value
    ensures content.None? || content.value == "" ==> r == Placeholder
  {
    if content.Some? && content.value != "" then content.value else Placeholder
  }

  /** `id.substring(0, 8) + '...'`: the part of the ID the response reveals. */
  function MaskId(id: string): (r: string)
    ensures |r| == (if |id| < 8 then |id| else 8) + 3
    ensures r == id[..|r| - 3] + "..."
  {
    Prefix(id, 8) + "..."
  }

  /** The usage log row of a conversion. */
  function LogEntry(userId: string, text: string, converted: string, style: string): (l: UsageLogEntry)
    ensures |l.inputText| <= LogInputLimit && |l.inputText| <= |text| && l.inputText == text[..|l.inputText|]
    ensures |l.outputText| <= LogOutputLimit && |l.outputText| <= |converted|
            && l.outputText == converted[..|l.outputText|]
    ensures |text| <= LogInputLimit ==> l.inputText == text
    ensures |converted| <= LogOutputLimit ==> l.outputText == converted
    ensures |text| > LogInputLimit ==> |l.inputText| == LogInputLimit
    ensures |converted| > LogOutputLimit ==> |l.outputText| == LogOutputLimit
    ensures l.inputLength == |text| && l.outputLength == |converted|
    ensures l.userId == userId && l.style == style && l.model == ModelName
  {
    UsageLogEntry(userId, Prefix(text, LogInputLimit), Prefix(converted, LogOutputLimit),
                  style, |text|, |converted|, ModelName)
  }

  /** The row upserted for a caller whose profile is missing. */
  function NewProfileRow(user: User): ProfileRow {
    ProfileRow(user.id, user.email, DefaultDailyQuota, 0, 0, "user")
  }

  // TypeErrors the runtime raises inside the handler's `try`.
  const BodyUndefinedError := JsError("TypeError", "Cannot destructure property 'text' of 'req.body' as it is undefined.")
  const TrimNotFunctionError := JsError("TypeError", "text.trim is not a function")
  const NullDataError := JsError("TypeError", "Cannot read properties of null (reading 'choices')")
  const NoChoicesError := JsError("TypeError", "Cannot read properties of undefined (reading '0')")

  // ------------------------------------------------------------- pipeline

  function Emit(e: Effect, o: Output): Output {
    Output(o.response, [e] + o.effects)
  }

  function Reject(status: nat, code: Code, message: string): Output {
    Output(Response(status, Failure(message, code, None)), [])
  }

  function Exhausted(): Output {
    Output(Response(403, Failure(ExhaustedMessage, QuotaExhausted, Some(0))), [])
  }

  /** The outer `catch` (lines 281-306). */
  function Caught(e: JsError): Output {
    var (code, message) := ExceptionOutcome(e);
    Output(Response(500, Failure(message, code, None)), [])
  }

  /** The whole handler (lines 10-307). */
  function Handle(req: Request, env: Services): Output {
    if req.httpMethod == "OPTIONS" then Output(Response(200, Empty), [])
    else if req.httpMethod != "POST" then Output(Response(405, MethodNotAllowed(PostOnlyMessage)), [])
    else Authenticate(req, env)
  }


  /** Lines 27-47: the bearer header, then the token check. */
  function Authenticate(req: Request, env: Services): Output {
    match BearerToken(req.authorization)
    case None => Reject(401, AuthRequired, LoginMessage)
    case Some(token) => Emit(VerifyToken(token), OnVerified(req, env))
  }

  /** Lines 39-47: what `getUser` said. */
  function OnVerified(req: Request, env: Services): Output {
    match env.verifyToken
    case Threw(e) => Caught(e)
    case Returned(a) =>
      if a.failed || a.user.None? then Reject(401, InvalidToken, ExpiredMessage)
      else Emit(SelectProfile(a.user.value.id), OnProfile(req, env, a.user.value))
  }

  /** Lines 58-117: what the profile select said. */
  function OnProfile(req: Request, env: Services, user: User): Output {
    match env.profile
    case Threw(e) => Caught(e)
    case Returned(p) =>
      if p.error.Some? then
        if p.error.value.code == MissingProfileCode then
          Emit(CreateProfile(NewProfileRow(user)), OnCreated(req, env, user))
        else Reject(500, ProfileFetchFailed, FetchFailedMessage)
      else if p.data.None? then Reject(404, ProfileNotFound, NotFoundMessage)
      else CheckQuota(req, env, user, p.data.value)
  }

  /** Lines 76-89: what the upsert of a missing profile said. */
  function OnCreated(req: Request, env: Services, user: User): Output {
    match env.create
    case Threw(e) => Caught(e)
    case Returned(w) =>
      if w == WriteFailed then Reject(500, ProfileCreateFailed, CreateFailedMessage)
      else Emit(ReselectProfile(user.id), OnReselected(req, env, user))
  }

  /** Lines 91-101: what reading the new profile back gave. */
  function OnReselected(req: Request, env: Services, user: User): Output {
    match env.reselect
    case Threw(e) => Caught(e)
    case Returned(np) =>
      if np.None? || LooseAtMostZero(np.value.dailyQuota) then Exhausted()
      else CheckQuota(req, env, user, np.value)
  }

  /** Lines 119-128: the quota gate. */
  function CheckQuota(req: Request, env: Services, user: User, profile: Profile): Output {
    var remaining := QuotaOrZero(profile.dailyQuota);
    if remaining <= 0 then Exhausted() else ReadInput(req, env, user, remaining)
  }

  /** Lines 133-160: the body, the text checks and the API key. */
  function ReadInput(req: Request, env: Services, user: User, quota: int): Output
    requires quota > 0
  {
    match req.body
    case None => Caught(BodyUndefinedError)
    case Some(b) =>
      var style := if b.style.Some? then b.style.value else DefaultStyle;
      match ValidateText(b.text)
      case Blank => Reject(400, EmptyInput, EmptyMessage)
      case TooShort => Reject(400, InputTooShort, TooShortMessage)
      case NotAString => Caught(TrimNotFunctionError)
      case Accepted(text) =>
        if env.apiKey.None? || env.apiKey.value == "" then Reject(500, ApiKeyMissing, KeyMissingMessage)
        else Emit(RequestCompletion(text, style), OnCompletion(env, user, quota, text, style))
  }

  /** Lines 190-219: what the provider replied. */
  function OnCompletion(env: Services, user: User, quota: int, text: string, style: string): Output
    requires quota > 0
  {
    match env.completion
    case Threw(e) => Caught(e)
    case Returned(reply) =>
      if !IsOk(reply.status) then
        Reject(500, ProviderErrorCode(reply.status, reply.body),
               ProviderErrorMessage(reply.status, reply.body))
      else
        match reply.body
        case Unparseable(e) => Caught(e)
        case NullJson => Caught(NullDataError)
        case JsonValue(_, _, NoChoices) => Caught(NoChoicesError)
        case JsonValue(_, _, Choices(c)) => Record(env, user, quota, text, style, ConvertedText(c))
  }

  /** The 200 reply of lines 267-279. */
  function SuccessReply(user: User, quota: int, text: string, converted: string): Output {
    Output(Response(200, Converted(converted, quota - 1, UserView(user.email, MaskId(user.id)),
                                   Usage(|text|, |converted|))), [])
  }

  /** Lines 224-264: bookkeeping, whose failures are swallowed, then the 200 reply. */
  function Record(env: Services, user: User, quota: int, text: string, style: string,
                  converted: string): Output
    requires quota > 0
  {
    Emit(UpdateQuota(user.id, quota - 1),
      match env.quotaUpdate
      case Threw(_) => SuccessReply(user, quota, text, converted)
      case Returned(_) =>
        Emit(InsertUsageLog(LogEntry(user.id, text, converted, style)), SuccessReply(user, quota, text, converted)))
  }
}
