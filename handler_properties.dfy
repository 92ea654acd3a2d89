/**
 What the handler guarantees, stated over `Handler.Handle` for every request
 and every combination of external outcomes: which check wins, which external
 calls each branch issues, and what the success reply and the quota write carry.
 */
module HandlerProperties {
  import opened Wrappers
  import opened JsString
  import opened Handler

  // ------------------------------------------------------ views of a trace

  /** The quota values written, in order. */
  function QuotaWrites(effects: seq<Effect>): seq<int> {
    if effects == [] then []
    else (if effects[0].UpdateQuota? then [effects[0].remaining] else []) + QuotaWrites(effects[1..])
  }

  /** The texts sent to the provider, in order. */
  function CompletionTexts(effects: seq<Effect>): seq<string> {
    if effects == [] then []
    else (if effects[0].RequestCompletion? then [effects[0].text] else []) + CompletionTexts(effects[1..])
  }

  lemma EmitViews(e: Effect, o: Output)
    ensures QuotaWrites(Emit(e, o).effects)
         == (if e.UpdateQuota? then [e.remaining] else []) + QuotaWrites(o.effects)
    ensures CompletionTexts(Emit(e, o).effects)
         == (if e.RequestCompletion? then [e.text] else []) + CompletionTexts(o.effects)
  {
    assert ([e] + o.effects)[1..] == o.effects;
  }

  // ------------------------------------------------ what every reply keeps

  /** The text a request body carries once it passes validation. */
  predicate AcceptedText(req: Request, text: string) {
    req.body.Some? && ValidateText(req.body.value.text) == Accepted(text)
  }

  predicate KeyConfigured(env: Services) {
    env.apiKey.Some? && env.apiKey.value != ""
  }

  /**
   What every reply past the method guard keeps about itself: it is an error
   or a conversion, an error's status is the one its code calls for, and the
   quota is written once, on success, with the value reported, which is never
   below zero.
   */
  predicate Settled(o: Output) {
    var body := o.response.body;
    && (body.Failure? || body.Converted?)
    && (body.Failure? ==> o.response.status == StatusFor(body.code))
    && (body.Converted? ==> o.response.status == 200 && body.newRemaining >= 0)
    && QuotaWrites(o.effects) == (if body.Converted? then [body.newRemaining] else [])
  }

  /**
   What every reply of the handler keeps: it is settled, and the provider is
   asked at most once, only for accepted text with a configured key, and
   always before a success.
   */
  predicate Disciplined(req: Request, env: Services, o: Output) {
    && Settled(o)
    && |CompletionTexts(o.effects)| <= 1
    && (o.response.body.Converted? ==> |CompletionTexts(o.effects)| == 1)
    && (forall t :: t in CompletionTexts(o.effects) ==> AcceptedText(req, t) && KeyConfigured(env))
  }

  lemma RejectDisciplined(req: Request, env: Services, status: nat, code: Code, message: string)
    requires status == StatusFor(code)
    ensures Disciplined(req, env, Reject(status, code, message))
  {
  }

  lemma CaughtDisciplined(req: Request, env: Services, e: JsError)
    ensures Disciplined(req, env, Caught(e))
  {
    ExceptionPrecedence(e);
  }

  lemma RecordDisciplined(req: Request, env: Services, user: User, quota: int, text: string,
                          style: string, converted: string)
    requires quota > 0
    ensures var o := Record(env, user, quota, text, style, converted);
      && o.response == SuccessReply(user, quota, text, converted).response
      && QuotaWrites(o.effects) == [quota - 1] && CompletionTexts(o.effects) == []
  {
    var reply := SuccessReply(user, quota, text, converted);
    EmitViews(InsertUsageLog(LogEntry(user.id, text, converted, style)), reply);
    if env.quotaUpdate.Threw? {
      EmitViews(UpdateQuota(user.id, quota - 1), reply);
    } else {
      EmitViews(UpdateQuota(user.id, quota - 1),
                Emit(InsertUsageLog(LogEntry(user.id, text, converted, style)), reply));
    }
  }

  lemma OnCompletionDisciplined(req: Request, env: Services, user: User, quota: int, text: string,
                                style: string)
    requires quota > 0
    ensures var o := OnCompletion(env, user, quota, text, style);
      && Settled(o) && CompletionTexts(o.effects) == []
  {
    match env.completion
    case Threw(e) => CaughtDisciplined(req, env, e);
    case Returned(reply) =>
      if IsOk(reply.status) {
        match reply.body
        case Unparseable(e) => CaughtDisciplined(req, env, e);
        case NullJson => CaughtDisciplined(req, env, NullDataError);
        case JsonValue(_, _, NoChoices) => CaughtDisciplined(req, env, NoChoicesError);
        case JsonValue(_, _, Choices(c)) =>
          RecordDisciplined(req, env, user, quota, text, style, ConvertedText(c));
      }
  }

  lemma ReadInputSendsDisciplined(req: Request, env: Services, user: User, quota: int)
    requires quota > 0 && req.body.Some? && ValidateText(req.body.value.text).Accepted?
    requires KeyConfigured(env)
    ensures Disciplined(req, env, ReadInput(req, env, user, quota))
  {
    var text := req.body.value.text.s;
    var style := StyleOf(req.body.value);
    var next := OnCompletion(env, user, quota, text, style);
    assert ReadInput(req, env, user, quota) == Emit(RequestCompletion(text, style), next) by {
      ValidateTextCases(req.body.value.text);
      CompletionRequested(req, env, user, quota);
    }
    assert Settled(next) && CompletionTexts(next.effects) == [] by {
      OnCompletionDisciplined(req, env, user, quota, text, style);
    }
    SendDisciplined(req, env, text, style, next);
  }

  lemma SendDisciplined(req: Request, env: Services, text: string, style: string, next: Output)
    requires AcceptedText(req, text) && KeyConfigured(env)
    requires Settled(next) && CompletionTexts(next.effects) == []
    ensures Disciplined(req, env, Emit(RequestCompletion(text, style), next))
  {
    EmitViews(RequestCompletion(text, style), next);
  }

  lemma BlankDisciplined(req: Request, env: Services, user: User, quota: int)
    requires quota > 0 && req.body.Some? && ValidateText(req.body.value.text) == Blank
    ensures Disciplined(req, env, ReadInput(req, env, user, quota))
  {
    RejectDisciplined(req, env, 400, EmptyInput, EmptyMessage);
  }

  lemma ShortDisciplined(req: Request, env: Services, user: User, quota: int)
    requires quota > 0 && req.body.Some? && ValidateText(req.body.value.text) == TooShort
    ensures Disciplined(req, env, ReadInput(req, env, user, quota))
  {
    RejectDisciplined(req, env, 400, InputTooShort, TooShortMessage);
  }

  lemma KeyMissingDisciplined(req: Request, env: Services, user: User, quota: int)
    requires quota > 0 && req.body.Some? && ValidateText(req.body.value.text).Accepted?
    requires !KeyConfigured(env)
    ensures Disciplined(req, env, ReadInput(req, env, user, quota))
  {
    RejectDisciplined(req, env, 500, ApiKeyMissing, KeyMissingMessage);
  }

  lemma ReadInputThrowsDisciplined(req: Request, env: Services, user: User, quota: int)
    requires quota > 0 && (req.body.None? || req.body.value.text == NonString(true))
    ensures Disciplined(req, env, ReadInput(req, env, user, quota))
  {
    UnreadableBody(req, env, user, quota);
    CaughtDisciplined(req, env, if req.body.None? then BodyUndefinedError else TrimNotFunctionError);
  }

  lemma ReadInputDisciplined(req: Request, env: Services, user: User, quota: int)
    requires quota > 0
    ensures Disciplined(req, env, ReadInput(req, env, user, quota))
  {
    if req.body.None? || req.body.value.text == NonString(true) {
      ReadInputThrowsDisciplined(req, env, user, quota);
    } else {
      match ValidateText(req.body.value.text)
      case Blank => BlankDisciplined(req, env, user, quota);
      case TooShort => ShortDisciplined(req, env, user, quota);
      case Accepted(_) =>
        if KeyConfigured(env) {
          ReadInputSendsDisciplined(req, env, user, quota);
        } else {
          KeyMissingDisciplined(req, env, user, quota);
        }
    }
  }

  lemma CheckQuotaDisciplined(req: Request, env: Services, user: User, profile: Profile)
    ensures Disciplined(req, env, CheckQuota(req, env, user, profile))
  {
    var remaining := QuotaOrZero(profile.dailyQuota);
    if remaining > 0 { ReadInputDisciplined(req, env, user, remaining); }
  }

  lemma OnReselectedDisciplined(req: Request, env: Services, user: User)
    ensures Disciplined(req, env, OnReselected(req, env, user))
  {
    match env.reselect
    case Threw(e) => CaughtDisciplined(req, env, e);
    case Returned(np) =>
      if !(np.None? || LooseAtMostZero(np.value.dailyQuota)) {
        CheckQuotaDisciplined(req, env, user, np.value);
      }
  }

  lemma OnCreatedDisciplined(req: Request, env: Services, user: User)
    ensures Disciplined(req, env, OnCreated(req, env, user))
  {
    match env.create
    case Threw(e) => CaughtDisciplined(req, env, e);
    case Returned(w) =>
      if w != WriteFailed {
        OnReselectedDisciplined(req, env, user);
        EmitViews(ReselectProfile(user.id), OnReselected(req, env, user));
      }
  }

  lemma OnProfileDisciplined(req: Request, env: Services, user: User)
    ensures Disciplined(req, env, OnProfile(req, env, user))
  {
    match env.profile
    case Threw(e) => CaughtDisciplined(req, env, e);
    case Returned(p) =>
      if p.error.Some? {
        if p.error.value.code == MissingProfileCode {
          OnCreatedDisciplined(req, env, user);
          EmitViews(CreateProfile(NewProfileRow(user)), OnCreated(req, env, user));
        }
      } else if p.data.Some? {
        CheckQuotaDisciplined(req, env, user, p.data.value);
      }
  }

  lemma OnVerifiedDisciplined(req: Request, env: Services)
    ensures Disciplined(req, env, OnVerified(req, env))
  {
    match env.verifyToken
    case Threw(e) => CaughtDisciplined(req, env, e);
    case Returned(a) =>
      if !(a.failed || a.user.None?) {
        var user := a.user.value;
        OnProfileDisciplined(req, env, user);
        EmitViews(SelectProfile(user.id), OnProfile(req, env, user));
      }
  }

  /**
   Every reply to a POST keeps the invariants of `Disciplined`; the reply to
   any other method makes no call and carries neither an error nor a conversion.
   */
  lemma HandleDisciplined(req: Request, env: Services)
    ensures req.httpMethod == "POST" ==> Disciplined(req, env, Handle(req, env))
    ensures req.httpMethod != "POST" ==>
      Handle(req, env).effects == [] && Handle(req, env).response.body.Success().None?
  {
    if req.httpMethod == "POST" {
      match BearerToken(req.authorization)
      case None =>
      case Some(token) =>
        OnVerifiedDisciplined(req, env);
        EmitViews(VerifyToken(token), OnVerified(req, env));
    }
  }

  /** No bookkeeping write is issued unless the reply is a success carrying the value written. */
  lemma QuotaWrittenOnlyOnSuccess(req: Request, env: Services)
    ensures var o := Handle(req, env);
      && (o.response.body.Converted? <==> QuotaWrites(o.effects) != [])
      && (o.response.body.Converted? ==> QuotaWrites(o.effects) == [o.response.body.newRemaining]
                                         && o.response.body.newRemaining >= 0)
  {
    HandleDisciplined(req, env);
  }

  /** No provider call is issued unless the text passed validation and the key is configured. */
  lemma ProviderCalledOnlyWhenReady(req: Request, env: Services, text: string)
    requires text in CompletionTexts(Handle(req, env).effects)
    ensures req.httpMethod == "POST"
    ensures AcceptedText(req, text) && |Trim(text)| >= MinTextLength
    ensures KeyConfigured(env)
  {
    HandleDisciplined(req, env);
    ValidateTextCases(req.body.value.text);
  }

  /** Every error reply carries the status its code calls for. */
  lemma StatusMatchesCode(req: Request, env: Services)
    ensures var r := Handle(req, env).response;
      r.body.Failure? ==> r.status == StatusFor(r.body.code)
  {
    HandleDisciplined(req, env);
  }

  /**
   The envelope's `success` field: `true` exactly on the 200 conversion,
   `false` on every error reply, whose status is one of the error statuses,
   and absent only from the replies to a non-POST method.
   */
  lemma SuccessFlag(req: Request, env: Services)
    ensures var r := Handle(req, env).response;
      && (r.body.Success() == Some(true) <==> r.status == 200 && r.body.Converted?)
      && (r.body.Success() == Some(false) ==> r.status in {400, 401, 403, 404, 500})
      && (r.body.Success().None? <==> req.httpMethod != "POST")
  {
    HandleDisciplined(req, env);
  }

  // ------------------------------------------------------ branch by branch

  /** A pre-flight is answered 200 with no body; any other non-POST with 405; neither calls out. */
  lemma MethodGuard(req: Request, env: Services, other: Services)
    requires req.httpMethod != "POST"
    ensures Handle(req, env) == Handle(req, other)
    ensures Handle(req, env).effects == []
    ensures req.httpMethod == "OPTIONS" ==> Handle(req, env).response == Response(200, Empty)
    ensures req.httpMethod != "OPTIONS" ==> Handle(req, env).response.status == 405
  {
  }

  /** A missing or non-bearer header fails with AUTH_REQUIRED before any call. */
  lemma MissingBearer(req: Request, env: Services)
    requires req.httpMethod == "POST"
    requires req.authorization.None? || !StartsWith(req.authorization.value, BearerPrefix)
    ensures Handle(req, env) == Reject(401, AuthRequired, LoginMessage)
  {
  }

  /** The token verified is the header without its leading "Bearer "; a rejected token gives INVALID_TOKEN. */
  lemma TokenVerified(req: Request, env: Services)
    requires req.httpMethod == "POST"
    requires req.authorization.Some? && StartsWith(req.authorization.value, BearerPrefix)
    ensures var o := Handle(req, env);
      |o.effects| > 0 && o.effects[0] == VerifyToken(req.authorization.value[7..])
    ensures env.verifyToken.Returned? && (env.verifyToken.value.failed || env.verifyToken.value.user.None?)
        ==> Handle(req, env) == Output(Response(401, Failure(ExpiredMessage, InvalidToken, None)),
                                       [VerifyToken(req.authorization.value[7..])])
  {
    BearerTokenIff(req.authorization, req.authorization.value[7..]);
  }

  /** The request passed the method and token checks as `user`. */
  predicate SignedIn(req: Request, env: Services, user: User) {
    && req.httpMethod == "POST"
    && BearerToken(req.authorization).Some?
    && env.verifyToken == Returned(AuthReply(false, Some(user)))
  }

  function Token(req: Request): string
    requires BearerToken(req.authorization).Some?
  {
    BearerToken(req.authorization).value
  }

  /** The profile error branches: a missing row is created with quota 5; other errors and no row fail. */
  lemma ProfileBranches(req: Request, env: Services, user: User, p: ProfileReply)
    requires SignedIn(req, env, user) && env.profile == Returned(p)
    ensures var o := Handle(req, env); var prefix := [VerifyToken(Token(req)), SelectProfile(user.id)];
      && (p.error.Some? && p.error.value.code == MissingProfileCode ==>
            |o.effects| > 2 && o.effects[..2] == prefix
            && o.effects[2] == CreateProfile(NewProfileRow(user))
            && o.effects[2].row.dailyQuotaRemaining == 5
            && (env.create == Returned(WriteFailed) ==>
                  o == Output(Response(500, Failure(CreateFailedMessage, ProfileCreateFailed, None)),
                              prefix + [CreateProfile(NewProfileRow(user))])))
      && (p.error.Some? && p.error.value.code != MissingProfileCode ==>
            o == Output(Response(500, Failure(FetchFailedMessage, ProfileFetchFailed, None)), prefix))
      && (p.error.None? && p.data.None? ==>
            o == Output(Response(404, Failure(NotFoundMessage, ProfileNotFound, None)), prefix))
  {
  }

  /** The exhausted reply. */
  const ExhaustedResponse := Response(403, Failure(ExhaustedMessage, QuotaExhausted, Some(0)))

  /**
   An existing profile whose quota is missing, falsy or not positive is refused
   with QUOTA_EXHAUSTED whatever the body says, since the gate comes before
   the text checks; no provider call is made.
   */
  lemma ExistingProfileExhausted(req: Request, env: Services, user: User, profile: Profile,
                                 body: Option<RequestBody>)
    requires SignedIn(req, env, user) && env.profile == Returned(ProfileReply(Some(profile), None))
    requires !(profile.dailyQuota.Num? && profile.dailyQuota.n > 0)
    ensures Handle(req, env) == Output(ExhaustedResponse, [VerifyToken(Token(req)), SelectProfile(user.id)])
    ensures Handle(req.(body := body), env) == Handle(req, env)
  {
    QuotaGate(profile.dailyQuota);
  }

  /**
   A freshly created profile that reads back missing, or with a quota that is
   missing, falsy or not positive, is refused the same way: when the check
   right after the read-back lets an `undefined` quota through, the gate of
   line 121 catches it.
   */
  lemma NewProfileExhausted(req: Request, env: Services, user: User,
                            np: Option<Profile>, body: Option<RequestBody>)
    requires SignedIn(req, env, user)
    requires env.profile.Returned? && env.profile.value.error == Some(DbError(MissingProfileCode))
    requires env.create == Returned(Written) && env.reselect == Returned(np)
    requires np.None? || !(np.value.dailyQuota.Num? && np.value.dailyQuota.n > 0)
    ensures Handle(req, env) == Output(ExhaustedResponse,
              [VerifyToken(Token(req)), SelectProfile(user.id), CreateProfile(NewProfileRow(user)),
               ReselectProfile(user.id)])
    ensures Handle(req.(body := body), env) == Handle(req, env)
  {
    if np.Some? { QuotaGate(np.value.dailyQuota); }
  }

  // Once admitted with a positive quota, the text checks run in order, and
  // only then the key check; none of them calls the provider.

  /** Missing or blank text gives EMPTY_INPUT. */
  lemma BlankTextRejected(req: Request, env: Services, user: User, quota: int)
    requires quota > 0 && req.body.Some?
    requires var t := req.body.value.text; (t.Str? && AllWhitespace(t.s)) || t == NonString(false)
    ensures ReadInput(req, env, user, quota) == Reject(400, EmptyInput, EmptyMessage)
  {
    ValidateTextCases(req.body.value.text);
  }

  /** A trimmed length of 1 to 4 gives INPUT_TOO_SHORT. */
  lemma ShortTextRejected(req: Request, env: Services, user: User, quota: int)
    requires quota > 0 && req.body.Some?
    requires var t := req.body.value.text; t.Str? && 1 <= |Trim(t.s)| < MinTextLength
    ensures ReadInput(req, env, user, quota) == Reject(400, InputTooShort, TooShortMessage)
  {
    ValidateTextCases(req.body.value.text);
  }

  /** Accepted text without a configured key gives API_KEY_MISSING. */
  lemma MissingKeyRejected(req: Request, env: Services, user: User, quota: int)
    requires quota > 0 && req.body.Some?
    requires var t := req.body.value.text; t.Str? && |Trim(t.s)| >= MinTextLength
    requires !KeyConfigured(env)
    ensures ReadInput(req, env, user, quota) == Reject(500, ApiKeyMissing, KeyMissingMessage)
  {
    ValidateTextCases(req.body.value.text);
  }

  /** Accepted text with a configured key is sent, untrimmed, with the body's style or "trendy". */
  lemma CompletionRequested(req: Request, env: Services, user: User, quota: int)
    requires quota > 0 && req.body.Some?
    requires var t := req.body.value.text; t.Str? && |Trim(t.s)| >= MinTextLength
    requires KeyConfigured(env)
    ensures var text := req.body.value.text.s; var style := StyleOf(req.body.value);
      ReadInput(req, env, user, quota)
      == Emit(RequestCompletion(text, style), OnCompletion(env, user, quota, text, style))
  {
    ValidateTextCases(req.body.value.text);
  }

  /** Outside those four cases `req.body` is undefined or `text` is a truthy non-string, and the TypeError is caught. */
  lemma UnreadableBody(req: Request, env: Services, user: User, quota: int)
    requires quota > 0
    requires req.body.None? || req.body.value.text == NonString(true)
    ensures req.body.None? ==> ReadInput(req, env, user, quota) == Caught(BodyUndefinedError)
    ensures req.body.Some? ==> ReadInput(req, env, user, quota) == Caught(TrimNotFunctionError)
  {
  }

  /** The `style` sent: the body's, else "trendy". */
  function StyleOf(b: RequestBody): string {
    if b.style.Some? then b.style.value else DefaultStyle
  }

  /** A non-ok provider reply is a 500 classified by status, and writes no quota. */
  lemma ProviderFailure(env: Services, user: User, quota: int, text: string, style: string,
                        reply: ProviderReply)
    requires quota > 0 && env.completion == Returned(reply) && !IsOk(reply.status)
    ensures var o := OnCompletion(env, user, quota, text, style);
      && o.response.status == 500
      && o.response.body == Failure(ProviderErrorMessage(reply.status, reply.body),
                                    ProviderErrorCode(reply.status, reply.body), None)
      && o.effects == []
      && (reply.status == 429 && reply.body.JsonValue? ==> o.response.body.code == RateLimited)
      && (reply.status == 401 && reply.body.JsonValue? ==> o.response.body.code == AiAuthFailed)
      && (!reply.body.JsonValue? ==> o.response.body.code == AiServiceError)
  {
  }

  /** The success reply does not depend on how the quota update and log insert went. */
  lemma BookkeepingInvisible(env: Services, user: User, quota: int, text: string, style: string,
                             converted: string, update: Call<WriteReply>)
    requires quota > 0
    ensures Record(env, user, quota, text, style, converted).response
         == Record(env.(quotaUpdate := update), user, quota, text, style, converted).response
    ensures Record(env, user, quota, text, style, converted).response
         == Response(200, Converted(converted, quota - 1, UserView(user.email, MaskId(user.id)),
                                    Usage(|text|, |converted|)))
    ensures update.Threw? ==>
              Record(env.(quotaUpdate := update), user, quota, text, style, converted).effects
              == [UpdateQuota(user.id, quota - 1)]
  {
  }

  /** A signed-in request goes on to the profile select. */
  lemma SignedInSelectsProfile(req: Request, env: Services, user: User)
    requires SignedIn(req, env, user)
    ensures Handle(req, env)
         == Emit(VerifyToken(Token(req)), Emit(SelectProfile(user.id), OnProfile(req, env, user)))
  {
  }

  /** An existing profile with a positive quota goes on to the input checks with that quota. */
  lemma ExistingProfileAdmitted(req: Request, env: Services, user: User, q: int)
    requires env.profile == Returned(ProfileReply(Some(Profile(Num(q))), None)) && q > 0
    ensures OnProfile(req, env, user) == ReadInput(req, env, user, q)
  {
  }

  /**
   A created profile that reads back with a positive quota goes on to the
   input checks with that read-back quota, after the four calls before it.
   */
  lemma NewProfileAdmitted(req: Request, env: Services, user: User, q: int)
    requires SignedIn(req, env, user)
    requires env.profile.Returned? && env.profile.value.error == Some(DbError(MissingProfileCode))
    requires env.create == Returned(Written) && env.reselect == Returned(Some(Profile(Num(q)))) && q > 0
    ensures OnReselected(req, env, user) == ReadInput(req, env, user, q)
    ensures Handle(req, env)
         == Emit(VerifyToken(Token(req)), Emit(SelectProfile(user.id),
              Emit(CreateProfile(NewProfileRow(user)), Emit(ReselectProfile(user.id),
                ReadInput(req, env, user, q)))))
  {
    SignedInSelectsProfile(req, env, user);
  }

  /** An ok reply with `choices` goes on to the bookkeeping with its content or the placeholder. */
  lemma CompletionAnswered(env: Services, user: User, quota: int, text: string, style: string,
                           status: nat, errorMessage: string, serialized: string,
                           content: Option<string>)
    requires quota > 0 && IsOk(status)
    requires env.completion
          == Returned(ProviderReply(status, JsonValue(errorMessage, serialized, Choices(content))))
    ensures OnCompletion(env, user, quota, text, style)
         == Record(env, user, quota, text, style, ConvertedText(content))
  {
  }

  /** When the quota update returns, the log row follows it. */
  lemma BookkeepingWrites(env: Services, user: User, quota: int, text: string, style: string,
                          converted: string)
    requires quota > 0 && env.quotaUpdate.Returned?
    ensures Record(env, user, quota, text, style, converted).effects
         == [UpdateQuota(user.id, quota - 1), InsertUsageLog(LogEntry(user.id, text, converted, style))]
  {
  }

  /**
   The successful path end to end: the reply carries the provider's content
   (or the placeholder), the quota less one, the masked ID and the untrimmed
   lengths; the quota written is that same value and the log holds the
   truncated texts.
   */
  lemma HappyPath(req: Request, env: Services, user: User, q: int, content: Option<string>,
                  errorMessage: string, serialized: string, status: nat)
    requires SignedIn(req, env, user)
    requires env.profile == Returned(ProfileReply(Some(Profile(Num(q))), None)) && q > 0
    requires req.body.Some? && req.body.value.text.Str?
    requires |Trim(req.body.value.text.s)| >= MinTextLength && KeyConfigured(env)
    requires IsOk(status)
    requires env.completion == Returned(ProviderReply(status, JsonValue(errorMessage, serialized, Choices(content))))
    requires env.quotaUpdate.Returned?
    ensures var text := req.body.value.text.s; var converted := ConvertedText(content);
      Handle(req, env) == Output(
        Response(200, Converted(converted, q - 1, UserView(user.email, MaskId(user.id)),
                                Usage(|text|, |converted|))),
        [VerifyToken(Token(req)), SelectProfile(user.id),
         RequestCompletion(text, StyleOf(req.body.value)),
         UpdateQuota(user.id, q - 1),
         InsertUsageLog(LogEntry(user.id, text, converted, StyleOf(req.body.value)))])
  {
    var text := req.body.value.text.s;
    var style := StyleOf(req.body.value);
    var converted := ConvertedText(content);
    SignedInSelectsProfile(req, env, user);
    ExistingProfileAdmitted(req, env, user, q);
    CompletionRequested(req, env, user, q);
    CompletionAnswered(env, user, q, text, style, status, errorMessage, serialized, content);
    BookkeepingWrites(env, user, q, text, style, converted);
    BookkeepingInvisible(env, user, q, text, style, converted, env.quotaUpdate);
  }

  /** A throw from the provider call, whatever it is, is a 500 with the classified code and no quota write. */
  lemma ProviderThrow(env: Services, user: User, quota: int, text: string, style: string, e: JsError)
    requires quota > 0 && env.completion == Threw(e)
    ensures var o := OnCompletion(env, user, quota, text, style);
      && o.response == Response(500, Failure(ExceptionOutcome(e).1, ExceptionOutcome(e).0, None))
      && o.effects == []
      && (e.name == "FetchError" ==> o.response.body.code == NetworkError)
  {
    ExceptionPrecedence(e);
  }

  // Each awaited call before the provider may throw; the outer catch turns
  // the error into a 500 right after that call, with nothing written.

  /** A throw from `getUser` is caught after the token check alone. */
  lemma VerifyThrow(req: Request, env: Services, e: JsError)
    requires req.httpMethod == "POST" && BearerToken(req.authorization).Some?
    requires env.verifyToken == Threw(e)
    ensures Handle(req, env) == Output(Caught(e).response, [VerifyToken(Token(req))])
    ensures Handle(req, env).response.status == 500
  {
  }

  /** A throw from the profile select is caught after the select. */
  lemma SelectThrow(req: Request, env: Services, user: User, e: JsError)
    requires SignedIn(req, env, user) && env.profile == Threw(e)
    ensures Handle(req, env) == Output(Caught(e).response, [VerifyToken(Token(req)), SelectProfile(user.id)])
    ensures Handle(req, env).response.status == 500
  {
    SignedInSelectsProfile(req, env, user);
  }

  /** A throw from the upsert of a missing profile is caught after the upsert. */
  lemma CreateThrow(req: Request, env: Services, user: User, e: JsError)
    requires SignedIn(req, env, user)
    requires env.profile.Returned? && env.profile.value.error == Some(DbError(MissingProfileCode))
    requires env.create == Threw(e)
    ensures Handle(req, env) == Output(Caught(e).response,
              [VerifyToken(Token(req)), SelectProfile(user.id), CreateProfile(NewProfileRow(user))])
    ensures Handle(req, env).response.status == 500
  {
    SignedInSelectsProfile(req, env, user);
  }

  /** A throw from reading the created profile back is caught after the read. */
  lemma ReselectThrow(req: Request, env: Services, user: User, e: JsError)
    requires SignedIn(req, env, user)
    requires env.profile.Returned? && env.profile.value.error == Some(DbError(MissingProfileCode))
    requires env.create == Returned(Written) && env.reselect == Threw(e)
    ensures Handle(req, env) == Output(Caught(e).response,
              [VerifyToken(Token(req)), SelectProfile(user.id), CreateProfile(NewProfileRow(user)),
               ReselectProfile(user.id)])
    ensures Handle(req, env).response.status == 500
  {
    SignedInSelectsProfile(req, env, user);
  }

  /**
   An ok reply whose body does not parse, is `null` or has no `choices` throws
   in lines 218-219: the reply is a 500, and neither the quota nor the log is written.
   */
  lemma BrokenReply(env: Services, user: User, quota: int, text: string, style: string,
                    status: nat, body: ReplyBody)
    requires quota > 0 && IsOk(status) && env.completion == Returned(ProviderReply(status, body))
    requires !(body.JsonValue? && body.choices.Choices?)
    ensures var o := OnCompletion(env, user, quota, text, style);
      && (body.Unparseable? ==> o == Caught(body.error))
      && (body.NullJson? ==> o == Caught(NullDataError))
      && (body.JsonValue? ==> o == Caught(NoChoicesError))
      && o.response.status == 500 && o.effects == []
  {
  }
}
