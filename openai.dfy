/** The OpenAI error mapper (errors/providers/openai.go): a vendor error
    code, then an error type, then keywords in the lower-cased message,
    decide the platform error code. */
module OpenAIProvider {
  import opened Wrappers
  import opened Text
  import opened ErrorCodes
  import ErrorBuilders

  // OpenAI error codes (errors/providers/openai.go:9-31).
  const OpenAIRateLimitError := "rate_limit_exceeded"
  const OpenAIQuotaExceeded := "insufficient_quota"
  const OpenAIModelNotFound := "model_not_found"
  const OpenAIModelOverloaded := "engine_overloaded"
  const OpenAIInvalidRequest := "invalid_request_error"
  const OpenAIContextLength := "context_length_exceeded"
  const OpenAIMaxTokens := "max_tokens_exceeded"
  const OpenAIContentPolicy := "content_policy_violation"
  const OpenAIContentFilter := "content_filter"
  const OpenAIServerError := "server_error"
  const OpenAIServiceUnavailable := "service_unavailable"
  const OpenAITimeout := "timeout"

  /** The codes the first switch recognises (errors/providers/openai.go:36-57). */
  const VendorCodes: set<string> := {OpenAIRateLimitError, OpenAIQuotaExceeded, OpenAIModelNotFound,
    OpenAIModelOverloaded, OpenAIInvalidRequest, OpenAIContextLength, OpenAIMaxTokens,
    OpenAIContentPolicy, OpenAIContentFilter, OpenAIServerError, OpenAIServiceUnavailable, OpenAITimeout}

  /** The codes that hand the message to the content classifier. */
  const ContentCodes: set<string> := {OpenAIContentPolicy, OpenAIContentFilter}

  /** The types the second switch recognises (errors/providers/openai.go:60-75). */
  const ErrorTypes: set<string> := {"invalid_request_error", "authentication_error", "permission_error",
    "not_found_error", "rate_limit_error", "api_connection_error", "timeout_error"}

  /** MapOpenAIError (errors/providers/openai.go:34-93): the code switch,
      then the type switch, then the message patterns. */
  function MapOpenAIError(errorType: string, errorCode: string, message: string): ErrorCode
  {
    match CodeSwitch(errorCode, message)
    case Some(r) => r
    case None =>
      match TypeSwitch(errorType)
      case Some(r) => r
      case None => MessagePatterns(message)
  }

  /** The switch on the vendor code (errors/providers/openai.go:36-57);
      None falls through. */
  function CodeSwitch(errorCode: string, message: string): Option<ErrorCode>
  {
    if errorCode == OpenAIRateLimitError then Some(RATE_LIMIT_EXCEEDED)
    else if errorCode == OpenAIQuotaExceeded then Some(RATE_QUOTA_EXCEEDED)
    else if errorCode == OpenAIModelNotFound then Some(AI_INVALID_MODEL)
    else if errorCode == OpenAIModelOverloaded then Some(AI_MODEL_OVERLOADED)
    else if errorCode == OpenAIInvalidRequest then Some(VAL_INVALID_REQUEST)
    else if errorCode == OpenAIContextLength || errorCode == OpenAIMaxTokens then Some(AI_CONTEXT_LENGTH_EXCEEDED)
    else if errorCode == OpenAIContentPolicy || errorCode == OpenAIContentFilter then
      Some(MapOpenAIContentViolation(message))
    else if errorCode == OpenAIServerError then Some(SYS_INTERNAL_ERROR)
    else if errorCode == OpenAIServiceUnavailable then Some(SYS_SERVICE_UNAVAILABLE)
    else if errorCode == OpenAITimeout then Some(SYS_TIMEOUT)
    else None
  }

  /** The switch on the error type (errors/providers/openai.go:60-75);
      None falls through. */
  function TypeSwitch(errorType: string): Option<ErrorCode>
  {
    if errorType == "invalid_request_error" then Some(VAL_INVALID_REQUEST)
    else if errorType == "authentication_error" then Some(AUTH_UNAUTHORIZED)
    else if errorType == "permission_error" then Some(AUTH_FORBIDDEN)
    else if errorType == "not_found_error" then Some(AI_INVALID_MODEL)
    else if errorType == "rate_limit_error" then Some(RATE_LIMIT_EXCEEDED)
    else if errorType == "api_connection_error" then Some(SYS_NETWORK_ERROR)
    else if errorType == "timeout_error" then Some(SYS_TIMEOUT)
    else None
  }

  /** The ordered keyword tests on the lower-cased message, and the default
      (errors/providers/openai.go:78-92). */
  function MessagePatterns(message: string): ErrorCode
  {
    var msg := ToLower(message);
    if Contains(msg, "rate limit") then RATE_LIMIT_EXCEEDED
    else if Contains(msg, "quota") then RATE_QUOTA_EXCEEDED
    else if Contains(msg, "context") || Contains(msg, "token") then AI_CONTEXT_LENGTH_EXCEEDED
    else if Contains(msg, "content") || Contains(msg, "policy") then MapOpenAIContentViolation(message)
    else AI_GENERATION_FAILED
  }

  /** mapOpenAIContentViolation (errors/providers/openai.go:96-120). */
  function MapOpenAIContentViolation(message: string): ErrorCode
  {
    var msg := ToLower(message);
    if Contains(msg, "child") || Contains(msg, "minor") then AI_VIOLATION_CHILD_SAFETY
    else if Contains(msg, "violence") || Contains(msg, "violent") then AI_VIOLATION_VIOLENCE
    else if Contains(msg, "sexual") || Contains(msg, "adult") then AI_VIOLATION_SEXUAL
    else if Contains(msg, "hate") || Contains(msg, "discriminat") then AI_VIOLATION_HATE_SPEECH
    else if Contains(msg, "self-harm") || Contains(msg, "dangerous") then AI_VIOLATION_DANGEROUS
    else if Contains(msg, "personal") || Contains(msg, "pii") then AI_VIOLATION_PERSONAL_INFO
    else AI_VIOLATION_OTHER
  }

  /** IsRetryableOpenAIError (errors/providers/openai.go:123-151). */
  predicate IsRetryableOpenAIError(errorType: string, errorCode: string)
  {
    if errorCode == OpenAIRateLimitError || errorCode == OpenAIModelOverloaded || errorCode == OpenAIServerError ||
       errorCode == OpenAIServiceUnavailable || errorCode == OpenAITimeout
    then true
    else errorType == "rate_limit_error" || errorType == "api_connection_error" ||
         errorType == "timeout_error" || errorType == "server_error"
  }

  /** The content classifier always yields a declared content-violation code. */
  lemma ContentViolationDeclared(message: string) returns (x: ViolationCode)
    ensures ViolationValue(x) == MapOpenAIContentViolation(message)
  {
    var msg := ToLower(message);
    x := if Contains(msg, "child") || Contains(msg, "minor") then ChildSafety
      else if Contains(msg, "violence") || Contains(msg, "violent") then Violence
      else if Contains(msg, "sexual") || Contains(msg, "adult") then Sexual
      else if Contains(msg, "hate") || Contains(msg, "discriminat") then HateSpeech
      else if Contains(msg, "self-harm") || Contains(msg, "dangerous") then Dangerous
      else if Contains(msg, "personal") || Contains(msg, "pii") then PersonalInfo
      else Other;
  }

  /** The code switch yields only declared platform codes. */
  lemma CodeSwitchDeclared(errorCode: string, message: string) returns (k: Code)
    requires CodeSwitch(errorCode, message).Some?
    ensures Value(k) == CodeSwitch(errorCode, message).value
  {
    if errorCode in ContentCodes {
      var x := ContentViolationDeclared(message);
      k := Violation(x);
    } else {
      k := if errorCode == OpenAIRateLimitError then Rate(LimitExceeded)
        else if errorCode == OpenAIQuotaExceeded then Rate(QuotaExceeded)
        else if errorCode == OpenAIModelNotFound then Model(InvalidModel)
        else if errorCode == OpenAIModelOverloaded then Model(ModelOverloaded)
        else if errorCode == OpenAIInvalidRequest then Validation(InvalidRequest)
        else if errorCode == OpenAIContextLength || errorCode == OpenAIMaxTokens then Model(ContextLengthExceeded)
        else if errorCode == OpenAIServerError then System(SysInternalError)
        else if errorCode == OpenAIServiceUnavailable then System(SysServiceUnavailable)
        else System(SysTimeout);
    }
  }

  /** The type switch yields only declared platform codes. */
  lemma TypeSwitchDeclared(errorType: string) returns (k: Code)
    requires TypeSwitch(errorType).Some?
    ensures Value(k) == TypeSwitch(errorType).value
  {
    k := if errorType == "invalid_request_error" then Validation(InvalidRequest)
      else if errorType == "authentication_error" then Auth(Unauthorized)
      else if errorType == "permission_error" then Auth(Forbidden)
      else if errorType == "not_found_error" then Model(InvalidModel)
      else if errorType == "rate_limit_error" then Rate(LimitExceeded)
      else if errorType == "api_connection_error" then System(SysNetworkError)
      else System(SysTimeout);
  }

  /** The message patterns yield only declared platform codes. */
  lemma MessagePatternsDeclared(message: string) returns (k: Code)
    ensures Value(k) == MessagePatterns(message)
  {
    var msg := ToLower(message);
    if Contains(msg, "rate limit") {
      k := Rate(LimitExceeded);
    } else if Contains(msg, "quota") {
      k := Rate(QuotaExceeded);
    } else if Contains(msg, "context") || Contains(msg, "token") {
      k := Model(ContextLengthExceeded);
    } else if Contains(msg, "content") || Contains(msg, "policy") {
      var x := ContentViolationDeclared(message);
      k := Violation(x);
    } else {
      k := Model(GenerationFailed);
    }
  }

  /** Whatever the input, the mapper yields a declared platform code. */
  lemma MapOpenAIErrorDeclared(errorType: string, errorCode: string, message: string) returns (k: Code)
    ensures Value(k) == MapOpenAIError(errorType, errorCode, message)
  {
    if CodeSwitch(errorCode, message).Some? {
      k := CodeSwitchDeclared(errorCode, message);
    } else if TypeSwitch(errorType).Some? {
      k := TypeSwitchDeclared(errorType);
    } else {
      k := MessagePatternsDeclared(message);
    }
  }

  /** The code switch matches exactly the recognised vendor codes, and the
      type switch exactly the recognised types. */
  lemma SwitchDomains(errorType: string, errorCode: string, message: string)
    ensures CodeSwitch(errorCode, message).Some? <==> errorCode in VendorCodes
    ensures TypeSwitch(errorType).Some? <==> errorType in ErrorTypes
  {
  }

  /** A recognised vendor code decides alone: the type never matters, and
      the message matters only for the two content codes
      (errors/providers/openai.go:36-57). */
  lemma VendorCodeWins(t1: string, t2: string, errorCode: string, m1: string, m2: string)
    requires errorCode in VendorCodes
    ensures errorCode !in ContentCodes ==> MapOpenAIError(t1, errorCode, m1) == MapOpenAIError(t2, errorCode, m2)
    ensures errorCode in ContentCodes ==> MapOpenAIError(t1, errorCode, m1) == MapOpenAIContentViolation(m1)
  {
  }

  /** With no recognised code, a recognised type decides and the message
      does not matter (errors/providers/openai.go:60-75). */
  lemma ErrorTypeWins(errorType: string, errorCode: string, m1: string, m2: string)
    requires errorCode !in VendorCodes && errorType in ErrorTypes
    ensures MapOpenAIError(errorType, errorCode, m1) == MapOpenAIError(errorType, errorCode, m2)
  {
  }

  /** The message tests ignore letter case. */
  lemma CaseInsensitive(errorType: string, errorCode: string, m1: string, m2: string)
    requires ToLower(m1) == ToLower(m2)
    ensures MapOpenAIError(errorType, errorCode, m1) == MapOpenAIError(errorType, errorCode, m2)
  {
    assert MapOpenAIContentViolation(m1) == MapOpenAIContentViolation(m2);
    assert MessagePatterns(m1) == MessagePatterns(m2);
    assert CodeSwitch(errorCode, m1) == CodeSwitch(errorCode, m2);
  }

  /** Lower-casing the message first changes nothing. */
  lemma LowerCasedMessage(errorType: string, errorCode: string, message: string)
    ensures MapOpenAIError(errorType, errorCode, message) == MapOpenAIError(errorType, errorCode, ToLower(message))
  {
    ToLowerIdempotent(message);
    CaseInsensitive(errorType, errorCode, message, ToLower(message));
  }

  /** The message keywords are tried in order: an earlier keyword beats a
      later one (errors/providers/openai.go:78-89). */
  lemma MessageOrder(errorType: string, errorCode: string, message: string)
    requires errorCode !in VendorCodes && errorType !in ErrorTypes
    ensures Contains(ToLower(message), "rate limit") ==>
      MapOpenAIError(errorType, errorCode, message) == RATE_LIMIT_EXCEEDED
    ensures !Contains(ToLower(message), "rate limit") && Contains(ToLower(message), "quota") ==>
      MapOpenAIError(errorType, errorCode, message) == RATE_QUOTA_EXCEEDED
    ensures !Contains(ToLower(message), "rate limit") && !Contains(ToLower(message), "quota") &&
            (Contains(ToLower(message), "context") || Contains(ToLower(message), "token")) ==>
              MapOpenAIError(errorType, errorCode, message) == AI_CONTEXT_LENGTH_EXCEEDED
    ensures !Contains(ToLower(message), "rate limit") && !Contains(ToLower(message), "quota") &&
            !Contains(ToLower(message), "context") && !Contains(ToLower(message), "token") &&
            (Contains(ToLower(message), "content") || Contains(ToLower(message), "policy")) ==>
              MapOpenAIError(errorType, errorCode, message) == MapOpenAIContentViolation(message)
  {
  }

  /** AI_GENERATION_FAILED is returned exactly when nothing matched: no
      recognised code or type and none of the message keywords. */
  lemma GenerationFailedExactly(errorType: string, errorCode: string, message: string)
    ensures MapOpenAIError(errorType, errorCode, message) == AI_GENERATION_FAILED <==>
      errorCode !in VendorCodes && errorType !in ErrorTypes &&
      !Contains(ToLower(message), "rate limit") && !Contains(ToLower(message), "quota") &&
      !Contains(ToLower(message), "context") && !Contains(ToLower(message), "token") &&
      !Contains(ToLower(message), "content") && !Contains(ToLower(message), "policy")
  {
    SwitchDomains(errorType, errorCode, message);
    ContentNeverGenerationFailed(message);
  }

  /** The content classifier never falls back to AI_GENERATION_FAILED. */
  lemma ContentNeverGenerationFailed(message: string)
    ensures MapOpenAIContentViolation(message) != AI_GENERATION_FAILED
  {
    var x := ContentViolationDeclared(message);
    ViolationFacts(x);
    DisagreeNotPrefix(AI_GENERATION_FAILED, "AI_VIOLATION_", 3);
  }

  /** A matching vendor code wins with no type and no message
      (errors/providers/openai.go:37-38). */
  lemma RateLimitCodeExample()
    ensures MapOpenAIError("", "rate_limit_exceeded", "") == RATE_LIMIT_EXCEEDED
  {
  }

  /** A message naming the rate limit, with no code or type, maps to
      RATE_LIMIT_EXCEEDED (errors/providers/openai.go:78-80). */
  lemma RateLimitMessageExample()
    ensures MapOpenAIError("", "", "Your request exceeded the rate limit") == RATE_LIMIT_EXCEEDED
  {
    var lower := ToLower("Your request exceeded the rate limit");
    assert lower[26..36] == "rate limit";
    assert OccursAt(lower, "rate limit", 26);
  }

  /** IsRetryableOpenAIError is membership in either of two sets. */
  lemma RetryableExactly(errorType: string, errorCode: string)
    ensures IsRetryableOpenAIError(errorType, errorCode) <==>
      errorCode in {OpenAIRateLimitError, OpenAIModelOverloaded, OpenAIServerError, OpenAIServiceUnavailable, OpenAITimeout}
      || errorType in {"rate_limit_error", "api_connection_error", "timeout_error", "server_error"}
    ensures !IsRetryableOpenAIError("", OpenAIQuotaExceeded)
  {
  }

  /** The four retryable vendor codes map to codes the platform also calls
      retryable (errors/builders.go:124-135). */
  lemma RetryableCodesAgree(errorType: string, errorCode: string, message: string)
    requires errorCode in {OpenAIRateLimitError, OpenAIModelOverloaded, OpenAIServiceUnavailable, OpenAITimeout}
    ensures IsRetryableOpenAIError(errorType, errorCode)
    ensures ErrorBuilders.IsRetryableCode(MapOpenAIError(errorType, errorCode, message))
  {
  }

  /** The two retry tables disagree in places: server_error is retryable
      for OpenAI but maps to SYS_INTERNAL_ERROR, and a retryable type
      with code insufficient_quota maps to RATE_QUOTA_EXCEEDED; the
      platform table calls neither retryable. */
  lemma RetryableDisagreements(errorType: string, message: string)
    ensures IsRetryableOpenAIError(errorType, OpenAIServerError)
    ensures !ErrorBuilders.IsRetryableCode(MapOpenAIError(errorType, OpenAIServerError, message))
    ensures IsRetryableOpenAIError("rate_limit_error", OpenAIQuotaExceeded)
    ensures !ErrorBuilders.IsRetryableCode(MapOpenAIError("rate_limit_error", OpenAIQuotaExceeded, message))
  {
  }
}
