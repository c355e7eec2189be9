/** The Vertex AI error mapper (errors/providers/vertex.go): a vendor code,
    then keywords in the lower-cased message, decide the platform error
    code. */
module VertexProvider {
  import opened Wrappers
  import opened Text
  import opened ErrorCodes
  import ErrorHelpers
  import ErrorBuilders

  // Vertex AI error codes (errors/providers/vertex.go:9-31).
  const VertexChildSafety := "58061214"
  const VertexCelebrity := "58061215"
  const VertexViolence := "58061216"
  const VertexSexualContent := "58061217"
  const VertexHateSpeech := "58061218"
  const VertexDangerousContent := "58061219"
  const VertexQuotaExceeded := "RESOURCE_EXHAUSTED"
  const VertexRateLimited := "RATE_LIMIT_EXCEEDED"
  const VertexModelOverloaded := "MODEL_OVERLOADED"
  const VertexInvalidRequest := "INVALID_ARGUMENT"
  const VertexRequestTooLarge := "REQUEST_TOO_LARGE"
  const VertexInternalError := "INTERNAL"
  const VertexUnavailable := "UNAVAILABLE"
  const VertexTimeout := "DEADLINE_EXCEEDED"

  /** The six numeric content-safety codes. */
  const SafetyCodes: set<string> := {VertexChildSafety, VertexCelebrity, VertexViolence,
    VertexSexualContent, VertexHateSpeech, VertexDangerousContent}

  /** Every code the switch recognises (errors/providers/vertex.go:36-63). */
  const VendorCodes: set<string> := SafetyCodes + {VertexQuotaExceeded, VertexRateLimited,
    VertexModelOverloaded, VertexInvalidRequest, VertexRequestTooLarge, VertexInternalError,
    VertexUnavailable, VertexTimeout}

  /** MapVertexError (errors/providers/vertex.go:34-90): the code switch,
      then the message patterns. */
  function MapVertexError(code: string, message: string): ErrorCode
  {
    match CodeSwitch(code)
    case Some(r) => r
    case None => MessagePatterns(message)
  }

  /** The switch on the vendor code (errors/providers/vertex.go:36-63);
      None falls through. */
  function CodeSwitch(code: string): Option<ErrorCode>
  {
    if code == VertexChildSafety then Some(AI_VIOLATION_CHILD_SAFETY)
    else if code == VertexCelebrity then Some(AI_VIOLATION_CELEBRITY)
    else if code == VertexViolence then Some(AI_VIOLATION_VIOLENCE)
    else if code == VertexSexualContent then Some(AI_VIOLATION_SEXUAL)
    else if code == VertexHateSpeech then Some(AI_VIOLATION_HATE_SPEECH)
    else if code == VertexDangerousContent then Some(AI_VIOLATION_DANGEROUS)
    else if code == VertexQuotaExceeded || code == VertexRateLimited then Some(RATE_QUOTA_EXCEEDED)
    else if code == VertexModelOverloaded then Some(AI_MODEL_OVERLOADED)
    else if code == VertexInvalidRequest then Some(VAL_INVALID_REQUEST)
    else if code == VertexRequestTooLarge then Some(AI_CONTEXT_LENGTH_EXCEEDED)
    else if code == VertexInternalError then Some(SYS_INTERNAL_ERROR)
    else if code == VertexUnavailable then Some(SYS_SERVICE_UNAVAILABLE)
    else if code == VertexTimeout then Some(SYS_TIMEOUT)
    else None
  }

  /** The ordered keyword tests on the lower-cased message, and the default
      (errors/providers/vertex.go:66-89). */
  function MessagePatterns(message: string): ErrorCode
  {
    var msg := ToLower(message);
    if Contains(msg, "child") then AI_VIOLATION_CHILD_SAFETY
    else if Contains(msg, "celebrity") || Contains(msg, "public figure") then AI_VIOLATION_CELEBRITY
    else if Contains(msg, "violent") || Contains(msg, "violence") then AI_VIOLATION_VIOLENCE
    else if Contains(msg, "sexual") || Contains(msg, "adult") then AI_VIOLATION_SEXUAL
    else if Contains(msg, "hate") || Contains(msg, "discriminat") then AI_VIOLATION_HATE_SPEECH
    else if Contains(msg, "quota") || Contains(msg, "limit") then RATE_QUOTA_EXCEEDED
    else if Contains(msg, "overload") || Contains(msg, "capacity") then AI_MODEL_OVERLOADED
    else AI_GENERATION_FAILED
  }

  /** IsRetryableVertexError (errors/providers/vertex.go:93-104). */
  predicate IsRetryableVertexError(code: string)
  {
    if code == VertexQuotaExceeded || code == VertexRateLimited || code == VertexModelOverloaded then true
    else if code == VertexUnavailable || code == VertexTimeout then true
    else code == VertexInternalError
  }

  /** The code switch yields only declared platform codes. */
  lemma CodeSwitchDeclared(code: string) returns (k: Code)
    requires CodeSwitch(code).Some?
    ensures Value(k) == CodeSwitch(code).value
  {
    k := if code == VertexChildSafety then Violation(ChildSafety)
      else if code == VertexCelebrity then Violation(Celebrity)
      else if code == VertexViolence then Violation(Violence)
      else if code == VertexSexualContent then Violation(Sexual)
      else if code == VertexHateSpeech then Violation(HateSpeech)
      else if code == VertexDangerousContent then Violation(Dangerous)
      else if code == VertexQuotaExceeded || code == VertexRateLimited then Rate(QuotaExceeded)
      else if code == VertexModelOverloaded then Model(ModelOverloaded)
      else if code == VertexInvalidRequest then Validation(InvalidRequest)
      else if code == VertexRequestTooLarge then Model(ContextLengthExceeded)
      else if code == VertexInternalError then System(SysInternalError)
      else if code == VertexUnavailable then System(SysServiceUnavailable)
      else System(SysTimeout);
  }

  /** The message patterns yield only declared platform codes. */
  lemma MessagePatternsDeclared(message: string) returns (k: Code)
    ensures Value(k) == MessagePatterns(message)
  {
    var msg := ToLower(message);
    k := if Contains(msg, "child") then Violation(ChildSafety)
      else if Contains(msg, "celebrity") || Contains(msg, "public figure") then Violation(Celebrity)
      else if Contains(msg, "violent") || Contains(msg, "violence") then Violation(Violence)
      else if Contains(msg, "sexual") || Contains(msg, "adult") then Violation(Sexual)
      else if Contains(msg, "hate") || Contains(msg, "discriminat") then Violation(HateSpeech)
      else if Contains(msg, "quota") || Contains(msg, "limit") then Rate(QuotaExceeded)
      else if Contains(msg, "overload") || Contains(msg, "capacity") then Model(ModelOverloaded)
      else Model(GenerationFailed);
  }

  /** Whatever the input, the mapper yields a declared platform code. */
  lemma MapVertexErrorDeclared(code: string, message: string) returns (k: Code)
    ensures Value(k) == MapVertexError(code, message)
  {
    if CodeSwitch(code).Some? {
      k := CodeSwitchDeclared(code);
    } else {
      k := MessagePatternsDeclared(message);
    }
  }

  /** The switch matches exactly the recognised vendor codes, and a
      recognised code decides whatever the message says. */
  lemma VendorCodeWins(code: string, m1: string, m2: string)
    ensures CodeSwitch(code).Some? <==> code in VendorCodes
    ensures code in VendorCodes ==> MapVertexError(code, m1) == MapVertexError(code, m2)
  {
  }

  /** The six numeric codes are content violations: a 403 in the ai
      category (errors/providers/vertex.go:37-48). */
  lemma SafetyCodesForbidden(code: string, message: string)
    requires code in SafetyCodes
    ensures HasPrefix(MapVertexError(code, message), "AI_VIOLATION_")
    ensures ErrorHelpers.DetermineHTTPStatus(MapVertexError(code, message)) == 403
  {
    var k := CodeSwitchDeclared(code);
    assert k.Violation?;
    ViolationPrefix(k);
    ErrorHelpers.ForbiddenStatus(k);
  }

  /** The numeric child-safety code maps to AI_VIOLATION_CHILD_SAFETY with
      an empty message (errors/providers/vertex.go:37-38). */
  lemma ChildSafetyCodeExample()
    ensures MapVertexError("58061214", "") == AI_VIOLATION_CHILD_SAFETY
  {
  }

  /** Vertex never reports RATE_LIMIT_EXCEEDED: both quota codes, and the
      quota/limit keywords, give RATE_QUOTA_EXCEEDED
      (errors/providers/vertex.go:49-50, 81-83). */
  lemma NeverRateLimitExceeded(code: string, message: string)
    ensures MapVertexError(code, message) != RATE_LIMIT_EXCEEDED
    ensures code == VertexQuotaExceeded || code == VertexRateLimited ==>
      MapVertexError(code, message) == RATE_QUOTA_EXCEEDED
  {
    var k := MapVertexErrorDeclared(code, message);
    assert k != Rate(LimitExceeded);
    ValueInjective(k, Rate(LimitExceeded));
  }

  /** The message tests ignore letter case. */
  lemma CaseInsensitive(code: string, m1: string, m2: string)
    requires ToLower(m1) == ToLower(m2)
    ensures MapVertexError(code, m1) == MapVertexError(code, m2)
  {
    assert MessagePatterns(m1) == MessagePatterns(m2);
  }

  /** The message keywords are tried in order: an earlier keyword beats a
      later one, so a message naming both a child and violence is a
      child-safety violation (errors/providers/vertex.go:66-86). */
  lemma MessageOrder(code: string, message: string)
    requires code !in VendorCodes
    ensures var msg := ToLower(message);
      Contains(msg, "child") ==> MapVertexError(code, message) == AI_VIOLATION_CHILD_SAFETY
    ensures var msg := ToLower(message);
      && !Contains(msg, "child")
      && (Contains(msg, "celebrity") || Contains(msg, "public figure"))
      ==> MapVertexError(code, message) == AI_VIOLATION_CELEBRITY
    ensures var msg := ToLower(message);
      && !Contains(msg, "child") && !Contains(msg, "celebrity") && !Contains(msg, "public figure")
      && (Contains(msg, "violent") || Contains(msg, "violence"))
      ==> MapVertexError(code, message) == AI_VIOLATION_VIOLENCE
    ensures var msg := ToLower(message);
      && !Contains(msg, "child") && !Contains(msg, "celebrity") && !Contains(msg, "public figure")
      && !Contains(msg, "violent") && !Contains(msg, "violence")
      && (Contains(msg, "sexual") || Contains(msg, "adult"))
      ==> MapVertexError(code, message) == AI_VIOLATION_SEXUAL
    ensures var msg := ToLower(message);
      && !Contains(msg, "child") && !Contains(msg, "celebrity") && !Contains(msg, "public figure")
      && !Contains(msg, "violent") && !Contains(msg, "violence")
      && !Contains(msg, "sexual") && !Contains(msg, "adult")
      && (Contains(msg, "hate") || Contains(msg, "discriminat"))
      ==> MapVertexError(code, message) == AI_VIOLATION_HATE_SPEECH
    ensures var msg := ToLower(message);
      && !Contains(msg, "child") && !Contains(msg, "celebrity") && !Contains(msg, "public figure")
      && !Contains(msg, "violent") && !Contains(msg, "violence")
      && !Contains(msg, "sexual") && !Contains(msg, "adult")
      && !Contains(msg, "hate") && !Contains(msg, "discriminat")
      && (Contains(msg, "quota") || Contains(msg, "limit"))
      ==> MapVertexError(code, message) == RATE_QUOTA_EXCEEDED
    ensures var msg := ToLower(message);
      && !Contains(msg, "child") && !Contains(msg, "celebrity") && !Contains(msg, "public figure")
      && !Contains(msg, "violent") && !Contains(msg, "violence")
      && !Contains(msg, "sexual") && !Contains(msg, "adult")
      && !Contains(msg, "hate") && !Contains(msg, "discriminat")
      && !Contains(msg, "quota") && !Contains(msg, "limit")
      && (Contains(msg, "overload") || Contains(msg, "capacity"))
      ==> MapVertexError(code, message) == AI_MODEL_OVERLOADED
  {
    VendorCodeWins(code, message, message);
  }

  /** AI_GENERATION_FAILED is returned exactly when neither the code nor
      any keyword matched (errors/providers/vertex.go:89). */
  lemma GenerationFailedExactly(code: string, message: string)
    ensures MapVertexError(code, message) == AI_GENERATION_FAILED <==>
      code !in VendorCodes &&
      !Contains(ToLower(message), "child") && !Contains(ToLower(message), "celebrity") &&
      !Contains(ToLower(message), "public figure") && !Contains(ToLower(message), "violent") &&
      !Contains(ToLower(message), "violence") && !Contains(ToLower(message), "sexual") &&
      !Contains(ToLower(message), "adult") && !Contains(ToLower(message), "hate") &&
      !Contains(ToLower(message), "discriminat") && !Contains(ToLower(message), "quota") &&
      !Contains(ToLower(message), "limit") && !Contains(ToLower(message), "overload") &&
      !Contains(ToLower(message), "capacity")
  {
    VendorCodeWins(code, message, message);
  }

  /** An unknown code with a message about violence is a violence
      violation (errors/providers/vertex.go:72-74). */
  lemma ViolenceMessageExample()
    ensures MapVertexError("UNKNOWN_CODE", "This content depicts violence") == AI_VIOLATION_VIOLENCE
  {
    ExampleLowered();
    ExampleKeywords();
  }

  /** Lower-casing the example message. */
  lemma ExampleLowered()
    ensures ToLower("This content depicts violence") == "this content depicts violence"
  {
  }

  /** Which keywords the lowered example message contains. */
  lemma ExampleKeywords()
    ensures !Contains("this content depicts violence", "child")
    ensures !Contains("this content depicts violence", "celebrity")
    ensures !Contains("this content depicts violence", "public figure")
    ensures Contains("this content depicts violence", "violent") || Contains("this content depicts violence", "violence")
  {
    var lower := "this content depicts violence";
    AbsentPairNotContained(lower, "child", 0);
    AbsentPairNotContained(lower, "celebrity", 1);
    AbsentPairNotContained(lower, "public figure", 0);
    assert lower[21..29] == "violence";
    assert OccursAt(lower, "violence", 21);
  }

  /** IsRetryableVertexError is membership in a set of six codes. */
  lemma RetryableExactly(code: string)
    ensures IsRetryableVertexError(code) <==> code in {VertexQuotaExceeded, VertexRateLimited,
      VertexModelOverloaded, VertexUnavailable, VertexTimeout, VertexInternalError}
  {
  }

  /** The retry table agrees with the platform's for overload, unavailable
      and timeout, but not for the two quota codes or INTERNAL, which map
      to codes the platform calls non-retryable. */
  lemma RetryableAgainstPlatform(code: string, message: string)
    ensures code in {VertexModelOverloaded, VertexUnavailable, VertexTimeout} ==>
      IsRetryableVertexError(code) && ErrorBuilders.IsRetryableCode(MapVertexError(code, message))
    ensures code in {VertexQuotaExceeded, VertexRateLimited, VertexInternalError} ==>
      IsRetryableVertexError(code) && !ErrorBuilders.IsRetryableCode(MapVertexError(code, message))
  {
  }
}
