// Convenience constructors for common errors and the code lookups beside them
// (errors/builders.go). Each constructor builds a fresh ServiceError and then
// runs the setters on it; the clock reading is a parameter.
module ErrorBuilders {
  import opened Wrappers
  import opened Text
  import opened ErrorCodes
  import opened ErrorTypes
  import opened ErrorHelpers
  import opened ServiceErrors

  /** The violation types mapViolationTypeToCode knows (errors/builders.go:104-115). */
  const ViolationTypes: set<string> := {"CHILD_SAFETY", "CELEBRITY", "VIOLENCE", "SEXUAL",
    "HATE_SPEECH", "PERSONAL_INFO", "TOXIC", "DANGEROUS", "PROHIBITED", "VULGAR"}

  /** mapViolationTypeToCode (errors/builders.go:103-121): an exact,
      case-sensitive lookup; anything else is AI_VIOLATION_OTHER. */
  function MapViolationTypeToCode(violationType: string): (r: ErrorCode)
  {
    if violationType == "CHILD_SAFETY" then AI_VIOLATION_CHILD_SAFETY
    else if violationType == "CELEBRITY" then AI_VIOLATION_CELEBRITY
    else if violationType == "VIOLENCE" then AI_VIOLATION_VIOLENCE
    else if violationType == "SEXUAL" then AI_VIOLATION_SEXUAL
    else if violationType == "HATE_SPEECH" then AI_VIOLATION_HATE_SPEECH
    else if violationType == "PERSONAL_INFO" then AI_VIOLATION_PERSONAL_INFO
    else if violationType == "TOXIC" then AI_VIOLATION_TOXIC
    else if violationType == "DANGEROUS" then AI_VIOLATION_DANGEROUS
    else if violationType == "PROHIBITED" then AI_VIOLATION_PROHIBITED
    else if violationType == "VULGAR" then AI_VIOLATION_VULGAR
    else AI_VIOLATION_OTHER
  }

  /** Codes that are typically worth retrying (errors/builders.go:125-132). */
  const RetryableCodes: set<ErrorCode> := {SYS_SERVICE_UNAVAILABLE, SYS_TIMEOUT, SYS_NETWORK_ERROR,
    AI_MODEL_OVERLOADED, AI_MODEL_UNAVAILABLE, RATE_LIMIT_EXCEEDED}

  /** IsRetryableCode (errors/builders.go:124-135). */
  predicate IsRetryableCode(code: ErrorCode)
  {
    code in RetryableCodes
  }

  /** The code of a content-violation error: the first violation's type
      decides, and an empty list is AI_VIOLATION_OTHER (errors/builders.go:11-14). */
  function ContentViolationCode(violations: seq<ViolationDetail>): ErrorCode
  {
    if |violations| > 0 then MapViolationTypeToCode(violations[0].violationType) else AI_VIOLATION_OTHER
  }

  /** The message of a content-violation error (errors/builders.go:17-23). */
  function ContentViolationMessage(violations: seq<ViolationDetail>): string
  {
    if |violations| == 0 then "Content violated platform policies"
    else if |violations| == 1 then violations[0].description
    else violations[0].description + " (+" + NatToString(|violations| - 1) + " more violations)"
  }

  /** The message of a validation error (errors/builders.go:31-35). */
  function ValidationMessage(details: seq<ValidationDetail>): string
  {
    if |details| == 0 then "Validation failed"
    else "Validation failed for field '" + details[0].field + "': " + details[0].reason
  }

  /** fmt's %v of an interface{} value: its rendering, or "<nil>". */
  function RenderValue(v: Option<string>): string
  {
    if v.Some? then v.value else "<nil>"
  }

  /** The message of a timeout error (errors/builders.go:84-87). */
  function TimeoutMessage(operation: string): string
  {
    if operation == "" then "Operation timed out" else "Operation '" + operation + "' timed out"
  }

  /** The message of an internal error (errors/builders.go:94-97). */
  function InternalMessage(details: string): string
  {
    if details == "" then "An internal error occurred" else "An internal error occurred: " + details
  }

  const ModelOverloadedMessage := "The AI model is currently at capacity. Please try again later."

  /** The classified state NewServiceError leaves behind, before any setter. */
  function Fresh(code: ErrorCode, message: string, service: string, retryable: bool, occurredAt: int,
                 metadata: ErrorMetadata?): ErrorState
  {
    ErrorState(code, message, service, DetermineHTTPStatus(code), DetermineCategory(code),
      DetermineSeverity(code), retryable, occurredAt, "", "", "", None, "", metadata)
  }

  /** ContentViolationError (errors/builders.go:9-27). */
  method ContentViolationError(service: string, violations: seq<ViolationDetail>, now: int)
    returns (e: ServiceError)
    ensures fresh(e) && fresh(e.metadata)
    ensures e.State() == Fresh(ContentViolationCode(violations), ContentViolationMessage(violations),
      service, false, now, e.metadata)
    ensures e.MetadataContents() == Some(EmptyMetadata.(violationDetails := violations))
    ensures e.httpStatus == 403 && e.category == CategoryAI
    ensures e.HasViolations() <==> |violations| > 0
  {
    ContentViolationClassified(violations);
    e := new ServiceError(ContentViolationCode(violations), ContentViolationMessage(violations),
      service, false, now);
    e := e.WithViolations(violations);
  }

  /** ValidationError (errors/builders.go:30-39). */
  method ValidationError(service: string, details: seq<ValidationDetail>, now: int)
    returns (e: ServiceError)
    ensures fresh(e) && fresh(e.metadata)
    ensures e.State() == Fresh(VAL_INVALID_REQUEST, ValidationMessage(details), service, false, now, e.metadata)
    ensures e.MetadataContents() == Some(EmptyMetadata.(validationDetails := details))
    ensures e.HasValidationErrors() <==> |details| > 0
  {
    e := new ServiceError(VAL_INVALID_REQUEST, ValidationMessage(details), service, false, now);
    e := e.WithValidationErrors(details);
  }

  /** MediaDimensionError (errors/builders.go:42-54): one validation detail
      for the "dimensions" field. */
  method MediaDimensionError(service: string, provided: Option<string>, expected: Option<string>, now: int)
    returns (e: ServiceError)
    ensures fresh(e) && fresh(e.metadata)
    ensures e.State() == Fresh(MEDIA_INVALID_DIMENSIONS, "Invalid media dimensions: " + RenderValue(provided),
      service, false, now, e.metadata)
    ensures e.MetadataContents() == Some(EmptyMetadata.(validationDetails :=
      [ValidationDetail("dimensions", provided, expected, "Dimensions do not meet requirements")]))
    ensures e.HasValidationErrors()
  {
    e := new ServiceError(MEDIA_INVALID_DIMENSIONS, "Invalid media dimensions: " + RenderValue(provided),
      service, false, now);
    e := e.WithValidationErrors([ValidationDetail("dimensions", provided, expected,
      "Dimensions do not meet requirements")]);
  }

  /** RateLimitError (errors/builders.go:57-64). `retryAfterText` is fmt's %v
      of the duration. */
  method RateLimitError(service: string, retryAfter: Duration, retryAfterText: string, now: int)
    returns (e: ServiceError)
    ensures fresh(e) && fresh(e.metadata)
    ensures e.State() == Fresh(RATE_LIMIT_EXCEEDED, "Rate limit exceeded. Retry after " + retryAfterText,
      service, true, now, e.metadata)
    ensures e.MetadataContents() == Some(EmptyMetadata.(retryAfter := Some(retryAfter)))
  {
    e := new ServiceError(RATE_LIMIT_EXCEEDED, "Rate limit exceeded. Retry after " + retryAfterText,
      service, true, now);
    e := e.WithRetryAfter(retryAfter);
  }

  /** ModelOverloadedError (errors/builders.go:67-80): provider metadata, with
      an empty provider code, only for a non-empty provider. */
  method ModelOverloadedError(service: string, provider: string, now: int)
    returns (e: ServiceError)
    ensures fresh(e)
    ensures provider == "" ==> e.State() == Fresh(AI_MODEL_OVERLOADED, ModelOverloadedMessage, service, true, now, null)
    ensures provider != "" ==> fresh(e.metadata)
    ensures provider != "" ==>
      e.State() == Fresh(AI_MODEL_OVERLOADED, ModelOverloadedMessage, service, true, now, e.metadata)
    ensures provider != "" ==>
      e.MetadataContents() == Some(EmptyMetadata.(provider := provider, providerCode := ""))
  {
    e := new ServiceError(AI_MODEL_OVERLOADED, ModelOverloadedMessage, service, true, now);
    if provider != "" {
      var _ := e.WithProvider(provider, "");
    }
  }

  /** TimeoutError (errors/builders.go:83-90). */
  method TimeoutError(service: string, operation: string, now: int) returns (e: ServiceError)
    ensures fresh(e)
    ensures e.State() == Fresh(SYS_TIMEOUT, TimeoutMessage(operation), service, true, now, null)
  {
    e := new ServiceError(SYS_TIMEOUT, TimeoutMessage(operation), service, true, now);
  }

  /** InternalError (errors/builders.go:93-100). */
  method InternalError(service: string, details: string, now: int) returns (e: ServiceError)
    ensures fresh(e)
    ensures e.State() == Fresh(SYS_INTERNAL_ERROR, InternalMessage(details), service, true, now, null)
  {
    e := new ServiceError(SYS_INTERNAL_ERROR, InternalMessage(details), service, true, now);
  }

  /** The ten known types map to their AI_VIOLATION_ code, with the type as
      the code's suffix (errors/builders.go:104-118). */
  lemma KnownViolationType(t: string)
    requires t in ViolationTypes
    ensures MapViolationTypeToCode(t) == "AI_VIOLATION_" + t
  {
    if t == "CHILD_SAFETY" {
      assert "AI_VIOLATION_" + "CHILD_SAFETY" == AI_VIOLATION_CHILD_SAFETY;
    } else if t == "CELEBRITY" {
      assert "AI_VIOLATION_" + "CELEBRITY" == AI_VIOLATION_CELEBRITY;
    } else if t == "VIOLENCE" {
      assert "AI_VIOLATION_" + "VIOLENCE" == AI_VIOLATION_VIOLENCE;
    } else if t == "SEXUAL" {
      assert "AI_VIOLATION_" + "SEXUAL" == AI_VIOLATION_SEXUAL;
    } else if t == "HATE_SPEECH" {
      assert "AI_VIOLATION_" + "HATE_SPEECH" == AI_VIOLATION_HATE_SPEECH;
    } else if t == "PERSONAL_INFO" {
      assert "AI_VIOLATION_" + "PERSONAL_INFO" == AI_VIOLATION_PERSONAL_INFO;
    } else if t == "TOXIC" {
      assert "AI_VIOLATION_" + "TOXIC" == AI_VIOLATION_TOXIC;
    } else if t == "DANGEROUS" {
      assert "AI_VIOLATION_" + "DANGEROUS" == AI_VIOLATION_DANGEROUS;
    } else if t == "PROHIBITED" {
      assert "AI_VIOLATION_" + "PROHIBITED" == AI_VIOLATION_PROHIBITED;
    } else {
      assert "AI_VIOLATION_" + "VULGAR" == AI_VIOLATION_VULGAR;
    }
  }

  /** Exactly the unknown types give AI_VIOLATION_OTHER; the match is case
      sensitive (errors/builders.go:117-120). */
  lemma OtherViolationType(t: string)
    ensures MapViolationTypeToCode(t) == AI_VIOLATION_OTHER <==> t !in ViolationTypes
    ensures MapViolationTypeToCode("child_safety") == AI_VIOLATION_OTHER
  {
  }

  /** Whatever the type, the result is a declared content-violation code. */
  lemma ViolationTypeIsViolation(t: string) returns (x: ViolationCode)
    ensures ViolationValue(x) == MapViolationTypeToCode(t)
  {
    x := if t == "CHILD_SAFETY" then ChildSafety
      else if t == "CELEBRITY" then Celebrity
      else if t == "VIOLENCE" then Violence
      else if t == "SEXUAL" then Sexual
      else if t == "HATE_SPEECH" then HateSpeech
      else if t == "PERSONAL_INFO" then PersonalInfo
      else if t == "TOXIC" then Toxic
      else if t == "DANGEROUS" then Dangerous
      else if t == "PROHIBITED" then Prohibited
      else if t == "VULGAR" then Vulgar
      else Other;
  }

  /** A content-violation error is always a 403 in the ai category, whatever
      the list holds. */
  lemma ContentViolationClassified(violations: seq<ViolationDetail>)
    ensures DetermineHTTPStatus(ContentViolationCode(violations)) == 403
    ensures DetermineCategory(ContentViolationCode(violations)) == CategoryAI
  {
    var x := Other;
    if |violations| > 0 {
      x := ViolationTypeIsViolation(violations[0].violationType);
    }
    assert Value(Violation(x)) == ContentViolationCode(violations);
    ForbiddenStatus(Violation(x));
    CategoryOfCode(Violation(x));
  }

  /** Only the first violation decides the code: lists that agree on the
      first type get the same code, whatever follows. */
  lemma ContentViolationCodeFirstOnly(vs: seq<ViolationDetail>, ws: seq<ViolationDetail>)
    requires |vs| > 0 && |ws| > 0 && vs[0].violationType == ws[0].violationType
    ensures ContentViolationCode(vs) == ContentViolationCode(ws)
  {
  }

  /** The count in the message reads back as the number of further
      violations (errors/builders.go:20-22). */
  lemma ContentViolationMessageCount(violations: seq<ViolationDetail>)
    requires |violations| > 1
    ensures exists k :: AllDigits(k) && DecimalValue(k) == |violations| - 1 &&
                        ContentViolationMessage(violations) ==
                        violations[0].description + " (+" + k + " more violations)"
  {
    var k := NatToString(|violations| - 1);
    DecimalRoundTrip(|violations| - 1);
    assert ContentViolationMessage(violations) == violations[0].description + " (+" + k + " more violations)";
  }

  /** Every retryable code is a 429 or a 5xx gateway/availability status. */
  lemma RetryableCodesStatus(code: ErrorCode)
    requires IsRetryableCode(code)
    ensures DetermineHTTPStatus(code) in {429, 502, 503, 504}
  {
    StatusGroupsDisjoint();
  }

  /** ValidationError's fixed code is a 400 in the validation category
      (errors/builders.go:37). */
  lemma ValidationErrorClassified()
    ensures DetermineHTTPStatus(VAL_INVALID_REQUEST) == 400
    ensures DetermineCategory(VAL_INVALID_REQUEST) == CategoryValidation
  {
    CategoryOfCode(Validation(InvalidRequest));
  }

  /** MediaDimensionError's fixed code is a 400 in the media category
      (errors/builders.go:44). */
  lemma MediaDimensionClassified()
    ensures DetermineHTTPStatus(MEDIA_INVALID_DIMENSIONS) == 400
    ensures DetermineCategory(MEDIA_INVALID_DIMENSIONS) == CategoryMedia
  {
    CategoryOfCode(Media(InvalidDimensions));
  }

  /** RateLimitError's fixed code is a low-severity 429 that the code table
      also calls retryable (errors/builders.go:59-62). */
  lemma RateLimitClassified()
    ensures DetermineHTTPStatus(RATE_LIMIT_EXCEEDED) == 429
    ensures DetermineSeverity(RATE_LIMIT_EXCEEDED) == SeverityLow
    ensures IsRetryableCode(RATE_LIMIT_EXCEEDED)
  {
    SeverityExact(RATE_LIMIT_EXCEEDED);
  }

  /** ModelOverloadedError's fixed code is a retryable 503 in the ai
      category (errors/builders.go:69-72). */
  lemma ModelOverloadedClassified()
    ensures DetermineHTTPStatus(AI_MODEL_OVERLOADED) == 503
    ensures DetermineCategory(AI_MODEL_OVERLOADED) == CategoryAI
    ensures IsRetryableCode(AI_MODEL_OVERLOADED)
  {
    CategoryOfCode(Model(ModelOverloaded));
  }

  /** TimeoutError's fixed code is a retryable 504 (errors/builders.go:89). */
  lemma TimeoutClassified()
    ensures DetermineHTTPStatus(SYS_TIMEOUT) == 504
    ensures IsRetryableCode(SYS_TIMEOUT)
  {
  }

  /** InternalError's fixed code is a critical 500, and the builder marks it
      retryable although IsRetryableCode(SYS_INTERNAL_ERROR) is false
      (errors/builders.go:99, 124-135). */
  lemma InternalClassified()
    ensures DetermineHTTPStatus(SYS_INTERNAL_ERROR) == 500
    ensures DetermineSeverity(SYS_INTERNAL_ERROR) == SeverityCritical
    ensures !IsRetryableCode(SYS_INTERNAL_ERROR)
  {
    SeverityExact(SYS_INTERNAL_ERROR);
  }
}
