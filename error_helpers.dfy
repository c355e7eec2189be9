// Classification of error codes into category, severity and HTTP status
// (errors/helpers.go). The classifiers are total over all strings.
module ErrorHelpers {
  import opened Text
  import opened ErrorCodes
  import opened ErrorTypes
  import opened Wrappers

  /** The seven categories the classifier can produce. */
  const Categories: set<ErrorCategory> :=
    {CategoryValidation, CategoryAuth, CategorySystem, CategoryAI, CategoryMedia, CategoryBilling, CategoryRate}

  /** determineCategory (errors/helpers.go:6-32): the first matching family
      prefix decides, anything else is a system error. */
  function DetermineCategory(code: ErrorCode): (r: ErrorCategory)
    ensures r in Categories
  {
    if HasPrefix(code, "AI_") then CategoryAI
    else if HasPrefix(code, "MEDIA_") then CategoryMedia
    else if HasPrefix(code, "VAL_") then CategoryValidation
    else if HasPrefix(code, "AUTH_") then CategoryAuth
    else if HasPrefix(code, "SYS_") then CategorySystem
    else if HasPrefix(code, "BILL_") then CategoryBilling
    else if HasPrefix(code, "RATE_") then CategoryRate
    else CategorySystem
  }

  /** Codes logged as critical (errors/helpers.go:37-42). */
  const CriticalCodes: set<ErrorCode> :=
    {SYS_INTERNAL_ERROR, SYS_DATABASE_ERROR, AUTH_UNAUTHORIZED, AUTH_FORBIDDEN}

  /** Codes logged as high (errors/helpers.go:49-54). */
  const HighCodes: set<ErrorCode> :=
    {AI_VIOLATION_CHILD_SAFETY, AI_VIOLATION_PERSONAL_INFO, BILL_INSUFFICIENT_CREDITS, SYS_SERVICE_UNAVAILABLE}

  /** Codes logged as low (errors/helpers.go:61-65). */
  const LowCodes: set<ErrorCode> :=
    {VAL_INVALID_PARAMETER, VAL_MISSING_PARAMETER, RATE_LIMIT_EXCEEDED}

  /** determineSeverity (errors/helpers.go:35-73). */
  function DetermineSeverity(code: ErrorCode): (r: Severity)
    ensures r in {SeverityLow, SeverityMedium, SeverityHigh, SeverityCritical}
  {
    if code in CriticalCodes then SeverityCritical
    else if code in HighCodes then SeverityHigh
    else if code in LowCodes then SeverityLow
    else SeverityMedium
  }

  // The explicit status table of determineHTTPStatus (errors/helpers.go:78-152),
  // one set of codes per status; a Go map literal lists each key once.
  const BadRequestCodes: set<ErrorCode> := {
    VAL_INVALID_REQUEST, VAL_INVALID_PARAMETER, VAL_MISSING_PARAMETER, VAL_INVALID_FORMAT,
    VAL_OUT_OF_RANGE, MEDIA_INVALID_DIMENSIONS, MEDIA_INVALID_ASPECT_RATIO,
    MEDIA_INVALID_DURATION, AI_CONTEXT_LENGTH_EXCEEDED}
  const UnauthorizedCodes: set<ErrorCode> := {AUTH_UNAUTHORIZED, AUTH_INVALID_TOKEN, AUTH_TOKEN_EXPIRED}
  const PaymentRequiredCodes: set<ErrorCode> :=
    {BILL_INSUFFICIENT_CREDITS, BILL_PAYMENT_REQUIRED, BILL_SUBSCRIPTION_EXPIRED}
  const ForbiddenCodes: set<ErrorCode> := {
    AUTH_FORBIDDEN, AI_VIOLATION_CHILD_SAFETY, AI_VIOLATION_CELEBRITY, AI_VIOLATION_VIOLENCE,
    AI_VIOLATION_SEXUAL, AI_VIOLATION_HATE_SPEECH, AI_VIOLATION_PERSONAL_INFO, AI_VIOLATION_TOXIC,
    AI_VIOLATION_DANGEROUS, AI_VIOLATION_PROHIBITED, AI_VIOLATION_VULGAR, AI_VIOLATION_OTHER}
  const NotFoundCodes: set<ErrorCode> := {TOOL_NOT_FOUND, CONV_NOT_FOUND, CONV_MESSAGE_NOT_FOUND}
  const PayloadTooLargeCodes: set<ErrorCode> := {MEDIA_SIZE_TOO_LARGE, CONV_MESSAGE_TOO_LONG}
  const UnprocessableCodes: set<ErrorCode> := {MEDIA_UNSUPPORTED_FORMAT, MEDIA_CORRUPTED, AI_INVALID_MODEL}
  const TooManyRequestsCodes: set<ErrorCode> := {RATE_LIMIT_EXCEEDED, RATE_QUOTA_EXCEEDED}
  const InternalCodes: set<ErrorCode> := {
    SYS_INTERNAL_ERROR, AI_GENERATION_FAILED, AI_OPERATION_FAILED, MEDIA_PROCESSING_FAILED,
    TOOL_EXECUTION_FAILED, SYS_DATABASE_ERROR, SYS_STORAGE_ERROR}
  const BadGatewayCodes: set<ErrorCode> := {SYS_NETWORK_ERROR}
  const UnavailableCodes: set<ErrorCode> := {SYS_SERVICE_UNAVAILABLE, AI_MODEL_UNAVAILABLE, AI_MODEL_OVERLOADED}
  const GatewayTimeoutCodes: set<ErrorCode> := {SYS_TIMEOUT, TOOL_TIMEOUT}

  /** The table lookup `statusMap[code]` with its "exists" flag. */
  function TableStatus(code: ErrorCode): Option<int>
  {
    if code in BadRequestCodes then Some(400)
    else if code in UnauthorizedCodes then Some(401)
    else if code in PaymentRequiredCodes then Some(402)
    else if code in ForbiddenCodes then Some(403)
    else if code in NotFoundCodes then Some(404)
    else if code in PayloadTooLargeCodes then Some(413)
    else if code in UnprocessableCodes then Some(422)
    else if code in TooManyRequestsCodes then Some(429)
    else if code in InternalCodes then Some(500)
    else if code in BadGatewayCodes then Some(502)
    else if code in UnavailableCodes then Some(503)
    else if code in GatewayTimeoutCodes then Some(504)
    else None
  }

  /** Every status the classifier can produce. */
  const KnownStatuses: set<int> := {400, 401, 402, 403, 404, 413, 422, 429, 500, 502, 503, 504}

  /** determineHTTPStatus (errors/helpers.go:76-172): the table wins, then the
      VAL_/AUTH_/RATE_ prefixes, then 500. */
  function DetermineHTTPStatus(code: ErrorCode): (r: int)
    ensures r in KnownStatuses
  {
    if TableStatus(code).Some? then TableStatus(code).value
    else if HasPrefix(code, "VAL_") then 400
    else if HasPrefix(code, "AUTH_") then 401
    else if HasPrefix(code, "RATE_") then 429
    else 500
  }

  /** The category each family is classified under: TOOL_ and CONV_ have no
      category of their own and fall to system. */
  function FamilyCategory(f: Family): ErrorCategory
  {
    match f
    case AiFamily => CategoryAI
    case MediaFamily => CategoryMedia
    case ValFamily => CategoryValidation
    case AuthFamily => CategoryAuth
    case SysFamily => CategorySystem
    case BillFamily => CategoryBilling
    case RateFamily => CategoryRate
    case ToolFamily => CategorySystem
    case ConvFamily => CategorySystem
  }

  /** For any string, a family prefix decides the category whatever its place
      in the order of tests, and a string with no family prefix is a system
      error (errors/helpers.go:6-31). */
  lemma {:induction false} CategoryByPrefix(code: ErrorCode, f: Family)
    ensures HasPrefix(code, FamilyPrefix(f)) ==> DetermineCategory(code) == FamilyCategory(f)
    ensures (forall g :: !HasPrefix(code, FamilyPrefix(g))) ==> DetermineCategory(code) == CategorySystem
  {
    if HasPrefix(code, FamilyPrefix(f)) {
      var p := FamilyPrefix(f);
      assert code[0] == p[0] && code[1] == p[1];
      var earlier := ["AI_", "MEDIA_", "VAL_", "AUTH_", "SYS_", "BILL_", "RATE_"];
      forall q | q in earlier && q != p
        ensures !HasPrefix(code, q)
      {
        if q[0] != p[0] {
          DisagreeNotPrefix(code, q, 0);
        } else {
          DisagreeNotPrefix(code, q, 1);
        }
      }
    }
    if forall g :: !HasPrefix(code, FamilyPrefix(g)) {
      assert !HasPrefix(code, FamilyPrefix(AiFamily));
      assert !HasPrefix(code, FamilyPrefix(MediaFamily));
      assert !HasPrefix(code, FamilyPrefix(ValFamily));
      assert !HasPrefix(code, FamilyPrefix(AuthFamily));
      assert !HasPrefix(code, FamilyPrefix(BillFamily));
      assert !HasPrefix(code, FamilyPrefix(RateFamily));
    }
  }

  /** Every declared code is classified by its family. */
  lemma CategoryOfCode(c: Code)
    ensures DetermineCategory(Value(c)) == FamilyCategory(FamilyOf(c))
  {
    ValueHasFamilyPrefix(c);
    CategoryByPrefix(Value(c), FamilyOf(c));
  }

  /** The three severity sets are pairwise disjoint (errors/helpers.go:37-65). */
  lemma SeveritySetsDisjoint()
    ensures CriticalCodes !! HighCodes && CriticalCodes !! LowCodes && HighCodes !! LowCodes
  {
  }

  /** Severity is critical, high and low exactly on its three sets, and
      medium everywhere else (errors/helpers.go:35-73). */
  lemma SeverityExact(code: ErrorCode)
    ensures DetermineSeverity(code) == SeverityCritical <==> code in CriticalCodes
    ensures DetermineSeverity(code) == SeverityHigh <==> code in HighCodes
    ensures DetermineSeverity(code) == SeverityLow <==> code in LowCodes
    ensures DetermineSeverity(code) == SeverityMedium <==> code !in CriticalCodes + HighCodes + LowCodes
  {
    SeveritySetsDisjoint();
  }

  /** The status groups of the table are pairwise disjoint, so the order in
      which TableStatus tests them does not matter. */
  lemma StatusGroupsDisjoint()
    ensures BadRequestCodes !! ForbiddenCodes && UnauthorizedCodes !! ForbiddenCodes
    ensures PaymentRequiredCodes !! ForbiddenCodes
  {
  }

  /** Every content-violation code and AUTH_FORBIDDEN map to 403
      (errors/helpers.go:100-112). */
  lemma ForbiddenStatus(c: Code)
    requires c.Violation? || c == Auth(Forbidden)
    ensures DetermineHTTPStatus(Value(c)) == 403
  {
    StatusGroupsDisjoint();
  }

  /** For any string, a VAL_ code is a 400 whether or not the table lists it
      (errors/helpers.go:80-84, 160-162). */
  lemma {:induction false} ValidationStatus(code: ErrorCode)
    requires HasPrefix(code, "VAL_")
    ensures DetermineHTTPStatus(code) == 400
  {
    assert code[0] == 'V';
  }

  /** For any string, a RATE_ code is a 429 (errors/helpers.go:129-130, 166-168). */
  lemma {:induction false} RateStatus(code: ErrorCode)
    requires HasPrefix(code, "RATE_")
    ensures DetermineHTTPStatus(code) == 429
  {
    assert code[0] == 'R';
    DisagreeNotPrefix(code, "VAL_", 0);
    DisagreeNotPrefix(code, "AUTH_", 0);
  }

  /** For any string, an AUTH_ code is a 401 or a 403
      (errors/helpers.go:91-93, 101, 163-165). */
  lemma {:induction false} AuthStatus(code: ErrorCode)
    requires HasPrefix(code, "AUTH_")
    ensures DetermineHTTPStatus(code) in {401, 403}
  {
    assert code[0] == 'A' && code[1] == 'U';
    DisagreeNotPrefix(code, "VAL_", 0);
  }

  /** Codes missing from the table fall back on their prefix: frame-rate and
      tool-parameter errors are 500s (errors/helpers.go:154-171). */
  lemma FallbackStatuses()
    ensures DetermineHTTPStatus(MEDIA_INVALID_FRAME_RATE) == 500
    ensures DetermineHTTPStatus(TOOL_INVALID_PARAMS) == 500
  {
    DisagreeNotPrefix(MEDIA_INVALID_FRAME_RATE, "VAL_", 0);
    DisagreeNotPrefix(MEDIA_INVALID_FRAME_RATE, "AUTH_", 0);
    DisagreeNotPrefix(MEDIA_INVALID_FRAME_RATE, "RATE_", 0);
    DisagreeNotPrefix(TOOL_INVALID_PARAMS, "VAL_", 0);
    DisagreeNotPrefix(TOOL_INVALID_PARAMS, "AUTH_", 0);
    DisagreeNotPrefix(TOOL_INVALID_PARAMS, "RATE_", 0);
  }
}
