// The ServiceError record and its builder-style setters (errors/types.go:8-272).
// Every setter assigns receiver fields and returns the receiver; the metadata
// setters allocate ErrorMetadata on first use and write into it.
module ServiceErrors {
  import opened Wrappers
  import opened ErrorCodes
  import opened ErrorTypes
  import opened ErrorHelpers

  /** The observable contents of an ErrorMetadata (errors/types.go:56-77).
      ProviderData and Details are left out. */
  datatype MetadataView = MetadataView(
    validationDetails: seq<ValidationDetail>,
    violationDetails: seq<ViolationDetail>,
    retryAfter: Option<Duration>,
    quotaLimit: int,
    quotaUsed: int,
    provider: string,
    providerCode: string)

  /** The zero value `ErrorMetadata{}`. */
  const EmptyMetadata := MetadataView([], [], None, 0, 0, "", "")

  class ErrorMetadata {
    var validationDetails: seq<ValidationDetail>
    var violationDetails: seq<ViolationDetail>
    var retryAfter: Option<Duration>
    var quotaLimit: int
    var quotaUsed: int
    var provider: string
    var providerCode: string

    function View(): MetadataView
      reads this
    {
      MetadataView(validationDetails, violationDetails, retryAfter, quotaLimit, quotaUsed, provider, providerCode)
    }

    /** `&ErrorMetadata{}` */
    constructor ()
      ensures View() == EmptyMetadata
    {
      validationDetails := [];
      violationDetails := [];
      retryAfter := None;
      quotaLimit := 0;
      quotaUsed := 0;
      provider := "";
      providerCode := "";
    }
  }

  /** The fields of a ServiceError (errors/types.go:11-53); `metadata` is the
      pointer, whose target has its own View. The Go `Cause error` is kept as
      the text of the wrapped error, or None for nil. */
  datatype ErrorState = ErrorState(
    code: ErrorCode,
    message: string,
    service: string,
    httpStatus: int,
    category: ErrorCategory,
    severity: Severity,
    retryable: bool,
    occurredAt: int,
    requestID: string,
    jobID: string,
    userID: string,
    cause: Option<string>,
    causeMessage: string,
    metadata: ErrorMetadata?)

  class ServiceError {
    var code: ErrorCode
    var message: string
    var service: string
    var httpStatus: int
    var category: ErrorCategory
    var severity: Severity
    var retryable: bool
    var occurredAt: int
    var requestID: string
    var jobID: string
    var userID: string
    var cause: Option<string>
    var causeMessage: string
    var metadata: ErrorMetadata?

    function State(): ErrorState
      reads this
    {
      ErrorState(code, message, service, httpStatus, category, severity, retryable, occurredAt,
        requestID, jobID, userID, cause, causeMessage, metadata)
    }

    /** The metadata's contents, or None while the pointer is nil. */
    function MetadataContents(): Option<MetadataView>
      reads this, metadata
    {
      if metadata == null then None else Some(metadata.View())
    }

    /** NewServiceError (errors/types.go:166-182): code, message, service and
        retryable as given, the three derived fields from the classifiers,
        and every optional field empty. The clock reading is a parameter. */
    constructor (code: ErrorCode, message: string, service: string, retryable: bool, occurredAt: int)
      ensures State() == ErrorState(code, message, service,
        DetermineHTTPStatus(code), DetermineCategory(code), DetermineSeverity(code),
        retryable, occurredAt, "", "", "", None, "", null)
      ensures Error() == message && GetCode() == code && IsRetryable() == retryable
      ensures !HasViolations() && !HasValidationErrors()
    {
      this.code := code;
      this.message := message;
      this.service := service;
      this.httpStatus := DetermineHTTPStatus(code);
      this.category := DetermineCategory(code);
      this.severity := DetermineSeverity(code);
      this.retryable := retryable;
      this.occurredAt := occurredAt;
      this.requestID := "";
      this.jobID := "";
      this.userID := "";
      this.cause := None;
      this.causeMessage := "";
      this.metadata := null;
    }

    /** Error() (errors/types.go:136-138). */
    function Error(): string
      reads this
    {
      message
    }

    /** IsRetryable() (errors/types.go:141-143). */
    function IsRetryable(): bool
      reads this
    {
      retryable
    }

    /** GetCode() (errors/types.go:146-148). */
    function GetCode(): ErrorCode
      reads this
    {
      code
    }

    /** HasViolations() (errors/types.go:151-153). */
    predicate HasViolations()
      reads this, metadata
    {
      metadata != null && |metadata.violationDetails| > 0
    }

    /** HasValidationErrors() (errors/types.go:156-158). */
    predicate HasValidationErrors()
      reads this, metadata
    {
      metadata != null && |metadata.validationDetails| > 0
    }

    /** WithRequestID (errors/types.go:187-190). */
    method WithRequestID(requestID: string) returns (r: ServiceError)
      modifies this
      ensures r == this
      ensures State() == old(State()).(requestID := requestID)
    {
      this.requestID := requestID;
      r := this;
    }

    /** WithJobID (errors/types.go:193-196). */
    method WithJobID(jobID: string) returns (r: ServiceError)
      modifies this
      ensures r == this
      ensures State() == old(State()).(jobID := jobID)
    {
      this.jobID := jobID;
      r := this;
    }

    /** WithMetadata (errors/types.go:199-202): the pointer is replaced, and the
        new metadata object is shared with the caller. */
    method WithMetadata(metadata: ErrorMetadata?) returns (r: ServiceError)
      modifies this
      ensures r == this
      ensures State() == old(State()).(metadata := metadata)
    {
      this.metadata := metadata;
      r := this;
    }

    /** Allocates `&ErrorMetadata{}` when the pointer is nil; an existing
        metadata object is kept as it is. */
    method EnsureMetadata()
      modifies this
      ensures old(metadata) != null ==> metadata == old(metadata)
      ensures old(metadata) == null ==> fresh(metadata) && metadata.View() == EmptyMetadata
      ensures metadata != null
      ensures State() == old(State()).(metadata := metadata)
    {
      if metadata == null {
        metadata := new ErrorMetadata();
      }
    }

    /** WithValidationErrors (errors/types.go:205-211). */
    method WithValidationErrors(details: seq<ValidationDetail>) returns (r: ServiceError)
      modifies this, metadata
      ensures r == this
      ensures old(metadata) != null ==> metadata == old(metadata)
      ensures old(metadata) == null ==> fresh(metadata)
      ensures State() == old(State()).(metadata := metadata)
      ensures MetadataContents() ==
        Some(old(if metadata == null then EmptyMetadata else metadata.View()).(validationDetails := details))
      ensures HasValidationErrors() <==> |details| > 0
    {
      EnsureMetadata();
      metadata.validationDetails := details;
      r := this;
    }

    /** WithViolations (errors/types.go:214-220). */
    method WithViolations(violations: seq<ViolationDetail>) returns (r: ServiceError)
      modifies this, metadata
      ensures r == this
      ensures old(metadata) != null ==> metadata == old(metadata)
      ensures old(metadata) == null ==> fresh(metadata)
      ensures State() == old(State()).(metadata := metadata)
      ensures MetadataContents() ==
        Some(old(if metadata == null then EmptyMetadata else metadata.View()).(violationDetails := violations))
      ensures HasViolations() <==> |violations| > 0
    {
      EnsureMetadata();
      metadata.violationDetails := violations;
      r := this;
    }

    /** WithRetryAfter (errors/types.go:223-229). */
    method WithRetryAfter(duration: Duration) returns (r: ServiceError)
      modifies this, metadata
      ensures r == this
      ensures old(metadata) != null ==> metadata == old(metadata)
      ensures old(metadata) == null ==> fresh(metadata)
      ensures State() == old(State()).(metadata := metadata)
      ensures MetadataContents() ==
        Some(old(if metadata == null then EmptyMetadata else metadata.View()).(retryAfter := Some(duration)))
    {
      EnsureMetadata();
      metadata.retryAfter := Some(duration);
      r := this;
    }

    /** WithProvider (errors/types.go:232-239). */
    method WithProvider(provider: string, code: string) returns (r: ServiceError)
      modifies this, metadata
      ensures r == this
      ensures old(metadata) != null ==> metadata == old(metadata)
      ensures old(metadata) == null ==> fresh(metadata)
      ensures State() == old(State()).(metadata := metadata)
      ensures MetadataContents() ==
        Some(old(if metadata == null then EmptyMetadata else metadata.View()).(provider := provider, providerCode := code))
    {
      EnsureMetadata();
      metadata.provider := provider;
      metadata.providerCode := code;
      r := this;
    }

    /** WithUserID (errors/types.go:242-245). */
    method WithUserID(userID: string) returns (r: ServiceError)
      modifies this
      ensures r == this
      ensures State() == old(State()).(userID := userID)
    {
      this.userID := userID;
      r := this;
    }

    /** WithCause (errors/types.go:248-254): a nil cause clears Cause but keeps
        an earlier CauseMessage. */
    method WithCause(cause: Option<string>) returns (r: ServiceError)
      modifies this
      ensures r == this
      ensures cause.Some? ==> State() == old(State()).(cause := cause, causeMessage := cause.value)
      ensures cause.None? ==> State() == old(State()).(cause := None)
    {
      this.cause := cause;
      if cause.Some? {
        this.causeMessage := cause.value;
      }
      r := this;
    }

    /** WithHTTPStatus (errors/types.go:257-260). */
    method WithHTTPStatus(status: int) returns (r: ServiceError)
      modifies this
      ensures r == this
      ensures State() == old(State()).(httpStatus := status)
    {
      this.httpStatus := status;
      r := this;
    }

    /** WithCategory (errors/types.go:263-266). */
    method WithCategory(category: ErrorCategory) returns (r: ServiceError)
      modifies this
      ensures r == this
      ensures State() == old(State()).(category := category)
    {
      this.category := category;
      r := this;
    }

    /** WithSeverity (errors/types.go:269-272). */
    method WithSeverity(severity: Severity) returns (r: ServiceError)
      modifies this
      ensures r == this
      ensures State() == old(State()).(severity := severity)
    {
      this.severity := severity;
      r := this;
    }
  }
}
