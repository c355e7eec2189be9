// The closed vocabulary of error codes (errors/codes.go).
//
// In Go an ErrorCode is a string type: any string may flow in from outside
// (vendor codes, unknown codes), so the classifiers take strings. The declared
// constants are listed once more as the enumeration `Code`, grouped by family;
// `Value` gives each constant's string, and the distinctness and prefix
// lemmas are stated over it.
module ErrorCodes {
  import opened Text
  import opened Wrappers

  type ErrorCode = string

  // AI content-policy violations (errors/codes.go:12-45)
  const AI_VIOLATION_CHILD_SAFETY: ErrorCode := "AI_VIOLATION_CHILD_SAFETY"
  const AI_VIOLATION_CELEBRITY: ErrorCode := "AI_VIOLATION_CELEBRITY"
  const AI_VIOLATION_VIOLENCE: ErrorCode := "AI_VIOLATION_VIOLENCE"
  const AI_VIOLATION_SEXUAL: ErrorCode := "AI_VIOLATION_SEXUAL"
  const AI_VIOLATION_HATE_SPEECH: ErrorCode := "AI_VIOLATION_HATE_SPEECH"
  const AI_VIOLATION_PERSONAL_INFO: ErrorCode := "AI_VIOLATION_PERSONAL_INFO"
  const AI_VIOLATION_TOXIC: ErrorCode := "AI_VIOLATION_TOXIC"
  const AI_VIOLATION_DANGEROUS: ErrorCode := "AI_VIOLATION_DANGEROUS"
  const AI_VIOLATION_PROHIBITED: ErrorCode := "AI_VIOLATION_PROHIBITED"
  const AI_VIOLATION_VULGAR: ErrorCode := "AI_VIOLATION_VULGAR"
  const AI_VIOLATION_OTHER: ErrorCode := "AI_VIOLATION_OTHER"

  // Media validation failures (errors/codes.go:49-73)
  const MEDIA_INVALID_DIMENSIONS: ErrorCode := "MEDIA_INVALID_DIMENSIONS"
  const MEDIA_INVALID_ASPECT_RATIO: ErrorCode := "MEDIA_INVALID_ASPECT_RATIO"
  const MEDIA_INVALID_DURATION: ErrorCode := "MEDIA_INVALID_DURATION"
  const MEDIA_INVALID_FRAME_RATE: ErrorCode := "MEDIA_INVALID_FRAME_RATE"
  const MEDIA_UNSUPPORTED_FORMAT: ErrorCode := "MEDIA_UNSUPPORTED_FORMAT"
  const MEDIA_SIZE_TOO_LARGE: ErrorCode := "MEDIA_SIZE_TOO_LARGE"
  const MEDIA_PROCESSING_FAILED: ErrorCode := "MEDIA_PROCESSING_FAILED"
  const MEDIA_CORRUPTED: ErrorCode := "MEDIA_CORRUPTED"

  // AI model and generation failures (errors/codes.go:76-94)
  const AI_MODEL_UNAVAILABLE: ErrorCode := "AI_MODEL_UNAVAILABLE"
  const AI_MODEL_OVERLOADED: ErrorCode := "AI_MODEL_OVERLOADED"
  const AI_CONTEXT_LENGTH_EXCEEDED: ErrorCode := "AI_CONTEXT_LENGTH_EXCEEDED"
  const AI_GENERATION_FAILED: ErrorCode := "AI_GENERATION_FAILED"
  const AI_OPERATION_FAILED: ErrorCode := "AI_OPERATION_FAILED"
  const AI_INVALID_MODEL: ErrorCode := "AI_INVALID_MODEL"

  // Request validation failures (errors/codes.go:97-112)
  const VAL_INVALID_REQUEST: ErrorCode := "VAL_INVALID_REQUEST"
  const VAL_MISSING_PARAMETER: ErrorCode := "VAL_MISSING_PARAMETER"
  const VAL_INVALID_PARAMETER: ErrorCode := "VAL_INVALID_PARAMETER"
  const VAL_INVALID_FORMAT: ErrorCode := "VAL_INVALID_FORMAT"
  const VAL_OUT_OF_RANGE: ErrorCode := "VAL_OUT_OF_RANGE"

  // Validation codes used by the tool-parameter adapter (tools/errors.go) but
  // not declared in errors/codes.go; they are added here with the family prefix
  const VAL_STRING_TOO_SHORT: ErrorCode := "VAL_STRING_TOO_SHORT"
  const VAL_STRING_TOO_LONG: ErrorCode := "VAL_STRING_TOO_LONG"
  const VAL_ARRAY_TOO_LONG: ErrorCode := "VAL_ARRAY_TOO_LONG"
  const VAL_INVALID_ENUM: ErrorCode := "VAL_INVALID_ENUM"
  const VAL_INVALID_URL: ErrorCode := "VAL_INVALID_URL"
  const VAL_DEPENDENCY_MISSING: ErrorCode := "VAL_DEPENDENCY_MISSING"
  const VAL_MUTUALLY_EXCLUSIVE: ErrorCode := "VAL_MUTUALLY_EXCLUSIVE"

  // System and infrastructure failures (errors/codes.go:115-133)
  const SYS_INTERNAL_ERROR: ErrorCode := "SYS_INTERNAL_ERROR"
  const SYS_SERVICE_UNAVAILABLE: ErrorCode := "SYS_SERVICE_UNAVAILABLE"
  const SYS_TIMEOUT: ErrorCode := "SYS_TIMEOUT"
  const SYS_NETWORK_ERROR: ErrorCode := "SYS_NETWORK_ERROR"
  const SYS_DATABASE_ERROR: ErrorCode := "SYS_DATABASE_ERROR"
  const SYS_STORAGE_ERROR: ErrorCode := "SYS_STORAGE_ERROR"

  // Rate limiting (errors/codes.go:136-142)
  const RATE_LIMIT_EXCEEDED: ErrorCode := "RATE_LIMIT_EXCEEDED"
  const RATE_QUOTA_EXCEEDED: ErrorCode := "RATE_QUOTA_EXCEEDED"

  // Authentication and authorisation (errors/codes.go:145-157)
  const AUTH_UNAUTHORIZED: ErrorCode := "AUTH_UNAUTHORIZED"
  const AUTH_FORBIDDEN: ErrorCode := "AUTH_FORBIDDEN"
  const AUTH_TOKEN_EXPIRED: ErrorCode := "AUTH_TOKEN_EXPIRED"
  const AUTH_INVALID_TOKEN: ErrorCode := "AUTH_INVALID_TOKEN"

  // Billing and credits (errors/codes.go:160-169)
  const BILL_INSUFFICIENT_CREDITS: ErrorCode := "BILL_INSUFFICIENT_CREDITS"
  const BILL_PAYMENT_REQUIRED: ErrorCode := "BILL_PAYMENT_REQUIRED"
  const BILL_SUBSCRIPTION_EXPIRED: ErrorCode := "BILL_SUBSCRIPTION_EXPIRED"

  // Tool execution (errors/codes.go:172-184)
  const TOOL_NOT_FOUND: ErrorCode := "TOOL_NOT_FOUND"
  const TOOL_EXECUTION_FAILED: ErrorCode := "TOOL_EXECUTION_FAILED"
  const TOOL_TIMEOUT: ErrorCode := "TOOL_TIMEOUT"
  const TOOL_INVALID_PARAMS: ErrorCode := "TOOL_INVALID_PARAMS"

  // Conversations and messages (errors/codes.go:187-196)
  const CONV_NOT_FOUND: ErrorCode := "CONV_NOT_FOUND"
  const CONV_MESSAGE_NOT_FOUND: ErrorCode := "CONV_MESSAGE_NOT_FOUND"
  const CONV_MESSAGE_TOO_LONG: ErrorCode := "CONV_MESSAGE_TOO_LONG"

  datatype ViolationCode = ChildSafety | Celebrity | Violence | Sexual | HateSpeech | PersonalInfo | Toxic | Dangerous | Prohibited | Vulgar | Other
  datatype MediaCode = InvalidDimensions | InvalidAspectRatio | InvalidDuration | InvalidFrameRate | UnsupportedFormat | SizeTooLarge | ProcessingFailed | Corrupted
  datatype ModelCode = ModelUnavailable | ModelOverloaded | ContextLengthExceeded | GenerationFailed | OperationFailed | InvalidModel
  datatype ValidationCode = InvalidRequest | MissingParameter | InvalidParameter | InvalidFormat | OutOfRange | StringTooShort | StringTooLong | ArrayTooLong | InvalidEnum | InvalidUrl | DependencyMissing | MutuallyExclusive
  datatype SystemCode = SysInternalError | SysServiceUnavailable | SysTimeout | SysNetworkError | SysDatabaseError | SysStorageError
  datatype RateCode = LimitExceeded | QuotaExceeded
  datatype AuthCode = Unauthorized | Forbidden | TokenExpired | InvalidToken
  datatype BillingCode = InsufficientCredits | PaymentRequired | SubscriptionExpired
  datatype ToolCode = ToolNotFound | ToolExecutionFailed | ToolTimeout | ToolInvalidParams
  datatype ConversationCode = ConvNotFound | ConvMessageNotFound | ConvMessageTooLong

  /** A declared code, by family. */
  datatype Code =
      Violation(violation: ViolationCode)
    | Media(media: MediaCode)
    | Model(model: ModelCode)
    | Validation(validation: ValidationCode)
    | System(system: SystemCode)
    | Rate(rate: RateCode)
    | Auth(auth: AuthCode)
    | Billing(billing: BillingCode)
    | Tool(tool: ToolCode)
    | Conversation(conversation: ConversationCode)

  /** The families, named by their prefixes. */
  datatype Family = AiFamily | MediaFamily | ValFamily | SysFamily | RateFamily | AuthFamily | BillFamily | ToolFamily | ConvFamily

  function FamilyPrefix(f: Family): string
  {
    match f
    case AiFamily => "AI_"
    case MediaFamily => "MEDIA_"
    case ValFamily => "VAL_"
    case SysFamily => "SYS_"
    case RateFamily => "RATE_"
    case AuthFamily => "AUTH_"
    case BillFamily => "BILL_"
    case ToolFamily => "TOOL_"
    case ConvFamily => "CONV_"
  }

  function FamilyOf(c: Code): Family
  {
    match c
    case Violation(_) => AiFamily
    case Media(_) => MediaFamily
    case Model(_) => AiFamily
    case Validation(_) => ValFamily
    case System(_) => SysFamily
    case Rate(_) => RateFamily
    case Auth(_) => AuthFamily
    case Billing(_) => BillFamily
    case Tool(_) => ToolFamily
    case Conversation(_) => ConvFamily
  }

  /** The string value of each declared constant. */
  function Value(c: Code): ErrorCode
  {
    match c
    case Violation(x) => ViolationValue(x)
    case Media(x) => MediaValue(x)
    case Model(x) => ModelValue(x)
    case Validation(x) => ValidationValue(x)
    case System(x) => SystemValue(x)
    case Rate(x) => RateValue(x)
    case Auth(x) => AuthValue(x)
    case Billing(x) => BillingValue(x)
    case Tool(x) => ToolValue(x)
    case Conversation(x) => ConversationValue(x)
  }

  function ViolationValue(x: ViolationCode): ErrorCode
  {
    match x
    case ChildSafety => AI_VIOLATION_CHILD_SAFETY
    case Celebrity => AI_VIOLATION_CELEBRITY
    case Violence => AI_VIOLATION_VIOLENCE
    case Sexual => AI_VIOLATION_SEXUAL
    case HateSpeech => AI_VIOLATION_HATE_SPEECH
    case PersonalInfo => AI_VIOLATION_PERSONAL_INFO
    case Toxic => AI_VIOLATION_TOXIC
    case Dangerous => AI_VIOLATION_DANGEROUS
    case Prohibited => AI_VIOLATION_PROHIBITED
    case Vulgar => AI_VIOLATION_VULGAR
    case Other => AI_VIOLATION_OTHER
  }

  function MediaValue(x: MediaCode): ErrorCode
  {
    match x
    case InvalidDimensions => MEDIA_INVALID_DIMENSIONS
    case InvalidAspectRatio => MEDIA_INVALID_ASPECT_RATIO
    case InvalidDuration => MEDIA_INVALID_DURATION
    case InvalidFrameRate => MEDIA_INVALID_FRAME_RATE
    case UnsupportedFormat => MEDIA_UNSUPPORTED_FORMAT
    case SizeTooLarge => MEDIA_SIZE_TOO_LARGE
    case ProcessingFailed => MEDIA_PROCESSING_FAILED
    case Corrupted => MEDIA_CORRUPTED
  }

  function ModelValue(x: ModelCode): ErrorCode
  {
    match x
    case ModelUnavailable => AI_MODEL_UNAVAILABLE
    case ModelOverloaded => AI_MODEL_OVERLOADED
    case ContextLengthExceeded => AI_CONTEXT_LENGTH_EXCEEDED
    case GenerationFailed => AI_GENERATION_FAILED
    case OperationFailed => AI_OPERATION_FAILED
    case InvalidModel => AI_INVALID_MODEL
  }

  function ValidationValue(x: ValidationCode): ErrorCode
  {
    match x
    case InvalidRequest => VAL_INVALID_REQUEST
    case MissingParameter => VAL_MISSING_PARAMETER
    case InvalidParameter => VAL_INVALID_PARAMETER
    case InvalidFormat => VAL_INVALID_FORMAT
    case OutOfRange => VAL_OUT_OF_RANGE
    case StringTooShort => VAL_STRING_TOO_SHORT
    case StringTooLong => VAL_STRING_TOO_LONG
    case ArrayTooLong => VAL_ARRAY_TOO_LONG
    case InvalidEnum => VAL_INVALID_ENUM
    case InvalidUrl => VAL_INVALID_URL
    case DependencyMissing => VAL_DEPENDENCY_MISSING
    case MutuallyExclusive => VAL_MUTUALLY_EXCLUSIVE
  }

  function SystemValue(x: SystemCode): ErrorCode
  {
    match x
    case SysInternalError => SYS_INTERNAL_ERROR
    case SysServiceUnavailable => SYS_SERVICE_UNAVAILABLE
    case SysTimeout => SYS_TIMEOUT
    case SysNetworkError => SYS_NETWORK_ERROR
    case SysDatabaseError => SYS_DATABASE_ERROR
    case SysStorageError => SYS_STORAGE_ERROR
  }

  function RateValue(x: RateCode): ErrorCode
  {
    match x
    case LimitExceeded => RATE_LIMIT_EXCEEDED
    case QuotaExceeded => RATE_QUOTA_EXCEEDED
  }

  function AuthValue(x: AuthCode): ErrorCode
  {
    match x
    case Unauthorized => AUTH_UNAUTHORIZED
    case Forbidden => AUTH_FORBIDDEN
    case TokenExpired => AUTH_TOKEN_EXPIRED
    case InvalidToken => AUTH_INVALID_TOKEN
  }

  function BillingValue(x: BillingCode): ErrorCode
  {
    match x
    case InsufficientCredits => BILL_INSUFFICIENT_CREDITS
    case PaymentRequired => BILL_PAYMENT_REQUIRED
    case SubscriptionExpired => BILL_SUBSCRIPTION_EXPIRED
  }

  function ToolValue(x: ToolCode): ErrorCode
  {
    match x
    case ToolNotFound => TOOL_NOT_FOUND
    case ToolExecutionFailed => TOOL_EXECUTION_FAILED
    case ToolTimeout => TOOL_TIMEOUT
    case ToolInvalidParams => TOOL_INVALID_PARAMS
  }

  function ConversationValue(x: ConversationCode): ErrorCode
  {
    match x
    case ConvNotFound => CONV_NOT_FOUND
    case ConvMessageNotFound => CONV_MESSAGE_NOT_FOUND
    case ConvMessageTooLong => CONV_MESSAGE_TOO_LONG
  }

  function ParseViolation(s: string): Option<ViolationCode>
  {
    if s == AI_VIOLATION_CHILD_SAFETY then Some(ChildSafety)
    else if s == AI_VIOLATION_CELEBRITY then Some(Celebrity)
    else if s == AI_VIOLATION_VIOLENCE then Some(Violence)
    else if s == AI_VIOLATION_SEXUAL then Some(Sexual)
    else if s == AI_VIOLATION_HATE_SPEECH then Some(HateSpeech)
    else if s == AI_VIOLATION_PERSONAL_INFO then Some(PersonalInfo)
    else if s == AI_VIOLATION_TOXIC then Some(Toxic)
    else if s == AI_VIOLATION_DANGEROUS then Some(Dangerous)
    else if s == AI_VIOLATION_PROHIBITED then Some(Prohibited)
    else if s == AI_VIOLATION_VULGAR then Some(Vulgar)
    else if s == AI_VIOLATION_OTHER then Some(Other)
    else None
  }

  function ParseMedia(s: string): Option<MediaCode>
  {
    if s == MEDIA_INVALID_DIMENSIONS then Some(InvalidDimensions)
    else if s == MEDIA_INVALID_ASPECT_RATIO then Some(InvalidAspectRatio)
    else if s == MEDIA_INVALID_DURATION then Some(InvalidDuration)
    else if s == MEDIA_INVALID_FRAME_RATE then Some(InvalidFrameRate)
    else if s == MEDIA_UNSUPPORTED_FORMAT then Some(UnsupportedFormat)
    else if s == MEDIA_SIZE_TOO_LARGE then Some(SizeTooLarge)
    else if s == MEDIA_PROCESSING_FAILED then Some(ProcessingFailed)
    else if s == MEDIA_CORRUPTED then Some(Corrupted)
    else None
  }

  function ParseModel(s: string): Option<ModelCode>
  {
    if s == AI_MODEL_UNAVAILABLE then Some(ModelUnavailable)
    else if s == AI_MODEL_OVERLOADED then Some(ModelOverloaded)
    else if s == AI_CONTEXT_LENGTH_EXCEEDED then Some(ContextLengthExceeded)
    else if s == AI_GENERATION_FAILED then Some(GenerationFailed)
    else if s == AI_OPERATION_FAILED then Some(OperationFailed)
    else if s == AI_INVALID_MODEL then Some(InvalidModel)
    else None
  }

  function ParseValidation(s: string): Option<ValidationCode>
  {
    if s == VAL_INVALID_REQUEST then Some(InvalidRequest)
    else if s == VAL_MISSING_PARAMETER then Some(MissingParameter)
    else if s == VAL_INVALID_PARAMETER then Some(InvalidParameter)
    else if s == VAL_INVALID_FORMAT then Some(InvalidFormat)
    else if s == VAL_OUT_OF_RANGE then Some(OutOfRange)
    else if s == VAL_STRING_TOO_SHORT then Some(StringTooShort)
    else if s == VAL_STRING_TOO_LONG then Some(StringTooLong)
    else if s == VAL_ARRAY_TOO_LONG then Some(ArrayTooLong)
    else if s == VAL_INVALID_ENUM then Some(InvalidEnum)
    else if s == VAL_INVALID_URL then Some(InvalidUrl)
    else if s == VAL_DEPENDENCY_MISSING then Some(DependencyMissing)
    else if s == VAL_MUTUALLY_EXCLUSIVE then Some(MutuallyExclusive)
    else None
  }

  function ParseSystem(s: string): Option<SystemCode>
  {
    if s == SYS_INTERNAL_ERROR then Some(SysInternalError)
    else if s == SYS_SERVICE_UNAVAILABLE then Some(SysServiceUnavailable)
    else if s == SYS_TIMEOUT then Some(SysTimeout)
    else if s == SYS_NETWORK_ERROR then Some(SysNetworkError)
    else if s == SYS_DATABASE_ERROR then Some(SysDatabaseError)
    else if s == SYS_STORAGE_ERROR then Some(SysStorageError)
    else None
  }

  function ParseRate(s: string): Option<RateCode>
  {
    if s == RATE_LIMIT_EXCEEDED then Some(LimitExceeded)
    else if s == RATE_QUOTA_EXCEEDED then Some(QuotaExceeded)
    else None
  }

  function ParseAuth(s: string): Option<AuthCode>
  {
    if s == AUTH_UNAUTHORIZED then Some(Unauthorized)
    else if s == AUTH_FORBIDDEN then Some(Forbidden)
    else if s == AUTH_TOKEN_EXPIRED then Some(TokenExpired)
    else if s == AUTH_INVALID_TOKEN then Some(InvalidToken)
    else None
  }

  function ParseBilling(s: string): Option<BillingCode>
  {
    if s == BILL_INSUFFICIENT_CREDITS then Some(InsufficientCredits)
    else if s == BILL_PAYMENT_REQUIRED then Some(PaymentRequired)
    else if s == BILL_SUBSCRIPTION_EXPIRED then Some(SubscriptionExpired)
    else None
  }

  function ParseTool(s: string): Option<ToolCode>
  {
    if s == TOOL_NOT_FOUND then Some(ToolNotFound)
    else if s == TOOL_EXECUTION_FAILED then Some(ToolExecutionFailed)
    else if s == TOOL_TIMEOUT then Some(ToolTimeout)
    else if s == TOOL_INVALID_PARAMS then Some(ToolInvalidParams)
    else None
  }

  function ParseConversation(s: string): Option<ConversationCode>
  {
    if s == CONV_NOT_FOUND then Some(ConvNotFound)
    else if s == CONV_MESSAGE_NOT_FOUND then Some(ConvMessageNotFound)
    else if s == CONV_MESSAGE_TOO_LONG then Some(ConvMessageTooLong)
    else None
  }

  lemma ViolationFacts(x: ViolationCode)
    ensures ParseViolation(ViolationValue(x)) == Some(x)
    ensures HasPrefix(ViolationValue(x), "AI_VIOLATION_")
  {
    match x
    case ChildSafety => PrefixByChars(AI_VIOLATION_CHILD_SAFETY, "AI_VIOLATION_");
    case Celebrity => PrefixByChars(AI_VIOLATION_CELEBRITY, "AI_VIOLATION_");
    case Violence => PrefixByChars(AI_VIOLATION_VIOLENCE, "AI_VIOLATION_");
    case Sexual => PrefixByChars(AI_VIOLATION_SEXUAL, "AI_VIOLATION_");
    case HateSpeech => PrefixByChars(AI_VIOLATION_HATE_SPEECH, "AI_VIOLATION_");
    case PersonalInfo => PrefixByChars(AI_VIOLATION_PERSONAL_INFO, "AI_VIOLATION_");
    case Toxic => PrefixByChars(AI_VIOLATION_TOXIC, "AI_VIOLATION_");
    case Dangerous => PrefixByChars(AI_VIOLATION_DANGEROUS, "AI_VIOLATION_");
    case Prohibited => PrefixByChars(AI_VIOLATION_PROHIBITED, "AI_VIOLATION_");
    case Vulgar => PrefixByChars(AI_VIOLATION_VULGAR, "AI_VIOLATION_");
    case Other => PrefixByChars(AI_VIOLATION_OTHER, "AI_VIOLATION_");
  }

  lemma MediaFacts(x: MediaCode)
    ensures ParseMedia(MediaValue(x)) == Some(x)
    ensures HasPrefix(MediaValue(x), "MEDIA_")
  {
    match x
    case InvalidDimensions => PrefixByChars(MEDIA_INVALID_DIMENSIONS, "MEDIA_");
    case InvalidAspectRatio => PrefixByChars(MEDIA_INVALID_ASPECT_RATIO, "MEDIA_");
    case InvalidDuration => PrefixByChars(MEDIA_INVALID_DURATION, "MEDIA_");
    case InvalidFrameRate => PrefixByChars(MEDIA_INVALID_FRAME_RATE, "MEDIA_");
    case UnsupportedFormat => PrefixByChars(MEDIA_UNSUPPORTED_FORMAT, "MEDIA_");
    case SizeTooLarge => PrefixByChars(MEDIA_SIZE_TOO_LARGE, "MEDIA_");
    case ProcessingFailed => PrefixByChars(MEDIA_PROCESSING_FAILED, "MEDIA_");
    case Corrupted => PrefixByChars(MEDIA_CORRUPTED, "MEDIA_");
  }

  lemma ModelFacts(x: ModelCode)
    ensures ParseModel(ModelValue(x)) == Some(x)
    ensures HasPrefix(ModelValue(x), "AI_")
    ensures !HasPrefix(ModelValue(x), "AI_VIOLATION_")
  {
    match x
    case ModelUnavailable => PrefixByChars(AI_MODEL_UNAVAILABLE, "AI_"); DisagreeNotPrefix(AI_MODEL_UNAVAILABLE, "AI_VIOLATION_", 3);
    case ModelOverloaded => PrefixByChars(AI_MODEL_OVERLOADED, "AI_"); DisagreeNotPrefix(AI_MODEL_OVERLOADED, "AI_VIOLATION_", 3);
    case ContextLengthExceeded => PrefixByChars(AI_CONTEXT_LENGTH_EXCEEDED, "AI_"); DisagreeNotPrefix(AI_CONTEXT_LENGTH_EXCEEDED, "AI_VIOLATION_", 3);
    case GenerationFailed => PrefixByChars(AI_GENERATION_FAILED, "AI_"); DisagreeNotPrefix(AI_GENERATION_FAILED, "AI_VIOLATION_", 3);
    case OperationFailed => PrefixByChars(AI_OPERATION_FAILED, "AI_"); DisagreeNotPrefix(AI_OPERATION_FAILED, "AI_VIOLATION_", 3);
    case InvalidModel => PrefixByChars(AI_INVALID_MODEL, "AI_"); DisagreeNotPrefix(AI_INVALID_MODEL, "AI_VIOLATION_", 3);
  }

  lemma ValidationFacts(x: ValidationCode)
    ensures ParseValidation(ValidationValue(x)) == Some(x)
    ensures HasPrefix(ValidationValue(x), "VAL_")
  {
    match x
    case InvalidRequest => PrefixByChars(VAL_INVALID_REQUEST, "VAL_");
    case MissingParameter => PrefixByChars(VAL_MISSING_PARAMETER, "VAL_");
    case InvalidParameter => PrefixByChars(VAL_INVALID_PARAMETER, "VAL_");
    case InvalidFormat => PrefixByChars(VAL_INVALID_FORMAT, "VAL_");
    case OutOfRange => PrefixByChars(VAL_OUT_OF_RANGE, "VAL_");
    case StringTooShort => PrefixByChars(VAL_STRING_TOO_SHORT, "VAL_");
    case StringTooLong => PrefixByChars(VAL_STRING_TOO_LONG, "VAL_");
    case ArrayTooLong => PrefixByChars(VAL_ARRAY_TOO_LONG, "VAL_");
    case InvalidEnum => PrefixByChars(VAL_INVALID_ENUM, "VAL_");
    case InvalidUrl => PrefixByChars(VAL_INVALID_URL, "VAL_");
    case DependencyMissing => PrefixByChars(VAL_DEPENDENCY_MISSING, "VAL_");
    case MutuallyExclusive => PrefixByChars(VAL_MUTUALLY_EXCLUSIVE, "VAL_");
  }

  lemma SystemFacts(x: SystemCode)
    ensures ParseSystem(SystemValue(x)) == Some(x)
    ensures HasPrefix(SystemValue(x), "SYS_")
  {
    match x
    case SysInternalError => PrefixByChars(SYS_INTERNAL_ERROR, "SYS_");
    case SysServiceUnavailable => PrefixByChars(SYS_SERVICE_UNAVAILABLE, "SYS_");
    case SysTimeout => PrefixByChars(SYS_TIMEOUT, "SYS_");
    case SysNetworkError => PrefixByChars(SYS_NETWORK_ERROR, "SYS_");
    case SysDatabaseError => PrefixByChars(SYS_DATABASE_ERROR, "SYS_");
    case SysStorageError => PrefixByChars(SYS_STORAGE_ERROR, "SYS_");
  }

  lemma RateFacts(x: RateCode)
    ensures ParseRate(RateValue(x)) == Some(x)
    ensures HasPrefix(RateValue(x), "RATE_")
  {
    match x
    case LimitExceeded => PrefixByChars(RATE_LIMIT_EXCEEDED, "RATE_");
    case QuotaExceeded => PrefixByChars(RATE_QUOTA_EXCEEDED, "RATE_");
  }

  lemma AuthFacts(x: AuthCode)
    ensures ParseAuth(AuthValue(x)) == Some(x)
    ensures HasPrefix(AuthValue(x), "AUTH_")
  {
    match x
    case Unauthorized => PrefixByChars(AUTH_UNAUTHORIZED, "AUTH_");
    case Forbidden => PrefixByChars(AUTH_FORBIDDEN, "AUTH_");
    case TokenExpired => PrefixByChars(AUTH_TOKEN_EXPIRED, "AUTH_");
    case InvalidToken => PrefixByChars(AUTH_INVALID_TOKEN, "AUTH_");
  }

  lemma BillingFacts(x: BillingCode)
    ensures ParseBilling(BillingValue(x)) == Some(x)
    ensures HasPrefix(BillingValue(x), "BILL_")
  {
    match x
    case InsufficientCredits => PrefixByChars(BILL_INSUFFICIENT_CREDITS, "BILL_");
    case PaymentRequired => PrefixByChars(BILL_PAYMENT_REQUIRED, "BILL_");
    case SubscriptionExpired => PrefixByChars(BILL_SUBSCRIPTION_EXPIRED, "BILL_");
  }

  lemma ToolFacts(x: ToolCode)
    ensures ParseTool(ToolValue(x)) == Some(x)
    ensures HasPrefix(ToolValue(x), "TOOL_")
  {
    match x
    case ToolNotFound => PrefixByChars(TOOL_NOT_FOUND, "TOOL_");
    case ToolExecutionFailed => PrefixByChars(TOOL_EXECUTION_FAILED, "TOOL_");
    case ToolTimeout => PrefixByChars(TOOL_TIMEOUT, "TOOL_");
    case ToolInvalidParams => PrefixByChars(TOOL_INVALID_PARAMS, "TOOL_");
  }

  lemma ConversationFacts(x: ConversationCode)
    ensures ParseConversation(ConversationValue(x)) == Some(x)
    ensures HasPrefix(ConversationValue(x), "CONV_")
  {
    match x
    case ConvNotFound => PrefixByChars(CONV_NOT_FOUND, "CONV_");
    case ConvMessageNotFound => PrefixByChars(CONV_MESSAGE_NOT_FOUND, "CONV_");
    case ConvMessageTooLong => PrefixByChars(CONV_MESSAGE_TOO_LONG, "CONV_");
  }

  /** The characters that tell the families apart, for any code. */
  lemma Discriminators(c: Code)
    ensures |Value(c)| >= 11
    ensures c.Violation? ==> Value(c)[0] == 'A' && Value(c)[1] == 'I' && Value(c)[3] == 'V'
    ensures c.Model? ==> Value(c)[0] == 'A' && Value(c)[1] == 'I' && Value(c)[3] != 'V'
    ensures c.Media? ==> Value(c)[0] == 'M'
    ensures c.Validation? ==> Value(c)[0] == 'V'
    ensures c.System? ==> Value(c)[0] == 'S'
    ensures c.Rate? ==> Value(c)[0] == 'R'
    ensures c.Auth? ==> Value(c)[0] == 'A' && Value(c)[1] == 'U'
    ensures c.Billing? ==> Value(c)[0] == 'B'
    ensures c.Tool? ==> Value(c)[0] == 'T'
    ensures c.Conversation? ==> Value(c)[0] == 'C'
  {
    ValueHasFamilyPrefix(c);
    if c.Model? {
      ModelFacts(c.model);
    }
  }

  /** All declared code constants are pairwise distinct (errors/codes.go:12-196). */
  lemma ValueInjective(a: Code, b: Code)
    ensures Value(a) == Value(b) ==> a == b
  {
    Discriminators(a);
    Discriminators(b);
    if Value(a) == Value(b) {
      match a
      case Violation(x) => ViolationFacts(x); ViolationFacts(b.violation);
      case Media(x) => MediaFacts(x); MediaFacts(b.media);
      case Model(x) => ModelFacts(x); ModelFacts(b.model);
      case Validation(x) => ValidationFacts(x); ValidationFacts(b.validation);
      case System(x) => SystemFacts(x); SystemFacts(b.system);
      case Rate(x) => RateFacts(x); RateFacts(b.rate);
      case Auth(x) => AuthFacts(x); AuthFacts(b.auth);
      case Billing(x) => BillingFacts(x); BillingFacts(b.billing);
      case Tool(x) => ToolFacts(x); ToolFacts(b.tool);
      case Conversation(x) => ConversationFacts(x); ConversationFacts(b.conversation);
    }
  }

  /** Every code starts with the prefix of the family it is declared in. */
  lemma ValueHasFamilyPrefix(c: Code)
    ensures HasPrefix(Value(c), FamilyPrefix(FamilyOf(c)))
  {
    match c
    case Violation(x) => ViolationFacts(x);
    case Media(x) => MediaFacts(x);
    case Model(x) => ModelFacts(x);
    case Validation(x) => ValidationFacts(x);
    case System(x) => SystemFacts(x);
    case Rate(x) => RateFacts(x);
    case Auth(x) => AuthFacts(x);
    case Billing(x) => BillingFacts(x);
    case Tool(x) => ToolFacts(x);
    case Conversation(x) => ConversationFacts(x);
  }

  /** The AI_VIOLATION_ prefix marks exactly the content-violation codes. */
  lemma ViolationPrefix(c: Code)
    ensures c.Violation? <==> HasPrefix(Value(c), "AI_VIOLATION_")
  {
    Discriminators(c);
    if c.Violation? {
      ViolationFacts(c.violation);
    } else if c.Model? {
      ModelFacts(c.model);
    } else {
      DisagreeNotPrefix(Value(c), "AI_VIOLATION_", if Value(c)[0] == 'A' then 1 else 0);
    }
  }
}
