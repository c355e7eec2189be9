# latent-contracts in Dafny

latent-contracts is the Go package that the services of the Latent
platform share: Platform API, Media AI, Chat AI and the video processor.
It defines three things that cross service boundaries:

- **The error taxonomy.** A closed list of error codes in ten families,
  the `ServiceError` record with its builder methods, and the classifiers
  that derive a code's category, severity and HTTP status. It also holds
  the builders for common failures and the mappers that turn OpenAI and
  Vertex AI vendor errors into platform codes.
- **The tool parameter contracts.** The seventeen tool names, one
  parameter struct per tool whose struct tags are read by
  go-playground/validator, the hand-written `Validate` methods, the
  dispatcher `ParseAndValidateParams`, and the adapter that turns a
  validation failure into a `ServiceError`. Around them sit the tool
  metadata table (credits, service, type), the URL-signing table and the
  legacy tool result.
- **The envelope validators.** The `ToolResult` envelope and its three
  payload kinds (media generation, video processing, content analysis),
  with their constructors and `Validate` methods. The inter-service
  messages `ToolResultMessage` and `ConversationMessage` also validate
  themselves, and the progress records report on long-running jobs.

The model keeps the package's layout: one Dafny module per Go file, with
the same names where Dafny allows them.

| Dafny file | Go source |
|---|---|
| `error_codes.dfy`, `error_types.dfy`, `service_errors.dfy` | `errors/codes.go`, `errors/types.go` |
| `error_helpers.dfy`, `error_builders.dfy` | `errors/helpers.go`, `errors/builders.go` |
| `openai.dfy`, `vertex.dfy` | `errors/providers/*.go` |
| `constraints.dfy` | the go-playground/validator tags the schemas use |
| `common.dfy`, `media_generation.dfy`, `video_processing.dfy`, `content_analysis.dfy` | the parameter structs in `tools/*.go` |
| `validation.dfy`, `registry.dfy`, `errors.dfy` | `tools/validation.go`, `tools/registry.go`, `tools/errors.go` |
| `metadata.dfy`, `signing.dfy`, `multimodal.dfy`, `tool_results.dfy` | `tools/metadata.go`, `tools/signing.go`, `tools/multimodal.go`, `tools/results.go` |
| `result_types.dfy`, `results_common.dfy`, `media_results.dfy`, `video_results.dfy`, `content_results.dfy` | `results/*.go`, `types/media.go` |
| `messages.dfy` | `messages/*.go` |
| `progress.dfy` | `progress/types.go` |
| `wrappers.dfy`, `text.dfy`, `checks.dfy` | helpers: Option, string search and case folding, first-failure scans |

## How the Go is rendered

- **Go values.** A code is a string, because any string can arrive from
  outside; `Code` is the closed list of the declared constants, and
  `Value(c)` is a constant's string.
- **Errors.** Go's `error` is the datatype `GoError`. It is a `Message`,
  or a `Wrapped(prefix, inner)` for `fmt.Errorf("...: %w", inner)`, or
  the validator's `FieldErrors` list. A type assertion matches only the
  outermost value.
- **Pointers.**
  - A nil pointer to a value is `None`.
  - `ServiceError` and `ErrorMetadata` are classes, because their
    builder methods update them in place and return the same object.
  - Every builder method is a `method` with a `modifies` clause that
    states the new state.
- **Validator tags.** The tags are interpreted field by field, as
  go-playground/validator v10 does. `omitempty` stops at an empty value,
  a nil pointer is checked by its first tag, `required_without` looks up
  a sibling, and a nested struct is checked under its namespace. For
  every parameter struct, a `...SchemaMeaning` lemma proves what its tags
  accept in plain terms.
- **Loops.** Where the source loops, the model has a method with a loop
  and its invariants, proved against a specification function:
  - the `toSnakeCase` rune loop;
  - the scans of `GetToolsByType` and `GetToolsByService` over the
    metadata map, in any visiting order;
  - the input-building loops of the video-processing constructors;
  - the payload count in `ToolResult.Validate`.
- **First failure.** The loops that return at their first failure are
  functions through a shared first-failure scan. Lemmas say which element
  is reported.
- **Clocks.** `time.Now()` is a parameter `now: int`.

## Model

| member | source | states |
|---|---|---|
| ErrorCodes.ViolationFacts | errors/codes.go:10-45 | each AI content-violation constant reads back as itself and starts with `AI_VIOLATION_` |
| ErrorCodes.MediaFacts | errors/codes.go:47-73 | each media constant reads back as itself and starts with `MEDIA_` |
| ErrorCodes.ModelFacts | errors/codes.go:75-94 | each model/generation constant reads back as itself and starts with `AI_` |
| ErrorCodes.ValidationFacts | errors/codes.go:96-112 | each validation constant reads back as itself and starts with `VAL_` |
| ErrorCodes.SystemFacts | errors/codes.go:114-133 | each system constant reads back as itself and starts with `SYS_` |
| ErrorCodes.RateFacts | errors/codes.go:135-142 | each rate-limit constant reads back as itself and starts with `RATE_` |
| ErrorCodes.AuthFacts | errors/codes.go:144-157 | each auth constant reads back as itself and starts with `AUTH_` |
| ErrorCodes.BillingFacts | errors/codes.go:159-169 | each billing constant reads back as itself and starts with `BILL_` |
| ErrorCodes.ToolFacts | errors/codes.go:171-184 | each tool-execution constant reads back as itself and starts with `TOOL_` |
| ErrorCodes.ConversationFacts | errors/codes.go:186-196 | each conversation constant reads back as itself and starts with `CONV_` |
| ErrorCodes.Discriminators | errors/codes.go:12-196 | the leading characters of a code tell its family apart: `AI_V` for violations, `AI_` without `V` for models, one letter for each other family |
| ErrorCodes.ValueInjective | errors/codes.go:12-196 | no two declared code constants share a string |
| ErrorCodes.ValueHasFamilyPrefix | errors/codes.go:12-196 | every code starts with the prefix of the family block it is declared in |
| ErrorCodes.ViolationPrefix | errors/codes.go:10-45 | a declared code starts with `AI_VIOLATION_` exactly when it is a content-violation code |
| ErrorHelpers.DetermineCategory | errors/helpers.go:6-32 | the category is always one of the seven declared categories (which one: CategoryByPrefix) |
| ErrorHelpers.CategoryByPrefix | errors/helpers.go:6-31 | for any string, a family prefix fixes the category (AI_ to ai, MEDIA_ to media, VAL_ to validation, ...), and a string with no family prefix is a system error |
| ErrorHelpers.CategoryOfCode | errors/helpers.go:6-32 | every declared code is classified under its family's category |
| ErrorHelpers.DetermineSeverity | errors/helpers.go:35-73 | the severity is always one of low, medium, high, critical |
| ErrorHelpers.SeveritySetsDisjoint | errors/helpers.go:37-65 | the critical, high and low lists share no code |
| ErrorHelpers.SeverityExact | errors/helpers.go:35-73 | severity is critical, high or low exactly on its list, and medium exactly for every other string |
| ErrorHelpers.DetermineHTTPStatus | errors/helpers.go:76-172 | the status is always one of the statuses the table and the prefix fallbacks name |
| ErrorHelpers.StatusGroupsDisjoint | errors/helpers.go:78-151 | the 400, 401, 402 and 403 groups of the table are disjoint, so their order does not matter |
| ErrorHelpers.ForbiddenStatus | errors/helpers.go:100-112 | every content-violation code, and AUTH_FORBIDDEN, is a 403 |
| ErrorHelpers.ValidationStatus | errors/helpers.go:76-172 | any string starting `VAL_` is a 400, listed or not |
| ErrorHelpers.RateStatus | errors/helpers.go:76-172 | any string starting `RATE_` is a 429 |
| ErrorHelpers.AuthStatus | errors/helpers.go:76-172 | any string starting `AUTH_` is a 401 or a 403 |
| ErrorHelpers.FallbackStatuses | errors/helpers.go:154-171 | codes missing from the table fall back on their prefix or on 500, e.g. MEDIA_INVALID_FRAME_RATE and TOOL_INVALID_PARAMS are 500 |
| ServiceErrors.ErrorMetadata.constructor | errors/types.go:56-77 | `&ErrorMetadata{}` has every field empty |
| ServiceErrors.ServiceError.constructor | errors/types.go:166-182 | NewServiceError stores code, message, service and retryability, derives status, category and severity from the code, stamps the clock reading, and leaves everything else empty; Error, GetCode and IsRetryable then read back the message, code and retryability, and neither Has predicate holds |
| ServiceErrors.ServiceError.WithRequestID | errors/types.go:187-190 | only the request ID changes; the same object is returned |
| ServiceErrors.ServiceError.WithJobID | errors/types.go:193-196 | only the job ID changes; the same object is returned |
| ServiceErrors.ServiceError.WithMetadata | errors/types.go:199-202 | only the metadata pointer changes, to the given object (shared, not copied) |
| ServiceErrors.ServiceError.EnsureMetadata | errors/types.go:206-208 | a nil metadata pointer gets a fresh empty object; an existing one is kept |
| ServiceErrors.ServiceError.Error | errors/types.go:136-138 | the message; ServiceError.constructor proves it reads back the message given |
| ServiceErrors.ServiceError.IsRetryable | errors/types.go:141-143 | the retryable flag; ServiceError.constructor proves it reads back the flag given |
| ServiceErrors.ServiceError.GetCode | errors/types.go:146-148 | the code; ServiceError.constructor proves it reads back the code given |
| ServiceErrors.ServiceError.HasViolations | errors/types.go:151-153 | metadata with violations; WithViolations and ErrorBuilders.ContentViolationError prove it holds exactly for a non-empty list |
| ServiceErrors.ServiceError.HasValidationErrors | errors/types.go:156-158 | metadata with validation details; WithValidationErrors and ErrorBuilders.ValidationError prove it holds exactly for a non-empty list |
| ServiceErrors.ServiceError.WithValidationErrors | errors/types.go:205-211 | the metadata, allocated if nil, gets the validation details; nothing else changes; HasValidationErrors then holds exactly when the list is non-empty |
| ServiceErrors.ServiceError.WithViolations | errors/types.go:214-220 | the metadata, allocated if nil, gets the violation details; nothing else changes; HasViolations then holds exactly when the list is non-empty |
| ServiceErrors.ServiceError.WithRetryAfter | errors/types.go:223-229 | the metadata, allocated if nil, gets the retry-after duration |
| ServiceErrors.ServiceError.WithProvider | errors/types.go:232-239 | the metadata, allocated if nil, gets provider and provider code |
| ServiceErrors.ServiceError.WithUserID | errors/types.go:242-245 | only the user ID changes |
| ServiceErrors.ServiceError.WithCause | errors/types.go:248-254 | a non-nil cause sets Cause and CauseMessage to its text; a nil cause clears Cause and keeps CauseMessage |
| ServiceErrors.ServiceError.WithHTTPStatus | errors/types.go:257-260 | only the status changes |
| ServiceErrors.ServiceError.WithCategory | errors/types.go:263-266 | only the category changes |
| ServiceErrors.ServiceError.WithSeverity | errors/types.go:269-272 | only the severity changes |
| ErrorBuilders.ContentViolationError | errors/builders.go:9-27 | a fresh non-retryable error whose code comes from the first violation's type, whose message counts the rest, whose metadata holds the whole list, and which is a 403 in the ai category |
| ErrorBuilders.ValidationError | errors/builders.go:30-39 | a fresh VAL_INVALID_REQUEST error whose metadata holds the details; it has validation errors exactly when the list is non-empty |
| ErrorBuilders.MediaDimensionError | errors/builders.go:42-54 | a fresh MEDIA_INVALID_DIMENSIONS error with one "dimensions" detail holding provided and expected |
| ErrorBuilders.RateLimitError | errors/builders.go:57-64 | a fresh retryable RATE_LIMIT_EXCEEDED error whose metadata holds the retry-after duration |
| ErrorBuilders.ModelOverloadedError | errors/builders.go:67-80 | a fresh retryable AI_MODEL_OVERLOADED error; provider metadata, with an empty provider code, exactly when a provider is named |
| ErrorBuilders.TimeoutError | errors/builders.go:83-90 | a fresh retryable SYS_TIMEOUT error naming the operation, with no metadata |
| ErrorBuilders.InternalError | errors/builders.go:93-100 | a fresh retryable SYS_INTERNAL_ERROR error with the details in its message, with no metadata |
| ErrorBuilders.MapViolationTypeToCode | errors/builders.go:103-121 | the violation-type mapping; KnownViolationType, OtherViolationType and ViolationTypeIsViolation state its cases and its range |
| ErrorBuilders.IsRetryableCode | errors/builders.go:124-135 | the platform's retry list; RetryableCodesStatus proves every listed code is a 429, 502, 503 or 504 |
| ErrorBuilders.KnownViolationType | errors/builders.go:104-118 | each of the ten known violation types maps to `AI_VIOLATION_` followed by the type |
| ErrorBuilders.OtherViolationType | errors/builders.go:117-120 | exactly the unknown types map to AI_VIOLATION_OTHER; the match is case-sensitive |
| ErrorBuilders.ViolationTypeIsViolation | errors/builders.go:103-121 | whatever the type, the result is a declared content-violation code |
| ErrorBuilders.ContentViolationClassified | errors/builders.go:9-27 | a content-violation error is a 403 in the ai category whatever the list holds, the empty list included |
| ErrorBuilders.ContentViolationCodeFirstOnly | errors/builders.go:10-13 | only the first violation's type decides the code |
| ErrorBuilders.ContentViolationMessageCount | errors/builders.go:20-22 | with more than one violation, the message is the first description followed by "(+k more violations)", where k reads back as the count of the others |
| ErrorBuilders.RetryableCodesStatus | errors/builders.go:124-135 | every code IsRetryableCode accepts is a 429, 502, 503 or 504 |
| ErrorBuilders.ValidationErrorClassified | errors/builders.go:37 | ValidationError's code is a 400 in the validation category |
| ErrorBuilders.MediaDimensionClassified | errors/builders.go:44 | MediaDimensionError's code is a 400 in the media category |
| ErrorBuilders.RateLimitClassified | errors/builders.go:59-62 | RateLimitError's code is a low-severity 429 that IsRetryableCode accepts |
| ErrorBuilders.ModelOverloadedClassified | errors/builders.go:69-72 | ModelOverloadedError's code is a retryable 503 in the ai category |
| ErrorBuilders.TimeoutClassified | errors/builders.go:89 | TimeoutError's code is a retryable 504 |
| ErrorBuilders.InternalClassified | errors/builders.go:93-135 | InternalError's code is a critical 500; the builder marks it retryable although IsRetryableCode rejects it |
| OpenAIProvider.MapOpenAIError | errors/providers/openai.go:34-93 | the mapper; MapOpenAIErrorDeclared, VendorCodeWins, ErrorTypeWins, MessageOrder and GenerationFailedExactly state its range and precedence |
| OpenAIProvider.MapOpenAIContentViolation | errors/providers/openai.go:96-120 | the content classifier; ContentViolationDeclared and ContentNeverGenerationFailed state its range |
| OpenAIProvider.IsRetryableOpenAIError | errors/providers/openai.go:123-150 | the OpenAI retry list; RetryableExactly states it as an iff |
| OpenAIProvider.ContentViolationDeclared | errors/providers/openai.go:96-120 | the content classifier always yields a declared content-violation code |
| OpenAIProvider.CodeSwitchDeclared | errors/providers/openai.go:36-57 | the vendor-code switch yields only declared platform codes |
| OpenAIProvider.TypeSwitchDeclared | errors/providers/openai.go:60-75 | the error-type switch yields only declared platform codes |
| OpenAIProvider.MessagePatternsDeclared | errors/providers/openai.go:78-92 | the message patterns yield only declared platform codes |
| OpenAIProvider.MapOpenAIErrorDeclared | errors/providers/openai.go:34-93 | whatever the input, the mapper yields a declared platform code |
| OpenAIProvider.SwitchDomains | errors/providers/openai.go:36-75 | the code switch matches exactly the twelve recognised vendor codes, and the type switch exactly the seven recognised types |
| OpenAIProvider.VendorCodeWins | errors/providers/openai.go:36-57 | a recognised vendor code decides the result whatever the type and message say |
| OpenAIProvider.ErrorTypeWins | errors/providers/openai.go:60-75 | without a recognised code, a recognised type decides whatever the message says |
| OpenAIProvider.CaseInsensitive | errors/providers/openai.go:78-99 | the message tests ignore letter case |
| OpenAIProvider.LowerCasedMessage | errors/providers/openai.go:78-99 | lower-casing the message first changes nothing |
| OpenAIProvider.MessageOrder | errors/providers/openai.go:78-89 | the message keywords are tested in order: rate limit, then quota, then context/token, then content/policy |
| OpenAIProvider.GenerationFailedExactly | errors/providers/openai.go:91-92 | AI_GENERATION_FAILED comes back exactly when no code, type or keyword matched |
| OpenAIProvider.ContentNeverGenerationFailed | errors/providers/openai.go:118-119 | the content classifier falls back to AI_VIOLATION_OTHER, never to AI_GENERATION_FAILED |
| OpenAIProvider.RateLimitCodeExample | errors/providers/openai.go:37-38 | the vendor code rate_limit_exceeded maps to RATE_LIMIT_EXCEEDED |
| OpenAIProvider.RateLimitMessageExample | errors/providers/openai.go:78-80 | a message mentioning "Rate Limit" in any case maps to RATE_LIMIT_EXCEEDED |
| OpenAIProvider.RetryableExactly | errors/providers/openai.go:123-150 | IsRetryableOpenAIError holds exactly when the code or the type is on its list |
| OpenAIProvider.RetryableCodesAgree | errors/builders.go:124-135 | the four retryable vendor codes map to platform codes that IsRetryableCode also accepts |
| OpenAIProvider.RetryableDisagreements | errors/providers/openai.go:51-150 | server_error is retryable for OpenAI but maps to SYS_INTERNAL_ERROR, which the platform calls non-retryable; and a retryable type with code insufficient_quota maps to RATE_QUOTA_EXCEEDED, which the platform does not retry |
| VertexProvider.MapVertexError | errors/providers/vertex.go:34-90 | the mapper; MapVertexErrorDeclared, VendorCodeWins, MessageOrder and GenerationFailedExactly state its range and precedence |
| VertexProvider.IsRetryableVertexError | errors/providers/vertex.go:93-103 | the Vertex retry list; RetryableExactly states it as an iff |
| VertexProvider.CodeSwitchDeclared | errors/providers/vertex.go:36-63 | the code switch yields only declared platform codes |
| VertexProvider.MessagePatternsDeclared | errors/providers/vertex.go:66-89 | the message patterns yield only declared platform codes |
| VertexProvider.MapVertexErrorDeclared | errors/providers/vertex.go:34-90 | whatever the input, the mapper yields a declared platform code |
| VertexProvider.VendorCodeWins | errors/providers/vertex.go:36-63 | the switch matches exactly the recognised vendor codes, and a recognised code decides whatever the message says |
| VertexProvider.SafetyCodesForbidden | errors/providers/vertex.go:37-48 | each Vertex safety code maps to a content-violation code, which is a 403 |
| VertexProvider.ChildSafetyCodeExample | errors/providers/vertex.go:37-38 | the child-safety vendor code maps to AI_VIOLATION_CHILD_SAFETY |
| VertexProvider.NeverRateLimitExceeded | errors/providers/vertex.go:49-83 | both quota and rate-limit codes map to RATE_QUOTA_EXCEEDED, so the mapper never yields RATE_LIMIT_EXCEEDED |
| VertexProvider.CaseInsensitive | errors/providers/vertex.go:66-86 | the message tests ignore letter case |
| VertexProvider.MessageOrder | errors/providers/vertex.go:66-86 | the keywords are tested in order: child, celebrity, violence, sexual, hate, quota/limit, overload/capacity |
| VertexProvider.GenerationFailedExactly | errors/providers/vertex.go:89 | AI_GENERATION_FAILED comes back exactly when no code and no keyword matched |
| VertexProvider.ViolenceMessageExample | errors/providers/vertex.go:72-74 | an unrecognised code with a message about violence maps to AI_VIOLATION_VIOLENCE |
| VertexProvider.ExampleLowered | errors/providers/vertex.go:72 | the lower-cased form of the example message |
| VertexProvider.ExampleKeywords | errors/providers/vertex.go:66-74 | which keywords the lowered example message contains and which it lacks |
| VertexProvider.RetryableExactly | errors/providers/vertex.go:93-103 | IsRetryableVertexError holds exactly for its six codes |
| VertexProvider.RetryableAgainstPlatform | errors/providers/vertex.go:49-103 | the Vertex retry list agrees with the platform's for overload, unavailable and timeout, but not for the two quota codes or INTERNAL |
| Constraints.ValidateFromEmpty | tools/validation.go:13 | validate.Struct passes exactly when every field passes |
| Constraints.ValidateFromFirst | tools/validation.go:13 | the first error validate.Struct reports is the first failing field's first error |
| Constraints.RequiredString | tools/content_analysis.go:7 | `required` on a string: non-empty |
| Constraints.RequiredStringBetween | tools/media_generation.go:7 | `required,min=lo,max=hi` on a string: non-empty and lo..hi characters |
| Constraints.OptionalString | tools/video_processing.go:22 | `omitempty` alone accepts every string |
| Constraints.OptionalStringOneOf | tools/media_generation.go:11 | `omitempty,oneof=...`: empty, or one of the options |
| Constraints.OptionalStringEq | tools/media_generation.go:32 | `omitempty,eq=p`: empty, or exactly p |
| Constraints.OptionalStringLen | tools/media_generation.go:10 | `omitempty,len=n`: empty, or exactly n characters |
| Constraints.OptionalStringMax | tools/media_generation.go:16 | `omitempty,max=n`: at most n characters |
| Constraints.OptionalIntBetween | tools/media_generation.go:17 | `omitempty,min=lo,max=hi` on an int: zero, or within lo..hi |
| Constraints.OptionalIntMin | tools/video_processing.go:50 | `omitempty,min=lo` on an int: zero, or at least lo |
| Constraints.OptionalIntEq | tools/media_generation.go:59 | `omitempty,eq=n` on an int: zero, or exactly n |
| Constraints.OptionalIntOneOf | tools/media_generation.go:92 | `omitempty,oneof=...` on an int: zero, or its decimal form is an option |
| Constraints.OptionalFloatBetween | tools/media_generation.go:15 | `omitempty,min=lo,max=hi` on a float: zero, or within lo..hi |
| Constraints.OptionalIntPtrBetween | tools/media_generation.go:8 | the same tags on a pointer: nil, or the value, zero included, within lo..hi |
| Constraints.RequiredListBetween | tools/video_processing.go:7 | `required,min=lo,max=hi` on a slice: non-nil with lo..hi items |
| Constraints.RequiredListMin | tools/video_processing.go:58 | `required,min=lo` on a slice: non-nil with at least lo items |
| Constraints.StringRequiredWithout | tools/video_processing.go:23 | `required_without=o`: non-empty whenever o is absent |
| Constraints.StringRequiredWithoutBetween | tools/media_generation.go:88 | `required_without=o,omitempty,min,max`: needed when o is absent, between the bounds when given |
| Constraints.FloatPtrRequiredWithoutBetween | tools/video_processing.go:24 | the same on a float pointer: nil only when o is present, the value between the bounds when given |
| Constraints.StringRequiredWithoutAll | tools/video_processing.go:47 | `required_without_all=...`: non-empty whenever every named field is absent |
| Constraints.ListRequiredWithoutAll | tools/video_processing.go:46 | the same on a slice: non-nil whenever every named field is absent |
| Constraints.OptionalStringOneOfRequiredWithoutAll | tools/video_processing.go:45 | with omitempty first, the trailing required_without_all is never reached: empty, or one of the options |
| Constraints.StructPtrRequiredWithout | tools/media_generation.go:89 | `required_without=o` on a struct pointer: nil only when o is present; a target is validated field by field |
| Constraints.OptionalStructPtr | tools/media_generation.go:90 | an untagged struct pointer: nil passes, a target is validated field by field |
| ToolCommon.MediaReferenceSchemaMeaning | tools/common.go:4-8 | a media reference validates exactly when its MIME type is empty or one of the four allowed |
| ToolCommon.SignedURLsSchemaMeaning | tools/common.go:11-14 | SignedURLs validates exactly when it has at least one URL |
| MediaGeneration.ImagenHeadFields | tools/media_generation.go:7-8 | Imagen prompt: 1..2000 characters; seed: nil or 0..4294967295 |
| MediaGeneration.ImagenStyleFields | tools/media_generation.go:9-10 | Imagen style is free; language is empty or two characters |
| MediaGeneration.ImagenMiddleFields | tools/media_generation.go:12-14 | Imagen aspect ratio is empty or one of five; the two flags are free |
| MediaGeneration.ImagenGuidanceFields | tools/media_generation.go:15-16 | guidance scale is zero or 1..20; negative prompt at most 500 characters |
| MediaGeneration.ImagenOutputFields | tools/media_generation.go:18-20 | MIME type and person generation are empty or one of their options |
| MediaGeneration.ImagenTailFields | tools/media_generation.go:21-23 | safety filter level one of four when given; compression quality zero or 1..100 |
| MediaGeneration.ImagenVaryingFields | tools/media_generation.go:11-17 | standard Imagen: image size empty, 1K or 2K; number of images zero or 1..4 |
| MediaGeneration.ImagenSchemaMeaning | tools/media_generation.go:6-24 | the tags accept a GenerateImageImagenParams exactly when ImagenValid holds |
| MediaGeneration.ImagenFastVaryingFields | tools/media_generation.go:32-38 | Imagen Fast: image size empty or exactly 1K; number of images zero or 1..4 |
| MediaGeneration.ImagenFastSchemaMeaning | tools/media_generation.go:27-45 | the tags accept a GenerateImageImagenFastParams exactly when ImagenFastValid holds |
| MediaGeneration.ImagenUltraVaryingFields | tools/media_generation.go:53-59 | Imagen Ultra: image size empty, 1K or 2K; number of images zero or exactly 1 |
| MediaGeneration.ImagenUltraSchemaMeaning | tools/media_generation.go:48-66 | the tags accept a GenerateImageImagenUltraParams exactly when ImagenUltraValid holds |
| MediaGeneration.ImagenVariantsNarrower | tools/media_generation.go:6-66 | whatever Fast or Ultra accepts, the standard Imagen tool accepts too |
| MediaGeneration.FlashSchemaMeaning | tools/media_generation.go:71-76 | the tags accept a GenerateImageFlashParams exactly when its prompt is non-empty |
| MediaGeneration.GeneralImageFlashUnconstrained | tools/media_generation.go:79-82 | no GeneralImageFlashParams violates its tags |
| MediaGeneration.FpsChoices | tools/media_generation.go:92 | `oneof=24 30 60` on an int picks out exactly the three frame rates |
| MediaGeneration.Veo3Siblings | tools/media_generation.go:88-89 | as required_without sees them, the prompt is absent when empty and the image when nil |
| MediaGeneration.Veo3PromptField | tools/media_generation.go:88 | the Veo3 prompt is required without an image, and 10..2000 characters when given |
| MediaGeneration.Veo3ImageField | tools/media_generation.go:89 | the Veo3 image is required without a prompt, and a valid media reference when given |
| MediaGeneration.Veo3LastFrameField | tools/media_generation.go:90 | the last frame is a valid media reference when given |
| MediaGeneration.Veo3FpsField | tools/media_generation.go:92 | the frame rate is zero or one of 24, 30 and 60 |
| MediaGeneration.Veo3SettingFields | tools/media_generation.go:91-95 | seed, frame rate, duration 5..8, resolution and aspect ratio within their options when given |
| MediaGeneration.Veo3OutputFields | tools/media_generation.go:96-101 | sample count 1..4, negative prompt at most 500, person generation and compression quality within their options |
| MediaGeneration.Veo3SchemaMeaning | tools/media_generation.go:87-102 | the tags accept a GenerateVideoVeo3Params exactly when Veo3Valid holds |
| MediaGeneration.Veo3FastHeadFields | tools/media_generation.go:106-110 | Veo3 Fast prompt is required and 10..2000 characters; seed, frame rate, duration and aspect ratio within bounds |
| MediaGeneration.Veo3FastTailFields | tools/media_generation.go:111-116 | Veo3 Fast sample count, flags, negative prompt, person generation and compression quality |
| MediaGeneration.Veo3FastSchemaMeaning | tools/media_generation.go:105-117 | the tags accept a GenerateVideoVeo3FastParams exactly when Veo3FastValid holds |
| MediaGeneration.LyriaSchemaMeaning | tools/media_generation.go:128-133 | the tags accept a GenerateMusicLyriaParams exactly when LyriaValid holds |
| VideoProcessing.CombineVideosHeadFields | tools/video_processing.go:7-10 | 2..10 video URLs; signed URLs and IDs free; transition empty or one of three |
| VideoProcessing.CombineVideosTailFields | tools/video_processing.go:11-15 | fade 0..5 when given; audio strategy and format within their options; codecs free |
| VideoProcessing.CombineVideosSchemaMeaning | tools/video_processing.go:6-16 | the tags accept a CombineVideosParams exactly when CombineVideosValid holds |
| VideoProcessing.TrimVideoHeadFields | tools/video_processing.go:20-22 | the video URL is required; signed URL and start time free |
| VideoProcessing.TrimVideoSiblings | tools/video_processing.go:23-24 | the end time is absent when empty, the duration when nil |
| VideoProcessing.TrimVideoEndField | tools/video_processing.go:23 | the end time is required when there is no duration |
| VideoProcessing.TrimVideoDurationField | tools/video_processing.go:24 | the duration is required when there is no end time, and 0.1..600 when given |
| VideoProcessing.TrimVideoTailFields | tools/video_processing.go:25-26 | the fast-mode flag is free; the format is empty, mp4 or webm |
| VideoProcessing.TrimVideoSchemaMeaning | tools/video_processing.go:19-27 | the tags accept a TrimVideoParams exactly when TrimVideoValid holds |
| VideoProcessing.ImageAudioMergeHeadFields | tools/video_processing.go:31-34 | image and audio URLs required; signed URLs free |
| VideoProcessing.ImageAudioMergeTailFields | tools/video_processing.go:35-38 | format and resolution within their options; bitrates free |
| VideoProcessing.ImageAudioMergeSchemaMeaning | tools/video_processing.go:30-39 | the tags accept an ImageAudioMergeParams exactly when ImageAudioMergeValid holds |
| VideoProcessing.ExtractFrameHeadFields | tools/video_processing.go:43-45 | the video URL is required; the position is empty or first, last or middle |
| VideoProcessing.ExtractFrameSiblings | tools/video_processing.go:45-47 | how required_without_all sees position, positions and timestamp |
| VideoProcessing.ExtractFramePositionsField | tools/video_processing.go:46 | the positions list is non-nil when neither a position nor a timestamp is given |
| VideoProcessing.ExtractFrameTimestampField | tools/video_processing.go:47 | the timestamp is required when neither a position nor a positions list is given |
| VideoProcessing.ExtractFrameTailFields | tools/video_processing.go:48-51 | format jpg or png; quality 1..100; width and height at least 1 when given |
| VideoProcessing.ExtractFrameSchemaMeaning | tools/video_processing.go:42-52 | the tags accept an ExtractFrameParams exactly when ExtractFrameValid holds |
| VideoProcessing.MergeImagesSchemaMeaning | tools/video_processing.go:57-62 | the tags accept a MergeImagesParams exactly when it has at least two images and a valid layout and spacing |
| ContentAnalysis.ContentAnalyzerSchemaMeaning | tools/content_analysis.go:6-11 | the tags accept a ContentAnalyzerParams exactly when it has a URL and valid analysis type and output format |
| ContentAnalysis.GoogleSearchSchemaMeaning | tools/content_analysis.go:14-19 | the tags accept a GoogleSearchParams exactly when it has a query, a valid recency and 1..10 results when given |
| ToolValidation.DeclarativeFailureText | tools/validation.go:13-15 | a failure of validate.Struct reads "validation failed: ..." and so never starts with "either" |
| ToolValidation.ValidateImagen | tools/validation.go:12-17 | nil exactly when ImagenValid holds; otherwise a wrapped validator list |
| ToolValidation.ValidateImagenFast | tools/validation.go:19-24 | nil exactly when ImagenFastValid holds; otherwise a wrapped validator list |
| ToolValidation.ValidateImagenUltra | tools/validation.go:26-31 | nil exactly when ImagenUltraValid holds; otherwise a wrapped validator list |
| ToolValidation.ValidateFlash | tools/validation.go:33-38 | nil exactly when the prompt is non-empty; otherwise a wrapped validator list |
| ToolValidation.GeneralImageFlashAgreesWithTags | tools/validation.go:40-43 | returning nil without the validator agrees with what the tags would say |
| ToolValidation.ValidateVeo3 | tools/validation.go:45-79 | with neither prompt nor image, the "either prompt or image" error; otherwise nil exactly when Veo3Valid holds |
| ToolValidation.ValidateVeo3Fast | tools/validation.go:56-68 | nil exactly when Veo3FastValid holds; otherwise a wrapped validator list |
| ToolValidation.ValidateLyria | tools/validation.go:81-86 | nil exactly when LyriaValid holds |
| ToolValidation.ValidateCombineVideos | tools/validation.go:90-95 | nil exactly when CombineVideosValid holds |
| ToolValidation.ValidateTrimVideo | tools/validation.go:97-106 | with neither end time nor duration, the "either end_time or duration" error; otherwise nil exactly when TrimVideoValid holds |
| ToolValidation.ValidateImageAudioMerge | tools/validation.go:108-113 | nil exactly when ImageAudioMergeValid holds |
| ToolValidation.ValidateExtractFrame | tools/validation.go:115-124 | with neither position nor timestamp, the "either position or timestamp" error; nil exactly when one is given and the tags pass |
| ToolValidation.ExtractFrameCustomCheckStricter | tools/validation.go:115-124 | a request with only a positions list satisfies the tags but is rejected by the hand-written check |
| ToolValidation.ValidateMergeImages | tools/validation.go:126-131 | nil exactly when MergeImagesValid holds |
| ToolValidation.ValidateContentAnalyzer | tools/validation.go:135-140 | nil exactly when ContentAnalyzerValid holds |
| ToolValidation.ValidateGoogleSearch | tools/validation.go:142-147 | nil exactly when GoogleSearchValid holds |
| ToolValidation.ImagenEmptyPromptFirstError | tools/validation.go:12-17 | an empty Imagen prompt fails, and the first field error is the prompt's `required` |
| ToolRegistry.IsValidToolName | tools/registry.go:171-183 | the name check; ValidIffDispatched proves it accepts exactly the names the switch dispatches |
| ToolRegistry.ParseAndValidateParams | tools/registry.go:37-168 | the dispatcher; ParseAndValidateAccepts, UnknownToolIff and CasesBehave state when it passes and what it returns |
| ToolRegistry.ParseToolName | tools/registry.go:45-167 | the dispatcher finds a tool only for a string that is that tool's name |
| ToolRegistry.NameRoundTrip | tools/registry.go:11-34 | each constant's string leads the switch back to that constant |
| ToolRegistry.NameInjective | tools/registry.go:11-34 | the seventeen names are pairwise distinct |
| ToolRegistry.ValidIffDispatched | tools/registry.go:171-183 | IsValidToolName accepts exactly the names the switch dispatches, which are exactly the constants' values |
| ToolRegistry.ValidateNanoBanana | tools/registry.go:74-79 | a decoded nano-banana request is always accepted |
| ToolRegistry.ImagenCasesBehave | tools/registry.go:46-65 | the three Imagen cases pass exactly when the tool accepts the payload, and wrap a decoding failure |
| ToolRegistry.FlashCasesBehave | tools/registry.go:67-114 | the same for Flash and nano-banana (lines 67-79) and for Lyria (lines 109-114) |
| ToolRegistry.Veo3CasesBehave | tools/registry.go:81-107 | the same for Veo3 and its no-audio alias |
| ToolRegistry.Veo3CaseBehaves | tools/registry.go:81-86 | the generate-video-veo3 case passes exactly when Veo3 accepts the payload, wraps a decoding failure, and is never the unknown-tool error |
| ToolRegistry.Veo3NoAudioCaseBehaves | tools/registry.go:102-107 | the same for generate-video-veo3-no-audio and its own parameter struct |
| ToolRegistry.Veo3FastCasesBehave | tools/registry.go:88-100 | the same for Veo3 Fast and its no-audio alias |
| ToolRegistry.EditingCasesBehave | tools/registry.go:116-135 | the same for combine-videos, trim-video and image-audio-merge |
| ToolRegistry.FramesCasesBehave | tools/registry.go:137-149 | the same for extract-frame and merge-images |
| ToolRegistry.AnalysisCasesBehave | tools/registry.go:151-163 | the same for content-analyzer and google-search |
| ToolRegistry.CasesBehave | tools/registry.go:45-164 | every case passes exactly when its tool accepts the payload, returns a decoding failure wrapped in "invalid params for ...", and never returns the unknown-tool error |
| ToolRegistry.ParseAndValidateAccepts | tools/registry.go:37-168 | a request passes exactly when its parameters marshal, it names a known tool, and that tool accepts them |
| ToolRegistry.UnknownToolIff | tools/registry.go:39-166 | with marshallable parameters, "unknown tool" comes back exactly for the names IsValidToolName rejects; a marshalling failure wins over any name |
| ToolRegistry.DecodeFailureSkipsValidate | tools/registry.go:48-50 | a known tool whose struct does not decode returns the decoder's error wrapped, without calling Validate |
| ToolErrors.ToSnakeCase | tools/errors.go:158-167 | the rune loop computes SnakeCase |
| ToolErrors.SnakeLength | tools/errors.go:160-165 | the output is one rune longer than the input for every upper-case letter after the first position |
| ToolErrors.SnakeNoUpper | tools/errors.go:160-165 | the output has no upper-case ASCII letter |
| ToolErrors.SnakeFirst | tools/errors.go:164 | the output starts with the first rune, lowered |
| ToolErrors.SnakeDropUnderscores | tools/errors.go:160-165 | for a name without underscores, removing the inserted underscores gives the name lowered |
| ToolErrors.SnakeOfLower | tools/errors.go:160-165 | a name with no upper-case letter is left alone |
| ToolErrors.SnakeIdempotent | tools/errors.go:158-167 | converting twice is converting once |
| ToolErrors.SnakeNegativePrompt | tools/errors.go:157 | NegativePrompt becomes negative_prompt |
| ToolErrors.SnakePrompt | tools/errors.go:158-167 | Prompt becomes prompt |
| ToolErrors.TagConversion | tools/errors.go:25-123 | the message of the tag switch always names the field in snake case |
| ToolErrors.TagCodes | tools/errors.go:25-123 | each code of the tag switch comes from exactly its tag (and, for min and max, the value's kind) |
| ToolErrors.TagConversionIgnoresNamespace | tools/errors.go:20-22 | the result depends on the field error only through field, tag, parameter and kind |
| ToolErrors.TextConversion | tools/errors.go:128-154 | the message contains the error text; mutually exclusive exactly for "either" and "required", invalid format exactly for "cannot unmarshal" otherwise, invalid request for everything else |
| ToolErrors.Convert | tools/errors.go:12-155 | the decision as written: none exactly for a nil error |
| ToolErrors.FirstFieldErrorDecides | tools/errors.go:19-27 | only the first field error of a list decides the result |
| ToolErrors.ConversionClassified | tools/errors.go:25-154 | every code the adapter produces is a 400 in the validation category, low severity for missing and invalid parameters, medium otherwise |
| ToolErrors.EitherRequiredMessage | tools/errors.go:129-136 | a message starting "either" and mentioning "required" becomes VAL_MUTUALLY_EXCLUSIVE unchanged |
| ToolErrors.PromptOrImageMutuallyExclusive | tools/errors.go:129-136 | the Veo3 prompt-or-image message becomes VAL_MUTUALLY_EXCLUSIVE unchanged |
| ToolErrors.EndTimeOrDurationMutuallyExclusive | tools/errors.go:129-136 | the trim-video message becomes VAL_MUTUALLY_EXCLUSIVE unchanged |
| ToolErrors.PositionOrTimestampMutuallyExclusive | tools/errors.go:129-136 | the extract-frame message becomes VAL_MUTUALLY_EXCLUSIVE unchanged |
| ToolErrors.UnknownToolInvalidRequest | tools/errors.go:148-154 | an unknown tool is classified through its name alone, and is VAL_INVALID_REQUEST for ordinary names |
| ToolErrors.DecodeFailureFormat | tools/errors.go:138-146 | a decoder failure saying "cannot unmarshal" is never a plain invalid request |
| ToolErrors.DeclarativeFailureSkipsTagSwitch | tools/errors.go:18 | as written, a wrapped validator list fails the type assertion, so only the three text codes can come out |
| ToolErrors.ImagenEmptyPromptAsWritten | tools/errors.go:18 | as written, an empty Imagen prompt is not reported as a missing parameter |
| ToolErrors.FindFieldErrors | tools/errors.go:18 | the validator's list found through any chain of wrapping |
| ToolErrors.ConvertUnwrapping | tools/errors.go:12-155 | the corrected decision: none exactly for a nil error, the list unwrapped before the tag switch |
| ToolErrors.ConvertUnwrappingAgrees | tools/errors.go:12-155 | the corrected decision agrees with the written one on every error that does not wrap a validator list |
| ToolErrors.UnwrappingReachesTagSwitch | tools/errors.go:18-27 | corrected, a declarative failure reaches the tag switch with its first field error |
| ToolErrors.ImagenEmptyPromptCorrected | tools/errors.go:26-33 | corrected, an empty Imagen prompt is the missing parameter 'prompt' of generate-image-imagen |
| ToolErrors.ValidationErrorToServiceError | tools/errors.go:12-155 | nil exactly for a nil error; otherwise a fresh non-retryable tool-validation error whose code and message come from the decision as written (Convert) |
| ToolErrors.ValidationErrorToServiceErrorUnwrapping | tools/errors.go:12-155 | the same error built from the corrected decision (ConvertUnwrapping), which finds the validator's list through the wrapping |
| ToolErrors.ValidateAndGetError | tools/errors.go:169-176 | nil exactly when ParseAndValidateParams passes; otherwise the error the as-written adapter builds from its failure |
| ToolErrors.ValidateAndGetErrorUnwrapping | tools/errors.go:169-176 | the same over the corrected adapter |
| ToolErrors.ValidateAndGetOutcome | tools/errors.go:169-176 | as written and corrected alike, the outcome is nil exactly for a marshallable request naming a known tool that accepts it, and an ordinary unknown name is VAL_INVALID_REQUEST |
| ToolMetadata.Entry | tools/metadata.go:45-317 | each tool's entry carries that tool's name |
| ToolMetadata.LookupExact | tools/metadata.go:45-317 | the table has an entry for exactly the seventeen tool names, each under its own name |
| ToolMetadata.CreditsNonNegative | tools/metadata.go:45-317 | no tool costs negative credits |
| ToolMetadata.GetToolMetadata | tools/metadata.go:320-323 | found exactly for a valid tool name, returning its entry; otherwise the zero entry |
| ToolMetadata.GetToolCredits | tools/metadata.go:326-331 | the entry's credits for a valid name, 0 otherwise |
| ToolMetadata.EntryInjective | tools/metadata.go:45-317 | distinct tools have distinct entries |
| ToolMetadata.SelectExact | tools/metadata.go:334-353 | under any visiting order of the map, a filtering scan returns every kept entry once and nothing else |
| ToolMetadata.Scan | tools/metadata.go:336-341 | the loop over the map computes the filtered list |
| ToolMetadata.GetToolsByType | tools/metadata.go:334-342 | returns exactly the entries of the given type, each once, in any order |
| ToolMetadata.GetToolsByService | tools/metadata.go:345-353 | returns exactly the entries of the given service, each once, in any order |
| ToolMetadata.VideoProcessorTools | tools/metadata.go:214-279 | the video processor serves exactly combine, trim, image-audio-merge and extract-frame; merge-images stays with media-ai |
| ToolMetadata.FreeTools | tools/metadata.go:277-305 | exactly merge-images and google-search are free |
| ToolSigning.NeedsSignedURLs | tools/signing.go:15-18 | the signing check; NeedsSignedExact and SigningMatchesService state which tools it accepts |
| ToolSigning.GetSignableFields | tools/signing.go:21-23 | a non-empty list exactly for the tools NeedsSignedURLs accepts |
| ToolSigning.NeedsSignedExact | tools/signing.go:5-18 | signing is needed for exactly the five processing tools |
| ToolSigning.SigningMatchesService | tools/signing.go:5-12 | a tool needs signing exactly when the video processor serves it or it is merge-images |
| ToolSigning.ImageAudioMergeFields | tools/signing.go:9 | image-audio-merge signs image_url then audio_url |
| ToolMultimodal.ValidatePart | tools/multimodal.go:18-24 | a part passes exactly when it has text or an image URL |
| ToolMultimodal.FirstInvalidPart | tools/multimodal.go:34-39 | the loop stops at the first empty part |
| ToolMultimodal.ValidateContext | tools/multimodal.go:27-43 | passes exactly for a user or model role with parts that are all populated; role, then parts, then each part |
| ToolMultimodal.FirstInvalidReported | tools/multimodal.go:34-39 | the first empty part is reported by its index |
| ToolResults.ScanRetryable | tools/results.go:104-109 | the scan from index i finds exactly the codes from i on |
| ToolResults.IsRetryableError | tools/results.go:95-110 | retryable exactly for its five codes |
| ToolResults.NewSuccessResult | tools/results.go:75-81 | a successful result for the tool holding the value, with no error and no metadata |
| ToolResults.NewErrorResult | tools/results.go:84-92 | a failed result with the message and code, retryable exactly for the five codes |
| ToolResults.HasMediaAssets | tools/results.go:113-115 | metadata with assets; GetMediaAssets returns a non-empty list exactly when it holds |
| ToolResults.IsRetryable | tools/results.go:126-128 | a failed, retryable result; RetryableResults states it for both constructors |
| ToolResults.GetMediaAssets | tools/results.go:118-123 | the assets are non-empty exactly when HasMediaAssets holds; none without metadata |
| ToolResults.RetryableResults | tools/results.go:75-128 | a successful result is never retryable; an error result is retryable exactly when its code is on the list |
| ToolResults.CanonicalCodesNotRetryable | tools/results.go:96-102 | no declared platform code is on the legacy retry list |
| ToolResults.TimeoutRetryVocabularies | tools/results.go:96-102 | SYS_TIMEOUT is retryable for the platform, yet a legacy error result built from it is not |
| ResultsCommon.PayloadCount | results/common.go:96-102 | how many payloads are set: at most two, one exactly when just one is set |
| ResultsCommon.ToolResultError | results/common.go:85-113 | passes exactly for a named tool with, on success, exactly one payload and, on failure, error info with a code; the messages in their order |
| ResultsCommon.Validate | results/common.go:85-113 | the method counting payloads in a local computes ToolResultError |
| ResultsCommon.ValidateMediaAsset | results/common.go:116-130 | passes exactly for an asset with ID, storage URL, public URL and MIME type; each missing field's message prefixed with "asset[i]: " in order |
| ResultsCommon.EnvelopeIgnoresPayload | results/common.go:85-113 | the envelope check never looks inside a payload |
| ResultsCommon.FailedResultPayloadsUnchecked | results/common.go:93-110 | a failed result with error info passes even when it carries both payloads |
| MediaResults.AssetURLError | results/media_generation.go:177-205 | passes exactly when every image, video and audio item has both URLs |
| MediaResults.ValidateMediaGeneration | results/media_generation.go:163-208 | passes exactly with an asset, a prompt, a model and both URLs on every asset; the three leading messages in order |
| MediaResults.FirstBadImageReported | results/media_generation.go:177-184 | the first image lacking a URL is reported by index and by the URL it lacks |
| MediaResults.FirstBadVideoReported | results/media_generation.go:186-193 | a failing video is reported only once every image passes |
| MediaResults.FirstBadAudioReported | results/media_generation.go:195-202 | a failing audio item is reported only once every image and video passes |
| MediaResults.NewImageGenerationResult | results/media_generation.go:49-76 | the image result; ImageGenerationChecked states its shape and when it validates |
| MediaResults.NewVideoGenerationResult | results/media_generation.go:79-108 | the video result; VideoGenerationChecked states its shape and when it validates |
| MediaResults.NewAudioGenerationResult | results/media_generation.go:111-138 | the audio result; AudioGenerationChecked states its shape and when it validates |
| MediaResults.ImageGenerationChecked | results/media_generation.go:49-76 | the image result counts its images as requested and generated, passes the envelope check exactly with a tool name, and its payload check has the expected iff |
| MediaResults.VideoGenerationChecked | results/media_generation.go:79-108 | the video result holds exactly one video, counts 1 and 1, and records whether audio was generated |
| MediaResults.AudioGenerationChecked | results/media_generation.go:111-138 | the audio result counts its tracks as requested and generated |
| VideoResults.ValidateVideoProcessing | results/video_processing.go:288-314 | passes exactly with an output, inputs, operations and every input typed with a URL; the messages in order |
| VideoResults.FirstBadInputReported | results/video_processing.go:303-310 | the first input lacking a URL or type is reported, URL first |
| VideoResults.BuildInputs | results/video_processing.go:91-247 | the loops of the combine (lines 91-97) and merge-images (lines 241-247) constructors build one input of the given type per URL, in order |
| VideoResults.InputsForChecked | results/video_processing.go:91-310 | inputs built by those loops pass the per-input check (lines 303-310) exactly when no URL is empty |
| VideoResults.NewCombineVideosResult | results/video_processing.go:83-117 | the method builds the combine result the specification function describes |
| VideoResults.FrameParams | results/video_processing.go:128-137 | position and timestamp are keys exactly when non-empty, with their values, and nothing else |
| VideoResults.NewExtractFrameResult | results/video_processing.go:120-156 | the method inserting into the parameters map builds the extract-frame result the specification function describes |
| VideoResults.NewMergeImagesResult | results/video_processing.go:232-268 | the method builds the merge-images result the specification function describes |
| VideoResults.NewVideoProcessingError | results/video_processing.go:271-285 | a failed result for the tool whose error is a fresh ServiceError state for the code, message and service, with no payload |
| VideoResults.VideoProcessingErrorChecked | results/video_processing.go:271-285 | an error result passes the envelope check exactly when it names its tool and its code |
| VideoResults.NewTrimVideoResult | results/video_processing.go:48-80 | the trim result; TrimResultChecked states its shape and when it validates |
| VideoResults.NewExtractFramesResult | results/video_processing.go:159-190 | the batch frame result; EmptyFramesRejected states that an empty batch fails the payload check |
| VideoResults.NewImageAudioMergeResult | results/video_processing.go:193-229 | the image-audio-merge result; ImageAudioMergeInputs states its inputs |
| VideoResults.TrimResultChecked | results/video_processing.go:48-80 | a trim result has one video, input and operation, passes the envelope check, and its payload passes exactly when the input URL is non-empty |
| VideoResults.ExtractFrameResultChecked | results/video_processing.go:120-156 | the same for a single frame, whose output is an image |
| VideoResults.CombineResultChecked | results/video_processing.go:83-117 | one "video" input per URL in order, counted; the payload passes exactly when there is a URL and none is empty |
| VideoResults.MergeImagesResultChecked | results/video_processing.go:232-268 | the same for merge-images, with "image" inputs |
| VideoResults.ImageAudioMergeInputs | results/video_processing.go:193-229 | the image input comes before the audio input, and only the audio records the duration |
| VideoResults.EmptyFramesRejected | results/video_processing.go:159-190 | a batch extraction with no images passes the envelope check but fails the payload check |
| ContentResults.ValidateContentAnalysis | results/content_analysis.go:142-181 | passes exactly with a type and a summary, plus non-empty complete results for "search" and sources for "webpage"/"document"; the messages in order |
| ContentResults.FirstBadSearchResultReported | results/content_analysis.go:155-163 | the first search result lacking a title or URL is reported, title first |
| ContentResults.FirstBadSourceReported | results/content_analysis.go:165-177 | the first source lacking a URL or content is reported, URL first |
| ContentResults.NewContentAnalyzerResult | results/content_analysis.go:74-94 | the analyzer result; ContentAnalyzerChecked and ContentResultsFailEnvelope state its payload check and its envelope check |
| ContentResults.NewGoogleSearchResult | results/content_analysis.go:97-117 | the search result; GoogleSearchChecked and ContentResultsFailEnvelope state its payload check and its envelope check |
| ContentResults.GoogleSearchChecked | results/content_analysis.go:97-117 | a search result is typed "search", counts its results, and its payload passes exactly with a summary and complete results |
| ContentResults.ContentAnalyzerChecked | results/content_analysis.go:74-94 | an analyzer result is typed "webpage" and its payload passes exactly with a summary and complete sources |
| ContentResults.OtherTypesUnchecked | results/content_analysis.go:151-180 | any other analysis type passes on type and summary alone |
| ContentResults.ContentResultsFailEnvelope | results/content_analysis.go:74-117 | both content constructors build a successful result the envelope check rejects with "got 0" |
| Messages.ValidateMediaAsset | messages/conversation.go:146-162 | passes exactly with all five fields; the five messages in order |
| Messages.ValidateHistoryMessage | messages/conversation.go:123-143 | passes exactly for a known role with content or tool calls and every tool call valid; role first, then body |
| Messages.FirstBadToolCallReported | messages/conversation.go:136-140 | the first failing tool call is reported by index, wrapping its error |
| Messages.FirstBadMessage | messages/conversation.go:114-118 | the loop stops at the first failing history message |
| Messages.ValidateHistory | messages/conversation.go:113-120 | passes exactly when every history message does |
| Messages.FirstBadMessageReported | messages/conversation.go:114-118 | the first failing history message is reported by index, wrapping its error |
| Messages.RoutingError | messages/tool_result.go:46-63 | passes exactly with the five routing fields and a result; the messages in order |
| Messages.PlanError | messages/tool_result.go:71-81 | passes exactly with a plan ID and 0 <= step index < total steps; the messages in order |
| Messages.ValidateToolResultMessage | messages/tool_result.go:45-84 | passes exactly when routing, the result's envelope check and the plan context pass; a result error is wrapped in "invalid result: " |
| Messages.PlanContextBounds | messages/tool_result.go:71-81 | an accepted plan context has at least one step and its index within them |
| Messages.JobIDAndLastStepUnchecked | messages/tool_result.go:23-84 | the job ID and the last-step flag never change the outcome |
| Messages.SearchResultsUndeliverable | messages/tool_result.go:66-68 | a message carrying a google-search result is always rejected as an invalid result |
| Messages.HeaderError | messages/conversation.go:60-86 | passes exactly with the identity, a known role and a body; the messages in order |
| Messages.RegistryError | messages/conversation.go:102-107 | passes exactly when every registry asset is complete |
| Messages.ValidateConversationMessage | messages/conversation.go:59-110 | passes exactly when the header and every nested part pass, in the order tool result, history, registry |
| Messages.HistoryErrorReported | messages/conversation.go:95-100 | a history error is reported wrapped once the tool result passes |
| Messages.FirstBadRegistryAssetReported | messages/conversation.go:102-107 | the first incomplete registry asset is reported by index once everything before passes |
| Messages.SystemMessageWithoutContent | messages/conversation.go:84-93 | a system message without content passes only with a tool result that itself passes |
| Progress.IsTerminal | progress/types.go:116-118 | the terminal statuses; StatusPartition proves exactly completed, failed and cancelled are terminal |
| Progress.IsActive | progress/types.go:121-123 | the complement of IsTerminal; StatusPartition proves which statuses are active |
| Progress.StatusPartition | progress/types.go:116-123 | of the eight statuses exactly completed, failed and cancelled are terminal; every other string is active |
| Progress.NewUpdate | progress/types.go:72-81 | the arguments stored, the optional fields empty, stamped with the clock reading |
| Progress.NewProcessingUpdate | progress/types.go:84-93 | always processing, which is active, with the step and the clock reading |
| Progress.NewBatchUpdate | progress/types.go:96-111 | the counts stored, the progress BatchProgress computes, no item statuses |
| Progress.BatchProgressBounds | progress/types.go:97-100 | with 0 <= completed <= total, progress is 0..100, 0 with nothing done and 100 with everything done |
| Progress.BatchProgressMonotone | progress/types.go:97-100 | progress never falls as completed items grow, and failed items do not enter it |
| Progress.NegativeCountsTruncate | progress/types.go:97-100 | an empty batch reports 0; a completed count of -1 out of 1000 truncates to 0, as Go's division does |

## Left out

- JSON: `json:"..."` names, `ToJSON`, `json.Marshal`/`Unmarshal`. Decoding is an abstract outcome per tool (decoded struct or failure text).
- `tools/schemas.go`, `GetAllTools` and the description/examples text of the metadata table: data for clients, checked by nothing.
- The callbacks and events packages, as well as `CalculateETA` and the `New*Metadata` helpers of results: they only build records from a clock and their arguments.
- Clocks: `time.Now()` is the parameter `now`; `time.Duration` is an integer, and its `%v` text is a parameter of RateLimitError.
- Rendering of `%v` for interface values in MediaDimensionError: `RenderValue` is a parameter-free stand-in for fmt's text.
- Case folding in `strings.ToLower` and in toSnakeCase covers ASCII letters only.
- Floating-point fields are `real`; rounding is not modelled.
- Interface values (`interface{}`, `map[string]interface{}` in Metadata, ProviderData, SignedExpiry, StructuredData) are opaque: `AnyValue` or left out of the record.
- The go-playground/validator library is not part of this model. Its behaviour on the tags used here is modelled from its documented semantics.
- The tags it is never asked about are left out.
- NanoBananaParams is not part of this model: its struct is referenced by the registry but not declared in the sources. Its decoded value is opaque and its Validate accepts it.
- The `ToolCall` type of a history message is not part of this model. Its `Validate` is a parameter, `toolCallCheck`.
- The `ErrorInfo` type is not part of this model. NewMediaGenerationError and NewContentAnalysisError build it, so neither compiles against the declared types, and both are left out.
- `ToolResult`'s JobID, UserID, ConversationID, MessageID and ContentAnalysis fields are used by the constructors but not declared in results/common.go. They are modelled as plain fields that ToolResult.Validate does not look at.
- ValidationErrorToServiceError: the unused `paramName` parameter is accepted and ignored.
- NewContentAnalyzerResult: the `urls` parameter is accepted and not stored, as in the source.
- Progress.NewBatchUpdate: `completedItems*100` is not wrapped at 64 bits; integers are unbounded.
- ServiceError aliasing: WithMetadata shares the given object, and the model tracks that pointer. Later writes through another alias are not traced.
- Concurrency: none in the core.

## Findings

| source | as written | input that shows it | evidently intended | confidence | as-written member | corrected member |
|---|---|---|---|---|---|---|
| tools/errors.go:18 | `err.(validator.ValidationErrors)` is a plain type assertion. Every Validate in tools/validation.go wraps the validator's list with `fmt.Errorf("validation failed: %w", err)`, so the assertion never matches and the tag switch (lines 19-125) is unreachable from ValidateAndGetError. | generate-image-imagen with `prompt: ""`. The validator reports Prompt/required, yet the adapter returns VAL_INVALID_REQUEST "Invalid parameters for tool ...". | unwrap with `errors.As` so that the tag switch sees the first field error. The same request then gives VAL_MISSING_PARAMETER "Required parameter 'prompt' is missing for tool 'generate-image-imagen'". | not executed | ToolErrors.DeclarativeFailureSkipsTagSwitch, ToolErrors.ImagenEmptyPromptAsWritten | ToolErrors.ConvertUnwrapping, ToolErrors.ImagenEmptyPromptCorrected |

ToolErrors.ValidationErrorToServiceError and ToolErrors.ValidateAndGetError model the adapter as written, through ToolErrors.Convert. ToolErrors.ValidationErrorToServiceErrorUnwrapping and ToolErrors.ValidateAndGetErrorUnwrapping are the same methods over the corrected decision.

Two other behaviours follow from the source and are stated as lemmas, not as findings:

- The content constructors set only the ContentAnalysis field. ToolResult.Validate does not count that field, so it rejects every result they build, and a ToolResultMessage cannot carry one. See ContentResults.ContentResultsFailEnvelope and Messages.SearchResultsUndeliverable.
- The vendor retry tables disagree with IsRetryableCode in places. See OpenAIProvider.RetryableDisagreements and VertexProvider.RetryableAgainstPlatform.
