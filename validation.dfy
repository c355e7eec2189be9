// The Validate method of every tool parameter struct (tools/validation.go):
// an optional hand-written either/or check, then validate.Struct, whose
// failure is wrapped with "validation failed: " by fmt.Errorf's %w.
module ToolValidation {
  import opened Wrappers
  import opened Text
  import opened Constraints
  import opened MediaGeneration
  import opened VideoProcessing
  import opened ContentAnalysis

  /** A Go `error` as far as the tools package builds and inspects one:
      a plain message (fmt.Errorf without %w), a message wrapping another
      error (fmt.Errorf with %w after `prefix`), or the validator's
      ValidationErrors list. */
  datatype GoError =
    | Message(text: string)
    | Wrapped(prefix: string, inner: GoError)
    | FieldErrors(errs: seq<FieldError>)

  /** validator.FieldError.Error(). */
  function FieldErrorText(fe: FieldError): string
  {
    "Key: '" + fe.namespace + "' Error:Field validation for '" + fe.field + "' failed on the '" + fe.tag + "' tag"
  }

  function FieldErrorTexts(errs: seq<FieldError>): seq<string>
  {
    seq(|errs|, i requires 0 <= i < |errs| => FieldErrorText(errs[i]))
  }

  /** err.Error(): a wrapping error prints its prefix and then the wrapped
      error; ValidationErrors prints one line per field error. */
  function ErrorText(e: GoError): string
  {
    match e
    case Message(text) => text
    case Wrapped(prefix, inner) => prefix + ErrorText(inner)
    case FieldErrors(errs) => Join(FieldErrorTexts(errs), "\n")
  }

  const ValidationFailed := "validation failed: "
  const EitherPromptOrImage := "either prompt or image is required"
  const EitherEndTimeOrDuration := "either end_time or duration is required"
  const EitherPositionOrTimestamp := "either position or timestamp is required"

  /** The error a failed validate.Struct leaves behind in every Validate. */
  predicate DeclarativeFailure(e: GoError)
  {
    e.Wrapped? && e.prefix == ValidationFailed && e.inner.FieldErrors? && |e.inner.errs| > 0
  }

  /** The text of a declarative failure starts with "validation failed: ". */
  lemma DeclarativeFailureText(e: GoError)
    requires DeclarativeFailure(e)
    ensures HasPrefix(ErrorText(e), ValidationFailed)
    ensures !HasPrefix(ErrorText(e), "either")
  {
    assert ErrorText(e)[..|ValidationFailed|] == ValidationFailed;
    DisagreeNotPrefix(ErrorText(e), "either", 0);
  }

  /** `if err := validate.Struct(p); err != nil { return fmt.Errorf(...) }`. */
  function StructResult(errs: seq<FieldError>): Option<GoError>
  {
    if errs == [] then None else Some(Wrapped(ValidationFailed, FieldErrors(errs)))
  }

  // === Media generation ===

  /** GenerateImageImagenParams.Validate (tools/validation.go:12-17). */
  function ValidateImagen(p: ImagenParams): (r: Option<GoError>)
    ensures r.None? <==> ImagenValid(p)
    ensures r.Some? ==> DeclarativeFailure(r.value)
  {
    ImagenSchemaMeaning(p, "GenerateImageImagenParams");
    StructResult(ValidateStruct("GenerateImageImagenParams", ImagenSchema, ImagenValues(p)))
  }

  /** GenerateImageImagenFastParams.Validate (tools/validation.go:19-24). */
  function ValidateImagenFast(p: ImagenParams): (r: Option<GoError>)
    ensures r.None? <==> ImagenFastValid(p)
    ensures r.Some? ==> DeclarativeFailure(r.value)
  {
    ImagenFastSchemaMeaning(p, "GenerateImageImagenFastParams");
    StructResult(ValidateStruct("GenerateImageImagenFastParams", ImagenFastSchema, ImagenValues(p)))
  }

  /** GenerateImageImagenUltraParams.Validate (tools/validation.go:26-31). */
  function ValidateImagenUltra(p: ImagenParams): (r: Option<GoError>)
    ensures r.None? <==> ImagenUltraValid(p)
    ensures r.Some? ==> DeclarativeFailure(r.value)
  {
    ImagenUltraSchemaMeaning(p, "GenerateImageImagenUltraParams");
    StructResult(ValidateStruct("GenerateImageImagenUltraParams", ImagenUltraSchema, ImagenValues(p)))
  }

  /** GenerateImageFlashParams.Validate (tools/validation.go:33-38). */
  function ValidateFlash(p: FlashParams): (r: Option<GoError>)
    ensures r.None? <==> FlashValid(p)
    ensures r.Some? ==> DeclarativeFailure(r.value)
  {
    FlashSchemaMeaning(p, "GenerateImageFlashParams");
    StructResult(ValidateStruct("GenerateImageFlashParams", FlashSchema, FlashValues(p)))
  }

  /** GeneralImageFlashParams.Validate (tools/validation.go:40-43) returns
      nil without consulting the validator. */
  function ValidateGeneralImageFlash(p: GeneralImageFlashParams): Option<GoError>
  {
    None
  }

  /** Skipping the validator loses nothing: its tags would accept every
      GeneralImageFlashParams as well. */
  lemma GeneralImageFlashAgreesWithTags(p: GeneralImageFlashParams)
    ensures ValidateGeneralImageFlash(p) ==
      StructResult(ValidateStruct("GeneralImageFlashParams", GeneralImageFlashSchema, GeneralImageFlashValues(p)))
  {
    GeneralImageFlashUnconstrained(p, "GeneralImageFlashParams");
  }

  /** GenerateVideoVeo3Params.Validate (tools/validation.go:45-54); the
      alias GenerateVideoVeo3NoAudioParams has the same body
      (tools/validation.go:70-79). */
  function ValidateVeo3(p: Veo3Params): (r: Option<GoError>)
    ensures p.prompt == "" && p.image.None? ==> r == Some(Message(EitherPromptOrImage))
    ensures r.None? <==> Veo3Valid(p)
    ensures (p.prompt != "" || p.image.Some?) && r.Some? ==> DeclarativeFailure(r.value)
  {
    if p.prompt == "" && p.image.None? then Some(Message(EitherPromptOrImage))
    else
      Veo3SchemaMeaning(p, "GenerateVideoVeo3Params");
      StructResult(ValidateStruct("GenerateVideoVeo3Params", Veo3Schema, Veo3Values(p)))
  }

  /** GenerateVideoVeo3NoAudioParams.Validate (tools/validation.go:70-79). */
  function ValidateVeo3NoAudio(p: Veo3NoAudioParams): Option<GoError>
  {
    ValidateVeo3(p)
  }

  /** GenerateVideoVeo3FastParams.Validate (tools/validation.go:56-61);
      the alias GenerateVideoVeo3FastNoAudioParams has the same body
      (tools/validation.go:63-68). */
  function ValidateVeo3Fast(p: Veo3FastParams): (r: Option<GoError>)
    ensures r.None? <==> Veo3FastValid(p)
    ensures r.Some? ==> DeclarativeFailure(r.value)
  {
    Veo3FastSchemaMeaning(p, "GenerateVideoVeo3FastParams");
    StructResult(ValidateStruct("GenerateVideoVeo3FastParams", Veo3FastSchema, Veo3FastValues(p)))
  }

  /** GenerateVideoVeo3FastNoAudioParams.Validate (tools/validation.go:63-68). */
  function ValidateVeo3FastNoAudio(p: Veo3FastNoAudioParams): Option<GoError>
  {
    ValidateVeo3Fast(p)
  }

  /** GenerateMusicLyriaParams.Validate (tools/validation.go:81-86). */
  function ValidateLyria(p: LyriaParams): (r: Option<GoError>)
    ensures r.None? <==> LyriaValid(p)
    ensures r.Some? ==> DeclarativeFailure(r.value)
  {
    LyriaSchemaMeaning(p, "GenerateMusicLyriaParams");
    StructResult(ValidateStruct("GenerateMusicLyriaParams", LyriaSchema, LyriaValues(p)))
  }

  // === Video processing ===

  /** CombineVideosParams.Validate (tools/validation.go:90-95). */
  function ValidateCombineVideos(p: CombineVideosParams): (r: Option<GoError>)
    ensures r.None? <==> CombineVideosValid(p)
    ensures r.Some? ==> DeclarativeFailure(r.value)
  {
    CombineVideosSchemaMeaning(p, "CombineVideosParams");
    StructResult(ValidateStruct("CombineVideosParams", CombineVideosSchema, CombineVideosValues(p)))
  }

  /** TrimVideoParams.Validate (tools/validation.go:97-106). */
  function ValidateTrimVideo(p: TrimVideoParams): (r: Option<GoError>)
    ensures p.endTime == "" && p.duration.None? ==> r == Some(Message(EitherEndTimeOrDuration))
    ensures r.None? <==> TrimVideoValid(p)
    ensures (p.endTime != "" || p.duration.Some?) && r.Some? ==> DeclarativeFailure(r.value)
  {
    if p.endTime == "" && p.duration.None? then Some(Message(EitherEndTimeOrDuration))
    else
      TrimVideoSchemaMeaning(p, "TrimVideoParams");
      StructResult(ValidateStruct("TrimVideoParams", TrimVideoSchema, TrimVideoValues(p)))
  }

  /** ImageAudioMergeParams.Validate (tools/validation.go:108-113). */
  function ValidateImageAudioMerge(p: ImageAudioMergeParams): (r: Option<GoError>)
    ensures r.None? <==> ImageAudioMergeValid(p)
    ensures r.Some? ==> DeclarativeFailure(r.value)
  {
    ImageAudioMergeSchemaMeaning(p, "ImageAudioMergeParams");
    StructResult(ValidateStruct("ImageAudioMergeParams", ImageAudioMergeSchema, ImageAudioMergeValues(p)))
  }

  /** ExtractFrameParams.Validate (tools/validation.go:115-124). */
  function ValidateExtractFrame(p: ExtractFrameParams): (r: Option<GoError>)
    ensures p.position == "" && p.timestamp == "" ==> r == Some(Message(EitherPositionOrTimestamp))
    ensures r.None? <==> (p.position != "" || p.timestamp != "") && ExtractFrameValid(p)
    ensures (p.position != "" || p.timestamp != "") && r.Some? ==> DeclarativeFailure(r.value)
  {
    if p.position == "" && p.timestamp == "" then Some(Message(EitherPositionOrTimestamp))
    else
      ExtractFrameSchemaMeaning(p, "ExtractFrameParams");
      StructResult(ValidateStruct("ExtractFrameParams", ExtractFrameSchema, ExtractFrameValues(p)))
  }

  /** Unlike Veo3 and TrimVideo, the ExtractFrame check is stricter than its
      tags: the tags let a list of positions stand in for position and
      timestamp, the hand-written check does not. */
  lemma ExtractFrameCustomCheckStricter(p: ExtractFrameParams)
    requires p.position == "" && p.timestamp == ""
    requires p.videoUrl != "" && p.positions == Some(["first"])
    requires p.format == "" && p.quality == 0 && p.width == 0 && p.height == 0
    ensures ExtractFrameValid(p)
    ensures ValidateExtractFrame(p) == Some(Message(EitherPositionOrTimestamp))
  {
  }

  /** MergeImagesParams.Validate (tools/validation.go:126-131). */
  function ValidateMergeImages(p: MergeImagesParams): (r: Option<GoError>)
    ensures r.None? <==> MergeImagesValid(p)
    ensures r.Some? ==> DeclarativeFailure(r.value)
  {
    MergeImagesSchemaMeaning(p, "MergeImagesParams");
    StructResult(ValidateStruct("MergeImagesParams", MergeImagesSchema, MergeImagesValues(p)))
  }

  // === Content analysis ===

  /** ContentAnalyzerParams.Validate (tools/validation.go:135-140). */
  function ValidateContentAnalyzer(p: ContentAnalyzerParams): (r: Option<GoError>)
    ensures r.None? <==> ContentAnalyzerValid(p)
    ensures r.Some? ==> DeclarativeFailure(r.value)
  {
    ContentAnalyzerSchemaMeaning(p, "ContentAnalyzerParams");
    StructResult(ValidateStruct("ContentAnalyzerParams", ContentAnalyzerSchema, ContentAnalyzerValues(p)))
  }

  /** GoogleSearchParams.Validate (tools/validation.go:142-147). */
  function ValidateGoogleSearch(p: GoogleSearchParams): (r: Option<GoError>)
    ensures r.None? <==> GoogleSearchValid(p)
    ensures r.Some? ==> DeclarativeFailure(r.value)
  {
    GoogleSearchSchemaMeaning(p, "GoogleSearchParams");
    StructResult(ValidateStruct("GoogleSearchParams", GoogleSearchSchema, GoogleSearchValues(p)))
  }

  /** An Imagen request with an empty prompt fails, and the first field
      error the validator reports is the prompt's `required` tag. */
  lemma ImagenEmptyPromptFirstError(p: ImagenParams)
    requires p.prompt == ""
    ensures ValidateImagen(p).Some? && DeclarativeFailure(ValidateImagen(p).value)
    ensures ValidateImagen(p).value.inner.errs[0] ==
      FieldError("GenerateImageImagenParams.Prompt", "Prompt", "required", "", KindString)
  {
    var specs := ImagenSchema;
    var vals := ImagenValues(p);
    var ns := "GenerateImageImagenParams";
    assert specs[0] == Plain("Prompt", [Required, Min("1", 1.0), Max("2000", 2000.0)]);
    assert vals[0] == Str("");
    assert RunTags(specs[0].tags, vals[0], false, specs, vals) == Some(Required);
    assert CheckField(specs[0], vals[0], ns, specs, vals) ==
      [FieldError(ns + "." + "Prompt", "Prompt", "required", "", KindString)];
    assert ValidateStruct(ns, specs, vals) ==
      CheckField(specs[0], vals[0], ns, specs, vals) + ValidateFrom(specs, vals, ns, 1);
  }
}
