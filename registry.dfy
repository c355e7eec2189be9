// The closed set of tool names and the dispatcher that decodes a request's
// parameters into the tool's struct and validates it (tools/registry.go).
module ToolRegistry {
  import opened Wrappers
  import opened Constraints
  import opened MediaGeneration
  import opened VideoProcessing
  import opened ContentAnalysis
  import opened ToolValidation

  /** The ToolName constants (tools/registry.go:11-34). */
  datatype ToolName =
    | GenerateImageImagen | GenerateImageImagenFast | GenerateImageImagenUltra | GenerateImageFlash
    | NanoBanana | GenerateVideoVeo3 | GenerateVideoVeo3Fast | GenerateVideoVeo3FastNoAudio
    | GenerateVideoVeo3NoAudio | GenerateMusicLyria
    | CombineVideos | TrimVideo | ImageAudioMerge | ExtractFrame | MergeImages
    | ContentAnalyzer | GoogleSearch

  /** The string value of each constant. */
  function Name(t: ToolName): string
  {
    match t
    case GenerateImageImagen => "generate-image-imagen"
    case GenerateImageImagenFast => "generate-image-imagen-fast"
    case GenerateImageImagenUltra => "generate-image-imagen-ultra"
    case GenerateImageFlash => "generate-image-flash"
    case NanoBanana => "nano-banana"
    case GenerateVideoVeo3 => "generate-video-veo3"
    case GenerateVideoVeo3Fast => "generate-video-veo3-fast"
    case GenerateVideoVeo3FastNoAudio => "generate-video-veo3-fast-no-audio"
    case GenerateVideoVeo3NoAudio => "generate-video-veo3-no-audio"
    case GenerateMusicLyria => "generate-music-lyria"
    case CombineVideos => "combine-videos"
    case TrimVideo => "trim-video"
    case ImageAudioMerge => "image-audio-merge"
    case ExtractFrame => "extract-frame"
    case MergeImages => "merge-images"
    case ContentAnalyzer => "content-analyzer"
    case GoogleSearch => "google-search"
  }

  /** `switch ToolName(toolName)` in ParseAndValidateParams
      (tools/registry.go:45-167): the constant a string names, if any. */
  function ParseToolName(s: string): (r: Option<ToolName>)
    ensures r.Some? ==> Name(r.value) == s
  {
    if s == "generate-image-imagen" then Some(GenerateImageImagen)
    else if s == "generate-image-imagen-fast" then Some(GenerateImageImagenFast)
    else if s == "generate-image-imagen-ultra" then Some(GenerateImageImagenUltra)
    else if s == "generate-image-flash" then Some(GenerateImageFlash)
    else if s == "nano-banana" then Some(NanoBanana)
    else if s == "generate-video-veo3" then Some(GenerateVideoVeo3)
    else if s == "generate-video-veo3-fast" then Some(GenerateVideoVeo3Fast)
    else if s == "generate-video-veo3-fast-no-audio" then Some(GenerateVideoVeo3FastNoAudio)
    else if s == "generate-video-veo3-no-audio" then Some(GenerateVideoVeo3NoAudio)
    else if s == "generate-music-lyria" then Some(GenerateMusicLyria)
    else if s == "combine-videos" then Some(CombineVideos)
    else if s == "trim-video" then Some(TrimVideo)
    else if s == "image-audio-merge" then Some(ImageAudioMerge)
    else if s == "extract-frame" then Some(ExtractFrame)
    else if s == "merge-images" then Some(MergeImages)
    else if s == "content-analyzer" then Some(ContentAnalyzer)
    else if s == "google-search" then Some(GoogleSearch)
    else None
  }

  /** The strings IsValidToolName's case list accepts (tools/registry.go:173-178). */
  const ValidToolNames: set<string> := {
    "generate-image-imagen", "generate-image-imagen-fast", "generate-image-imagen-ultra",
    "generate-image-flash", "nano-banana",
    "generate-video-veo3", "generate-video-veo3-fast", "generate-video-veo3-fast-no-audio",
    "generate-video-veo3-no-audio", "generate-music-lyria",
    "combine-videos", "trim-video", "image-audio-merge", "extract-frame", "merge-images",
    "content-analyzer", "google-search"}

  /** IsValidToolName (tools/registry.go:171-183). */
  predicate IsValidToolName(name: string)
  {
    name in ValidToolNames
  }

  /** Each constant's string leads the dispatcher back to that constant. */
  lemma NameRoundTrip(t: ToolName)
    ensures ParseToolName(Name(t)) == Some(t)
  {
  }

  /** The seventeen name strings are pairwise distinct. */
  lemma NameInjective(a: ToolName, b: ToolName)
    ensures Name(a) == Name(b) ==> a == b
  {
    NameRoundTrip(a);
    NameRoundTrip(b);
  }

  /** IsValidToolName and the dispatcher agree: a name is valid exactly when
      it is the value of one of the constants. */
  lemma ValidIffDispatched(name: string)
    ensures IsValidToolName(name) <==> ParseToolName(name).Some?
    ensures IsValidToolName(name) <==> exists t :: Name(t) == name
  {
    if IsValidToolName(name) {
      assert Name(ParseToolName(name).value) == name;
    }
    if exists t :: Name(t) == name {
      var t :| Name(t) == name;
      NameRoundTrip(t);
    }
  }

  /** NanoBananaParams is not part of this model: its struct is referenced
      but not declared. It is an opaque list of decoded field values
      carrying no constraints. */
  datatype NanoBananaParams = NanoBananaParams(fields: seq<Value>)

  /** NanoBananaParams.Validate, as validate.Struct over a struct without
      tags. */
  function ValidateNanoBanana(p: NanoBananaParams): (r: Option<GoError>)
    ensures r.None?
  {
    StructResult(ValidateStruct("NanoBananaParams", [], p.fields))
  }

  /** The outcome of json.Unmarshal into one parameter struct: the decoded
      struct or the decoder's error text. */
  datatype Decoded<P> = Decoded(params: P) | DecodeFailed(text: string)

  /** The request's parameters: whether json.Marshal of the map failed
      (tools/registry.go:39-42) and, for each parameter struct, what
      json.Unmarshal makes of the marshalled bytes. Structs that are aliases
      or share their JSON fields decode alike, so they share an entry. */
  datatype Payload = Payload(
    marshalFailure: Option<string>,
    imagen: Decoded<ImagenParams>,
    flash: Decoded<FlashParams>,
    nanoBanana: Decoded<NanoBananaParams>,
    veo3: Decoded<Veo3Params>,
    veo3Fast: Decoded<Veo3FastParams>,
    lyria: Decoded<LyriaParams>,
    combineVideos: Decoded<CombineVideosParams>,
    trimVideo: Decoded<TrimVideoParams>,
    imageAudioMerge: Decoded<ImageAudioMergeParams>,
    extractFrame: Decoded<ExtractFrameParams>,
    mergeImages: Decoded<MergeImagesParams>,
    contentAnalyzer: Decoded<ContentAnalyzerParams>,
    googleSearch: Decoded<GoogleSearchParams>)

  /** `fmt.Errorf("invalid params for %s: %w", toolName, err)`. */
  function DecodeError(toolName: string, text: string): GoError
  {
    Wrapped("invalid params for " + toolName + ": ", Message(text))
  }

  /** The decoder's error for tool t, if decoding its struct fails. */
  function DecodeFailure(t: ToolName, payload: Payload): Option<string>
  {
    match t
    case GenerateImageImagen | GenerateImageImagenFast | GenerateImageImagenUltra => FailureText(payload.imagen)
    case GenerateImageFlash => FailureText(payload.flash)
    case NanoBanana => FailureText(payload.nanoBanana)
    case GenerateVideoVeo3 | GenerateVideoVeo3NoAudio => FailureText(payload.veo3)
    case GenerateVideoVeo3Fast | GenerateVideoVeo3FastNoAudio => FailureText(payload.veo3Fast)
    case GenerateMusicLyria => FailureText(payload.lyria)
    case CombineVideos => FailureText(payload.combineVideos)
    case TrimVideo => FailureText(payload.trimVideo)
    case ImageAudioMerge => FailureText(payload.imageAudioMerge)
    case ExtractFrame => FailureText(payload.extractFrame)
    case MergeImages => FailureText(payload.mergeImages)
    case ContentAnalyzer => FailureText(payload.contentAnalyzer)
    case GoogleSearch => FailureText(payload.googleSearch)
  }

  function FailureText<P>(d: Decoded<P>): Option<string>
  {
    if d.DecodeFailed? then Some(d.text) else None
  }

  /** One case of the switch: decode into the tool's struct, then call its
      Validate (tools/registry.go:46-163). */
  function DecodeAndValidate(t: ToolName, toolName: string, payload: Payload): Option<GoError>
  {
    match t
    case GenerateImageImagen =>
      if payload.imagen.DecodeFailed? then Some(DecodeError(toolName, payload.imagen.text))
      else ValidateImagen(payload.imagen.params)
    case GenerateImageImagenFast =>
      if payload.imagen.DecodeFailed? then Some(DecodeError(toolName, payload.imagen.text))
      else ValidateImagenFast(payload.imagen.params)
    case GenerateImageImagenUltra =>
      if payload.imagen.DecodeFailed? then Some(DecodeError(toolName, payload.imagen.text))
      else ValidateImagenUltra(payload.imagen.params)
    case GenerateImageFlash =>
      if payload.flash.DecodeFailed? then Some(DecodeError(toolName, payload.flash.text))
      else ValidateFlash(payload.flash.params)
    case NanoBanana =>
      if payload.nanoBanana.DecodeFailed? then Some(DecodeError(toolName, payload.nanoBanana.text))
      else ValidateNanoBanana(payload.nanoBanana.params)
    case GenerateVideoVeo3 =>
      if payload.veo3.DecodeFailed? then Some(DecodeError(toolName, payload.veo3.text))
      else ValidateVeo3(payload.veo3.params)
    case GenerateVideoVeo3Fast =>
      if payload.veo3Fast.DecodeFailed? then Some(DecodeError(toolName, payload.veo3Fast.text))
      else ValidateVeo3Fast(payload.veo3Fast.params)
    case GenerateVideoVeo3FastNoAudio =>
      if payload.veo3Fast.DecodeFailed? then Some(DecodeError(toolName, payload.veo3Fast.text))
      else ValidateVeo3FastNoAudio(payload.veo3Fast.params)
    case GenerateVideoVeo3NoAudio =>
      if payload.veo3.DecodeFailed? then Some(DecodeError(toolName, payload.veo3.text))
      else ValidateVeo3NoAudio(payload.veo3.params)
    case GenerateMusicLyria =>
      if payload.lyria.DecodeFailed? then Some(DecodeError(toolName, payload.lyria.text))
      else ValidateLyria(payload.lyria.params)
    case CombineVideos =>
      if payload.combineVideos.DecodeFailed? then Some(DecodeError(toolName, payload.combineVideos.text))
      else ValidateCombineVideos(payload.combineVideos.params)
    case TrimVideo =>
      if payload.trimVideo.DecodeFailed? then Some(DecodeError(toolName, payload.trimVideo.text))
      else ValidateTrimVideo(payload.trimVideo.params)
    case ImageAudioMerge =>
      if payload.imageAudioMerge.DecodeFailed? then Some(DecodeError(toolName, payload.imageAudioMerge.text))
      else ValidateImageAudioMerge(payload.imageAudioMerge.params)
    case ExtractFrame =>
      if payload.extractFrame.DecodeFailed? then Some(DecodeError(toolName, payload.extractFrame.text))
      else ValidateExtractFrame(payload.extractFrame.params)
    case MergeImages =>
      if payload.mergeImages.DecodeFailed? then Some(DecodeError(toolName, payload.mergeImages.text))
      else ValidateMergeImages(payload.mergeImages.params)
    case ContentAnalyzer =>
      if payload.contentAnalyzer.DecodeFailed? then Some(DecodeError(toolName, payload.contentAnalyzer.text))
      else ValidateContentAnalyzer(payload.contentAnalyzer.params)
    case GoogleSearch =>
      if payload.googleSearch.DecodeFailed? then Some(DecodeError(toolName, payload.googleSearch.text))
      else ValidateGoogleSearch(payload.googleSearch.params)
  }

  /** `fmt.Errorf("unknown tool: %s", toolName)`. */
  function UnknownTool(toolName: string): GoError
  {
    Message("unknown tool: " + toolName)
  }

  /** ParseAndValidateParams (tools/registry.go:37-168). */
  function ParseAndValidateParams(toolName: string, payload: Payload): Option<GoError>
  {
    if payload.marshalFailure.Some? then
      Some(Wrapped("failed to marshal params: ", Message(payload.marshalFailure.value)))
    else
      match ParseToolName(toolName)
      case None => Some(UnknownTool(toolName))
      case Some(t) => DecodeAndValidate(t, toolName, payload)
  }

  /** What a tool accepts, stated through the validity predicates of the
      parameter schemas: its struct decodes and satisfies its constraints
      and its hand-written either/or check. */
  predicate Accepts(t: ToolName, payload: Payload)
  {
    match t
    case GenerateImageImagen => payload.imagen.Decoded? && ImagenValid(payload.imagen.params)
    case GenerateImageImagenFast => payload.imagen.Decoded? && ImagenFastValid(payload.imagen.params)
    case GenerateImageImagenUltra => payload.imagen.Decoded? && ImagenUltraValid(payload.imagen.params)
    case GenerateImageFlash => payload.flash.Decoded? && FlashValid(payload.flash.params)
    case NanoBanana => payload.nanoBanana.Decoded?
    case GenerateVideoVeo3 | GenerateVideoVeo3NoAudio => payload.veo3.Decoded? && Veo3Valid(payload.veo3.params)
    case GenerateVideoVeo3Fast | GenerateVideoVeo3FastNoAudio =>
      payload.veo3Fast.Decoded? && Veo3FastValid(payload.veo3Fast.params)
    case GenerateMusicLyria => payload.lyria.Decoded? && LyriaValid(payload.lyria.params)
    case CombineVideos => payload.combineVideos.Decoded? && CombineVideosValid(payload.combineVideos.params)
    case TrimVideo => payload.trimVideo.Decoded? && TrimVideoValid(payload.trimVideo.params)
    case ImageAudioMerge =>
      payload.imageAudioMerge.Decoded? && ImageAudioMergeValid(payload.imageAudioMerge.params)
    case ExtractFrame =>
      && payload.extractFrame.Decoded?
      && (payload.extractFrame.params.position != "" || payload.extractFrame.params.timestamp != "")
      && ExtractFrameValid(payload.extractFrame.params)
    case MergeImages => payload.mergeImages.Decoded? && MergeImagesValid(payload.mergeImages.params)
    case ContentAnalyzer =>
      payload.contentAnalyzer.Decoded? && ContentAnalyzerValid(payload.contentAnalyzer.params)
    case GoogleSearch => payload.googleSearch.Decoded? && GoogleSearchValid(payload.googleSearch.params)
  }

  /** The switch cases of the three Imagen tools: see CasesBehave. */
  lemma ImagenCasesBehave(t: ToolName, toolName: string, payload: Payload)
    requires t == GenerateImageImagen || t == GenerateImageImagenFast || t == GenerateImageImagenUltra
    ensures DecodeAndValidate(t, toolName, payload).None? <==> Accepts(t, payload)
    ensures DecodeFailure(t, payload).Some? ==>
      DecodeAndValidate(t, toolName, payload) == Some(DecodeError(toolName, DecodeFailure(t, payload).value))
    ensures DecodeAndValidate(t, toolName, payload) != Some(UnknownTool(toolName))
  {
    assert UnknownTool(toolName).text[0] == 'u';
    match t
    case GenerateImageImagen =>
    case GenerateImageImagenFast =>
    case GenerateImageImagenUltra =>
    case _ =>
  }

  /** The switch cases of Flash, nano-banana and Lyria: see CasesBehave. */
  lemma FlashCasesBehave(t: ToolName, toolName: string, payload: Payload)
    requires t == GenerateImageFlash || t == NanoBanana || t == GenerateMusicLyria
    ensures DecodeAndValidate(t, toolName, payload).None? <==> Accepts(t, payload)
    ensures DecodeFailure(t, payload).Some? ==>
      DecodeAndValidate(t, toolName, payload) == Some(DecodeError(toolName, DecodeFailure(t, payload).value))
    ensures DecodeAndValidate(t, toolName, payload) != Some(UnknownTool(toolName))
  {
    assert UnknownTool(toolName).text[0] == 'u';
    match t
    case GenerateImageFlash =>
    case NanoBanana =>
    case GenerateMusicLyria =>
    case _ =>
  }

  /** The switch cases of Veo3 and its no-audio alias: see CasesBehave. */
  lemma Veo3CasesBehave(t: ToolName, toolName: string, payload: Payload)
    requires t == GenerateVideoVeo3 || t == GenerateVideoVeo3NoAudio
    ensures DecodeAndValidate(t, toolName, payload).None? <==> Accepts(t, payload)
    ensures DecodeFailure(t, payload).Some? ==>
      DecodeAndValidate(t, toolName, payload) == Some(DecodeError(toolName, DecodeFailure(t, payload).value))
    ensures DecodeAndValidate(t, toolName, payload) != Some(UnknownTool(toolName))
  {
    if t == GenerateVideoVeo3 {
      Veo3CaseBehaves(toolName, payload);
    } else {
      Veo3NoAudioCaseBehaves(toolName, payload);
    }
  }

  /** The generate-video-veo3 case. */
  lemma Veo3CaseBehaves(toolName: string, payload: Payload)
    ensures DecodeAndValidate(GenerateVideoVeo3, toolName, payload).None? <==> Accepts(GenerateVideoVeo3, payload)
    ensures DecodeFailure(GenerateVideoVeo3, payload).Some? ==>
      DecodeAndValidate(GenerateVideoVeo3, toolName, payload) == Some(DecodeError(toolName, DecodeFailure(GenerateVideoVeo3, payload).value))
    ensures DecodeAndValidate(GenerateVideoVeo3, toolName, payload) != Some(UnknownTool(toolName))
  {
    assert UnknownTool(toolName).text[0] == 'u';
  }

  /** The generate-video-veo3-no-audio case. */
  lemma Veo3NoAudioCaseBehaves(toolName: string, payload: Payload)
    ensures DecodeAndValidate(GenerateVideoVeo3NoAudio, toolName, payload).None? <==> Accepts(GenerateVideoVeo3NoAudio, payload)
    ensures DecodeFailure(GenerateVideoVeo3NoAudio, payload).Some? ==>
      DecodeAndValidate(GenerateVideoVeo3NoAudio, toolName, payload) == Some(DecodeError(toolName, DecodeFailure(GenerateVideoVeo3NoAudio, payload).value))
    ensures DecodeAndValidate(GenerateVideoVeo3NoAudio, toolName, payload) != Some(UnknownTool(toolName))
  {
    assert UnknownTool(toolName).text[0] == 'u';
  }

  /** The switch cases of Veo3 Fast and its no-audio alias: see CasesBehave. */
  lemma Veo3FastCasesBehave(t: ToolName, toolName: string, payload: Payload)
    requires t == GenerateVideoVeo3Fast || t == GenerateVideoVeo3FastNoAudio
    ensures DecodeAndValidate(t, toolName, payload).None? <==> Accepts(t, payload)
    ensures DecodeFailure(t, payload).Some? ==>
      DecodeAndValidate(t, toolName, payload) == Some(DecodeError(toolName, DecodeFailure(t, payload).value))
    ensures DecodeAndValidate(t, toolName, payload) != Some(UnknownTool(toolName))
  {
    assert UnknownTool(toolName).text[0] == 'u';
    match t
    case GenerateVideoVeo3Fast =>
    case GenerateVideoVeo3FastNoAudio =>
    case _ =>
  }

  /** The switch cases of CombineVideos, TrimVideo and ImageAudioMerge: see CasesBehave. */
  lemma EditingCasesBehave(t: ToolName, toolName: string, payload: Payload)
    requires t == CombineVideos || t == TrimVideo || t == ImageAudioMerge
    ensures DecodeAndValidate(t, toolName, payload).None? <==> Accepts(t, payload)
    ensures DecodeFailure(t, payload).Some? ==>
      DecodeAndValidate(t, toolName, payload) == Some(DecodeError(toolName, DecodeFailure(t, payload).value))
    ensures DecodeAndValidate(t, toolName, payload) != Some(UnknownTool(toolName))
  {
    assert UnknownTool(toolName).text[0] == 'u';
    match t
    case CombineVideos =>
    case TrimVideo =>
    case ImageAudioMerge =>
    case _ =>
  }

  /** The switch cases of ExtractFrame and MergeImages: see CasesBehave. */
  lemma FramesCasesBehave(t: ToolName, toolName: string, payload: Payload)
    requires t == ExtractFrame || t == MergeImages
    ensures DecodeAndValidate(t, toolName, payload).None? <==> Accepts(t, payload)
    ensures DecodeFailure(t, payload).Some? ==>
      DecodeAndValidate(t, toolName, payload) == Some(DecodeError(toolName, DecodeFailure(t, payload).value))
    ensures DecodeAndValidate(t, toolName, payload) != Some(UnknownTool(toolName))
  {
    assert UnknownTool(toolName).text[0] == 'u';
    match t
    case ExtractFrame =>
    case MergeImages =>
    case _ =>
  }

  /** The switch cases of the content analysis tools: see CasesBehave. */
  lemma AnalysisCasesBehave(t: ToolName, toolName: string, payload: Payload)
    requires t == ContentAnalyzer || t == GoogleSearch
    ensures DecodeAndValidate(t, toolName, payload).None? <==> Accepts(t, payload)
    ensures DecodeFailure(t, payload).Some? ==>
      DecodeAndValidate(t, toolName, payload) == Some(DecodeError(toolName, DecodeFailure(t, payload).value))
    ensures DecodeAndValidate(t, toolName, payload) != Some(UnknownTool(toolName))
  {
    assert UnknownTool(toolName).text[0] == 'u';
    match t
    case ContentAnalyzer =>
    case GoogleSearch =>
    case _ =>
  }

  /** Every case of the switch passes exactly when its tool accepts the
      payload, returns a decoding failure wrapped, and never returns the
      unknown-tool error. */
  lemma CasesBehave(t: ToolName, toolName: string, payload: Payload)
    ensures DecodeAndValidate(t, toolName, payload).None? <==> Accepts(t, payload)
    ensures DecodeFailure(t, payload).Some? ==>
      DecodeAndValidate(t, toolName, payload) == Some(DecodeError(toolName, DecodeFailure(t, payload).value))
    ensures DecodeAndValidate(t, toolName, payload) != Some(UnknownTool(toolName))
  {
    if t.GenerateImageImagen? || t.GenerateImageImagenFast? || t.GenerateImageImagenUltra? {
      ImagenCasesBehave(t, toolName, payload);
    } else if t.GenerateImageFlash? || t.NanoBanana? || t.GenerateMusicLyria? {
      FlashCasesBehave(t, toolName, payload);
    } else if t.GenerateVideoVeo3? || t.GenerateVideoVeo3NoAudio? {
      Veo3CasesBehave(t, toolName, payload);
    } else if t.GenerateVideoVeo3Fast? || t.GenerateVideoVeo3FastNoAudio? {
      Veo3FastCasesBehave(t, toolName, payload);
    } else if t.CombineVideos? || t.TrimVideo? || t.ImageAudioMerge? {
      EditingCasesBehave(t, toolName, payload);
    } else if t.ExtractFrame? || t.MergeImages? {
      FramesCasesBehave(t, toolName, payload);
    } else {
      AnalysisCasesBehave(t, toolName, payload);
    }
  }

  /** A request passes exactly when its parameters marshal, it names a
      known tool, and that tool accepts the decoded parameters. */
  lemma ParseAndValidateAccepts(toolName: string, payload: Payload)
    ensures ParseAndValidateParams(toolName, payload).None? <==>
      && payload.marshalFailure.None?
      && ParseToolName(toolName).Some?
      && Accepts(ParseToolName(toolName).value, payload)
  {
    if ParseToolName(toolName).Some? {
      CasesBehave(ParseToolName(toolName).value, toolName, payload);
    }
  }

  /** With parameters that marshal, the "unknown tool" error comes back
      exactly for the names IsValidToolName rejects; an unmarshallable
      request fails on marshalling whatever it names. */
  lemma UnknownToolIff(toolName: string, payload: Payload)
    ensures payload.marshalFailure.None? ==>
      (ParseAndValidateParams(toolName, payload) == Some(UnknownTool(toolName)) <==> !IsValidToolName(toolName))
    ensures payload.marshalFailure.Some? ==>
      ParseAndValidateParams(toolName, payload) == Some(Wrapped("failed to marshal params: ", Message(payload.marshalFailure.value)))
  {
    ValidIffDispatched(toolName);
    if ParseToolName(toolName).Some? {
      CasesBehave(ParseToolName(toolName).value, toolName, payload);
    }
  }

  /** For a known tool whose struct does not decode, the decoder's error is
      returned wrapped and Validate is never reached. */
  lemma DecodeFailureSkipsValidate(toolName: string, payload: Payload)
    requires payload.marshalFailure.None? && ParseToolName(toolName).Some?
    requires DecodeFailure(ParseToolName(toolName).value, payload).Some?
    ensures ParseAndValidateParams(toolName, payload) ==
      Some(DecodeError(toolName, DecodeFailure(ParseToolName(toolName).value, payload).value))
  {
    CasesBehave(ParseToolName(toolName).value, toolName, payload);
  }
}
