// Results of the media-generation tools: their constructors and the shape
// check on a MediaGenerationResult (results/media_generation.go).
module MediaResults {
  import opened Wrappers
  import opened Text
  import opened ToolValidation
  import opened Checks
  import opened ResultTypes
  import opened ResultsCommon

  const NoAssets := "media generation must have at least one asset"
  const NoPrompt := "prompt is required for media generation"
  const NoModel := "model is required for media generation"

  predicate ImageBad(x: OutputImage) { x.storageURL == "" || x.publicURL == "" }
  predicate VideoBad(x: OutputVideo) { x.storageURL == "" || x.publicURL == "" }
  predicate AudioBad(x: OutputAudio) { x.storageURL == "" || x.publicURL == "" }

  /** "<kind> <i> missing storage URL", or the public URL when the storage
      URL is present. */
  function UrlError(kind: string, i: nat, storageMissing: bool): GoError
  {
    Message(kind + " " + NatToString(i) + (if storageMissing then " missing storage URL" else " missing public URL"))
  }

  function AssetCount(m: MediaGenerationResult): nat
  {
    |m.images| + |m.videos| + |m.audio|
  }

  /** The check of the three asset lists, images first, then videos, then
      audio, each in order (results/media_generation.go:177-205). */
  function AssetURLError(m: MediaGenerationResult): (e: Option<GoError>)
    ensures e.None? <==>
      && (forall i :: 0 <= i < |m.images| ==> !ImageBad(m.images[i]))
      && (forall i :: 0 <= i < |m.videos| ==> !VideoBad(m.videos[i]))
      && (forall i :: 0 <= i < |m.audio| ==> !AudioBad(m.audio[i]))
  {
    var ki := FirstFailing(m.images, ImageBad, 0);
    if ki < |m.images| then Some(UrlError("image", ki, m.images[ki].storageURL == ""))
    else
      var kv := FirstFailing(m.videos, VideoBad, 0);
      if kv < |m.videos| then Some(UrlError("video", kv, m.videos[kv].storageURL == ""))
      else
        var ka := FirstFailing(m.audio, AudioBad, 0);
        if ka < |m.audio| then Some(UrlError("audio", ka, m.audio[ka].storageURL == ""))
        else None
  }

  /** MediaGenerationResult.Validate (results/media_generation.go:163-208):
      at least one asset, then a prompt, then a model, then every asset's
      two URLs. */
  function ValidateMediaGeneration(m: MediaGenerationResult): (e: Option<GoError>)
    ensures e.None? <==>
      && AssetCount(m) > 0
      && m.prompt != ""
      && m.model != ""
      && (forall i :: 0 <= i < |m.images| ==> !ImageBad(m.images[i]))
      && (forall i :: 0 <= i < |m.videos| ==> !VideoBad(m.videos[i]))
      && (forall i :: 0 <= i < |m.audio| ==> !AudioBad(m.audio[i]))
    ensures AssetCount(m) == 0 ==> e == Some(Message(NoAssets))
    ensures AssetCount(m) > 0 && m.prompt == "" ==> e == Some(Message(NoPrompt))
    ensures AssetCount(m) > 0 && m.prompt != "" && m.model == "" ==> e == Some(Message(NoModel))
  {
    if |m.images| == 0 && |m.videos| == 0 && |m.audio| == 0 then Some(Message(NoAssets))
    else if m.prompt == "" then Some(Message(NoPrompt))
    else if m.model == "" then Some(Message(NoModel))
    else AssetURLError(m)
  }

  /** A failing image is reported by its index and the URL it lacks, before
      any video or audio is looked at. */
  lemma FirstBadImageReported(m: MediaGenerationResult, k: nat)
    requires m.prompt != "" && m.model != ""
    requires k < |m.images| && ImageBad(m.images[k])
    requires forall j :: 0 <= j < k ==> !ImageBad(m.images[j])
    ensures ValidateMediaGeneration(m) == Some(UrlError("image", k, m.images[k].storageURL == ""))
  {
    assert FirstFailing(m.images, ImageBad, 0) == k;
  }

  /** A failing video is reported only when every image passes. */
  lemma FirstBadVideoReported(m: MediaGenerationResult, k: nat)
    requires m.prompt != "" && m.model != ""
    requires forall j :: 0 <= j < |m.images| ==> !ImageBad(m.images[j])
    requires k < |m.videos| && VideoBad(m.videos[k])
    requires forall j :: 0 <= j < k ==> !VideoBad(m.videos[j])
    ensures ValidateMediaGeneration(m) == Some(UrlError("video", k, m.videos[k].storageURL == ""))
  {
    assert FirstFailing(m.images, ImageBad, 0) == |m.images|;
    assert FirstFailing(m.videos, VideoBad, 0) == k;
  }

  /** A failing audio item is reported only when every image and video
      passes. */
  lemma FirstBadAudioReported(m: MediaGenerationResult, k: nat)
    requires m.prompt != "" && m.model != ""
    requires forall j :: 0 <= j < |m.images| ==> !ImageBad(m.images[j])
    requires forall j :: 0 <= j < |m.videos| ==> !VideoBad(m.videos[j])
    requires k < |m.audio| && AudioBad(m.audio[k])
    requires forall j :: 0 <= j < k ==> !AudioBad(m.audio[j])
    ensures ValidateMediaGeneration(m) == Some(UrlError("audio", k, m.audio[k].storageURL == ""))
  {
    assert FirstFailing(m.images, ImageBad, 0) == |m.images|;
    assert FirstFailing(m.videos, VideoBad, 0) == |m.videos|;
    assert FirstFailing(m.audio, AudioBad, 0) == k;
  }

  /** A generation payload holding only the given assets and parameters. */
  function Generated(images: seq<OutputImage>, videos: seq<OutputVideo>, audio: seq<OutputAudio>,
                     prompt: string, model: string, audioGenerated: Option<bool>, total: int): MediaGenerationResult
  {
    MediaGenerationResult(images, videos, audio, prompt, model, None, None, None, None, None, None, None, None,
      audioGenerated, None, None, None, total, total)
  }

  function MediaEnvelope(tool: string, jobID: string, userID: string, conversationID: string, messageID: string,
                         payload: MediaGenerationResult, meta: ExecutionMetadata): ToolResult
  {
    ToolResult(true, tool, Some(payload), None, None, meta, jobID, userID, conversationID, messageID, None)
  }

  /** NewImageGenerationResult (results/media_generation.go:49-76). */
  function NewImageGenerationResult(tool: string, jobID: string, userID: string, conversationID: string,
                                    messageID: string, images: seq<OutputImage>, prompt: string, model: string,
                                    meta: ExecutionMetadata): ToolResult
  {
    MediaEnvelope(tool, jobID, userID, conversationID, messageID,
      Generated(images, [], [], prompt, model, None, |images|), meta)
  }

  /** NewVideoGenerationResult (results/media_generation.go:79-108). */
  function NewVideoGenerationResult(tool: string, jobID: string, userID: string, conversationID: string,
                                    messageID: string, video: OutputVideo, prompt: string, model: string,
                                    audioGenerated: bool, meta: ExecutionMetadata): ToolResult
  {
    MediaEnvelope(tool, jobID, userID, conversationID, messageID,
      Generated([], [video], [], prompt, model, Some(audioGenerated), 1), meta)
  }

  /** NewAudioGenerationResult (results/media_generation.go:111-138). */
  function NewAudioGenerationResult(tool: string, jobID: string, userID: string, conversationID: string,
                                    messageID: string, audio: seq<OutputAudio>, prompt: string, model: string,
                                    meta: ExecutionMetadata): ToolResult
  {
    MediaEnvelope(tool, jobID, userID, conversationID, messageID,
      Generated([], [], audio, prompt, model, None, |audio|), meta)
  }

  /** An image result counts its images as both requested and generated,
      passes the envelope check exactly when the tool is named, and its
      payload passes exactly when there is an image, a prompt, a model and
      every image has both URLs. */
  lemma ImageGenerationChecked(tool: string, jobID: string, userID: string, conversationID: string,
                               messageID: string, images: seq<OutputImage>, prompt: string, model: string,
                               meta: ExecutionMetadata)
    ensures var r := NewImageGenerationResult(tool, jobID, userID, conversationID, messageID, images, prompt, model, meta);
      && r.success && r.jobID == jobID
      && (ToolResultError(r).None? <==> tool != "")
      && var m := r.mediaGeneration.value;
      && m.images == images && m.videos == [] && m.audio == []
      && m.totalRequested == |images| && m.totalGenerated == |images|
      && (ValidateMediaGeneration(m).None? <==>
            |images| > 0 && prompt != "" && model != "" && forall i :: 0 <= i < |images| ==> !ImageBad(images[i]))
  {
  }

  /** A video result holds exactly one video, counts 1 requested and 1
      generated, and records whether audio was generated. */
  lemma VideoGenerationChecked(tool: string, jobID: string, userID: string, conversationID: string,
                               messageID: string, video: OutputVideo, prompt: string, model: string,
                               audioGenerated: bool, meta: ExecutionMetadata)
    ensures var r := NewVideoGenerationResult(tool, jobID, userID, conversationID, messageID, video, prompt, model,
        audioGenerated, meta);
      && r.success
      && (ToolResultError(r).None? <==> tool != "")
      && var m := r.mediaGeneration.value;
      && m.videos == [video] && AssetCount(m) == 1
      && m.totalRequested == 1 && m.totalGenerated == 1
      && m.audioGenerated == Some(audioGenerated)
      && (ValidateMediaGeneration(m).None? <==> prompt != "" && model != "" && !VideoBad(video))
  {
    var m := NewVideoGenerationResult(tool, jobID, userID, conversationID, messageID, video, prompt, model,
      audioGenerated, meta).mediaGeneration.value;
    assert m.videos[0] == video;
  }

  /** An audio result counts its tracks as both requested and generated. */
  lemma AudioGenerationChecked(tool: string, jobID: string, userID: string, conversationID: string,
                               messageID: string, audio: seq<OutputAudio>, prompt: string, model: string,
                               meta: ExecutionMetadata)
    ensures var r := NewAudioGenerationResult(tool, jobID, userID, conversationID, messageID, audio, prompt, model, meta);
      && r.success
      && (ToolResultError(r).None? <==> tool != "")
      && var m := r.mediaGeneration.value;
      && m.audio == audio && m.images == [] && m.videos == []
      && m.totalRequested == |audio| && m.totalGenerated == |audio|
      && (ValidateMediaGeneration(m).None? <==>
            |audio| > 0 && prompt != "" && model != "" && forall i :: 0 <= i < |audio| ==> !AudioBad(audio[i]))
  {
  }
}
