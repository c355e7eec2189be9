// The envelope check on a ToolResult and the media-asset check
// (results/common.go).
module ResultsCommon {
  import opened Wrappers
  import opened Text
  import opened ToolValidation
  import opened ResultTypes

  const ToolRequired := "tool name is required"
  const NoErrorInfo := "failed result must have error information"
  const NoErrorCode := "error must have a code"

  /** How many of the two payload pointers are set. */
  function PayloadCount(r: ToolResult): (n: nat)
    ensures n <= 2
    ensures n == 1 <==> r.mediaGeneration.Some? != r.videoProcessing.Some?
    ensures n == 0 <==> r.mediaGeneration.None? && r.videoProcessing.None?
  {
    (if r.mediaGeneration.Some? then 1 else 0) + (if r.videoProcessing.Some? then 1 else 0)
  }

  function CountError(count: nat): GoError
  {
    Message("successful result must have exactly one result type, got " + NatToString(count))
  }

  /** The error ToolResult.Validate (results/common.go:85-113) returns, or
      None for nil: the tool name first, then, for a success, exactly one
      payload, and for a failure an error carrying a code. */
  function ToolResultError(r: ToolResult): (e: Option<GoError>)
    ensures e.None? <==>
      && r.tool != ""
      && (r.success ==> r.mediaGeneration.Some? != r.videoProcessing.Some?)
      && (!r.success ==> r.error.Some? && r.error.value.code != "")
    ensures r.tool == "" ==> e == Some(Message(ToolRequired))
    ensures r.tool != "" && r.success && r.mediaGeneration.Some? && r.videoProcessing.Some? ==>
      e == Some(CountError(2))
    ensures r.tool != "" && r.success && r.mediaGeneration.None? && r.videoProcessing.None? ==>
      e == Some(CountError(0))
    ensures r.tool != "" && !r.success && r.error.None? ==> e == Some(Message(NoErrorInfo))
  {
    if r.tool == "" then Some(Message(ToolRequired))
    else if r.success then
      var count := PayloadCount(r);
      if count != 1 then Some(CountError(count)) else None
    else if r.error.None? then Some(Message(NoErrorInfo))
    else if r.error.value.code == "" then Some(Message(NoErrorCode))
    else None
  }

  /** ToolResult.Validate, counting the set payloads in a local variable as
      the source does. */
  method Validate(r: ToolResult) returns (err: Option<GoError>)
    ensures err == ToolResultError(r)
  {
    if r.tool == "" {
      return Some(Message(ToolRequired));
    }
    if r.success {
      var count := 0;
      if r.mediaGeneration.Some? {
        count := count + 1;
      }
      if r.videoProcessing.Some? {
        count := count + 1;
      }
      if count != 1 {
        return Some(CountError(count));
      }
    } else {
      if r.error.None? {
        return Some(Message(NoErrorInfo));
      }
      if r.error.value.code == "" {
        return Some(Message(NoErrorCode));
      }
    }
    return None;
  }

  /** The "asset[i]: " prefix of ValidateMediaAsset's messages. */
  function AssetLabel(index: int): string
  {
    "asset[" + IntToString(index) + "]: "
  }

  predicate AssetComplete(a: MediaAsset)
  {
    a.id != "" && a.storageURL != "" && a.publicURL != "" && a.mimeType != ""
  }

  /** ValidateMediaAsset (results/common.go:116-130): ID, storage URL,
      public URL and MIME type are checked in that order and the first
      missing one is reported. */
  function ValidateMediaAsset(asset: MediaAsset, index: int): (e: Option<GoError>)
    ensures e.None? <==> AssetComplete(asset)
    ensures asset.id == "" ==> e == Some(Message(AssetLabel(index) + "ID is required"))
    ensures asset.id != "" && asset.storageURL == "" ==>
      e == Some(Message(AssetLabel(index) + "storage URL is required"))
    ensures asset.id != "" && asset.storageURL != "" && asset.publicURL == "" ==>
      e == Some(Message(AssetLabel(index) + "public URL is required"))
    ensures asset.id != "" && asset.storageURL != "" && asset.publicURL != "" && asset.mimeType == "" ==>
      e == Some(Message(AssetLabel(index) + "MIME type is required"))
  {
    if asset.id == "" then Some(Message(AssetLabel(index) + "ID is required"))
    else if asset.storageURL == "" then Some(Message(AssetLabel(index) + "storage URL is required"))
    else if asset.publicURL == "" then Some(Message(AssetLabel(index) + "public URL is required"))
    else if asset.mimeType == "" then Some(Message(AssetLabel(index) + "MIME type is required"))
    else None
  }

  /** The envelope check never looks inside a payload: a successful result
      with one payload passes whatever that payload holds, and a failed
      result passes whatever payloads it carries. */
  lemma EnvelopeIgnoresPayload(r: ToolResult, mg: Option<MediaGenerationResult>, vp: Option<VideoProcessingResult>)
    requires mg.Some? == r.mediaGeneration.Some? && vp.Some? == r.videoProcessing.Some?
    ensures ToolResultError(r.(mediaGeneration := mg, videoProcessing := vp)) == ToolResultError(r)
  {
  }

  /** A failed result may carry payloads too: the count is only checked on
      success. */
  lemma FailedResultPayloadsUnchecked(r: ToolResult)
    requires r.tool != "" && !r.success && r.error.Some? && r.error.value.code != ""
    requires r.mediaGeneration.Some? && r.videoProcessing.Some?
    ensures ToolResultError(r).None?
  {
  }
}
