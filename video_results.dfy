// Results of the video-processing tools: their constructors and the shape
// check on a VideoProcessingResult (results/video_processing.go).
module VideoResults {
  import opened Wrappers
  import opened Text
  import opened ErrorCodes
  import opened ErrorBuilders
  import opened ToolValidation
  import opened Checks
  import opened ResultTypes
  import opened ResultsCommon

  const NoOutputs := "video processing must have at least one output asset"
  const NoInputs := "video processing must have at least one input asset"
  const NoOperations := "video processing must specify at least one operation"

  predicate InputBad(x: InputReference)
  {
    x.sourceURL == "" || x.inputType == ""
  }

  /** The error for input i: its source URL is checked before its type. */
  function InputError(i: nat, x: InputReference): GoError
  {
    if x.sourceURL == "" then Message("input[" + NatToString(i) + "]: source URL is required")
    else Message("input[" + NatToString(i) + "]: type is required")
  }

  function OutputCount(v: VideoProcessingResult): nat
  {
    |v.images| + |v.videos| + |v.audio|
  }

  /** VideoProcessingResult.Validate (results/video_processing.go:288-314):
      at least one output, then at least one input, then at least one
      operation, then each input in order. */
  function ValidateVideoProcessing(v: VideoProcessingResult): (e: Option<GoError>)
    ensures e.None? <==>
      && OutputCount(v) > 0
      && |v.inputAssets| > 0
      && |v.operations| > 0
      && forall i :: 0 <= i < |v.inputAssets| ==> !InputBad(v.inputAssets[i])
    ensures OutputCount(v) == 0 ==> e == Some(Message(NoOutputs))
    ensures OutputCount(v) > 0 && |v.inputAssets| == 0 ==> e == Some(Message(NoInputs))
    ensures OutputCount(v) > 0 && |v.inputAssets| > 0 && |v.operations| == 0 ==> e == Some(Message(NoOperations))
  {
    if OutputCount(v) == 0 then Some(Message(NoOutputs))
    else if |v.inputAssets| == 0 then Some(Message(NoInputs))
    else if |v.operations| == 0 then Some(Message(NoOperations))
    else
      var k := FirstFailing(v.inputAssets, InputBad, 0);
      if k < |v.inputAssets| then Some(InputError(k, v.inputAssets[k])) else None
  }

  /** The first failing input is the one reported, with the field it lacks. */
  lemma FirstBadInputReported(v: VideoProcessingResult, k: nat)
    requires OutputCount(v) > 0 && |v.operations| > 0
    requires k < |v.inputAssets| && InputBad(v.inputAssets[k])
    requires forall j :: 0 <= j < k ==> !InputBad(v.inputAssets[j])
    ensures ValidateVideoProcessing(v) == Some(InputError(k, v.inputAssets[k]))
  {
    assert FirstFailing(v.inputAssets, InputBad, 0) == k;
  }

  /** One input reference of the given type per URL, in order, with no
      duration and no resolution. */
  function InputsFor(urls: seq<string>, inputType: string): seq<InputReference>
  {
    seq(|urls|, i requires 0 <= i < |urls| => InputReference(inputType, urls[i], None, None))
  }

  /** The loop of results/video_processing.go:91-97 and 241-247: a slice of
      zero values as long as the URL list, filled index by index. */
  method BuildInputs(urls: seq<string>, inputType: string) returns (inputs: seq<InputReference>)
    ensures inputs == InputsFor(urls, inputType)
  {
    var a := new InputReference[|urls|](_ => InputReference("", "", None, None));
    var i := 0;
    while i < |urls|
      invariant 0 <= i <= |urls|
      invariant a[..i] == InputsFor(urls, inputType)[..i]
    {
      a[i] := InputReference(inputType, urls[i], None, None);
      i := i + 1;
    }
    inputs := a[..];
  }

  /** The inputs built from a URL list pass the per-input check exactly when
      no URL is empty, given a named type. */
  lemma InputsForChecked(urls: seq<string>, inputType: string)
    requires inputType != ""
    ensures (forall i :: 0 <= i < |urls| ==> !InputBad(InputsFor(urls, inputType)[i])) <==>
      (forall i :: 0 <= i < |urls| ==> urls[i] != "")
  {
    var inputs := InputsFor(urls, inputType);
    forall i | 0 <= i < |urls|
      ensures InputBad(inputs[i]) <==> urls[i] == ""
    {
      assert inputs[i] == InputReference(inputType, urls[i], None, None);
    }
  }

  /** A successful video-processing envelope around one payload. */
  function VideoEnvelope(tool: string, payload: VideoProcessingResult, meta: ExecutionMetadata): ToolResult
  {
    ToolResult(true, tool, None, Some(payload), None, meta, "", "", "", "", None)
  }

  /** NewTrimVideoResult (results/video_processing.go:48-80). */
  function NewTrimVideoResult(outputVideo: OutputVideo, inputURL: string, startTime: string, endTime: string,
                              processingTime: real, meta: ExecutionMetadata): (r: ToolResult)
  {
    VideoEnvelope("trim-video", VideoProcessingResult([], [outputVideo], [],
      [InputReference("video", inputURL, None, None)],
      [ProcessingOperation("trim", map["start_time" := Str(startTime), "end_time" := Str(endTime)])],
      processingTime, 0, 0), meta)
  }

  /** The record NewCombineVideosResult (results/video_processing.go:83-117)
      returns. */
  function CombineVideosResult(outputVideo: OutputVideo, inputURLs: seq<string>, transition: string,
                               processingTime: real, meta: ExecutionMetadata): ToolResult
  {
    VideoEnvelope("combine-videos", VideoProcessingResult([], [outputVideo], [],
      InputsFor(inputURLs, "video"),
      [ProcessingOperation("combine", map["transition" := Str(transition), "count" := Int(|inputURLs|)])],
      processingTime, 0, 0), meta)
  }

  /** NewCombineVideosResult, filling its inputs in a loop. */
  method NewCombineVideosResult(outputVideo: OutputVideo, inputURLs: seq<string>, transition: string,
                                processingTime: real, meta: ExecutionMetadata) returns (r: ToolResult)
    ensures r == CombineVideosResult(outputVideo, inputURLs, transition, processingTime, meta)
  {
    var inputs := BuildInputs(inputURLs, "video");
    r := VideoEnvelope("combine-videos", VideoProcessingResult([], [outputVideo], [],
      inputs,
      [ProcessingOperation("combine", map["transition" := Str(transition), "count" := Int(|inputURLs|)])],
      processingTime, 0, 0), meta);
  }

  /** The parameters of a single-frame extraction: position and timestamp
      are present only when they are not empty. */
  function FrameParams(position: string, timestamp: string): (m: map<string, ParamValue>)
    ensures "position" in m <==> position != ""
    ensures "timestamp" in m <==> timestamp != ""
    ensures "position" in m ==> m["position"] == Str(position)
    ensures "timestamp" in m ==> m["timestamp"] == Str(timestamp)
    ensures m.Keys <= {"position", "timestamp"}
  {
    var withPosition: map<string, ParamValue> := if position != "" then map["position" := Str(position)] else map[];
    if timestamp != "" then withPosition["timestamp" := Str(timestamp)] else withPosition
  }

  /** The record NewExtractFrameResult (results/video_processing.go:120-156)
      returns. */
  function ExtractFrameResult(outputImage: OutputImage, inputVideoURL: string, position: string,
                              timestamp: string, processingTime: real, meta: ExecutionMetadata): ToolResult
  {
    VideoEnvelope("extract-frame", VideoProcessingResult([outputImage], [], [],
      [InputReference("video", inputVideoURL, None, None)],
      [ProcessingOperation("extract", FrameParams(position, timestamp))],
      processingTime, 0, 0), meta)
  }

  /** NewExtractFrameResult, inserting into an initially empty map. */
  method NewExtractFrameResult(outputImage: OutputImage, inputVideoURL: string, position: string,
                               timestamp: string, processingTime: real, meta: ExecutionMetadata)
    returns (r: ToolResult)
    ensures r == ExtractFrameResult(outputImage, inputVideoURL, position, timestamp, processingTime, meta)
  {
    var params: map<string, ParamValue> := map[];
    if position != "" {
      params := params["position" := Str(position)];
    }
    if timestamp != "" {
      params := params["timestamp" := Str(timestamp)];
    }
    assert params == FrameParams(position, timestamp);
    r := VideoEnvelope("extract-frame", VideoProcessingResult([outputImage], [], [],
      [InputReference("video", inputVideoURL, None, None)],
      [ProcessingOperation("extract", params)],
      processingTime, 0, 0), meta);
  }

  /** NewExtractFramesResult (results/video_processing.go:159-190). */
  function NewExtractFramesResult(outputImages: seq<OutputImage>, inputVideoURL: string, positions: seq<string>,
                                  processingTime: real, meta: ExecutionMetadata): ToolResult
  {
    VideoEnvelope("extract-frame", VideoProcessingResult(outputImages, [], [],
      [InputReference("video", inputVideoURL, None, None)],
      [ProcessingOperation("extract", map["positions" := Strs(positions), "count" := Int(|positions|)])],
      processingTime, 0, 0), meta)
  }

  /** NewImageAudioMergeResult (results/video_processing.go:193-229). */
  function NewImageAudioMergeResult(outputVideo: OutputVideo, imageURL: string, audioURL: string,
                                    audioDuration: real, processingTime: real, meta: ExecutionMetadata): ToolResult
  {
    VideoEnvelope("image-audio-merge", VideoProcessingResult([], [outputVideo], [],
      [InputReference("image", imageURL, None, None), InputReference("audio", audioURL, Some(audioDuration), None)],
      [ProcessingOperation("merge", map["output_duration" := Real(audioDuration)])],
      processingTime, 0, 0), meta)
  }

  /** The record NewMergeImagesResult (results/video_processing.go:232-268)
      returns. */
  function MergeImagesResult(outputImage: OutputImage, inputImageURLs: seq<string>, layout: string, spacing: int,
                             processingTime: real, meta: ExecutionMetadata): ToolResult
  {
    VideoEnvelope("merge-images", VideoProcessingResult([outputImage], [], [],
      InputsFor(inputImageURLs, "image"),
      [ProcessingOperation("merge",
        map["layout" := Str(layout), "spacing" := Int(spacing), "count" := Int(|inputImageURLs|)])],
      processingTime, 0, 0), meta)
  }

  /** NewMergeImagesResult, filling its inputs in a loop. */
  method NewMergeImagesResult(outputImage: OutputImage, inputImageURLs: seq<string>, layout: string, spacing: int,
                              processingTime: real, meta: ExecutionMetadata) returns (r: ToolResult)
    ensures r == MergeImagesResult(outputImage, inputImageURLs, layout, spacing, processingTime, meta)
  {
    var inputs := BuildInputs(inputImageURLs, "image");
    r := VideoEnvelope("merge-images", VideoProcessingResult([outputImage], [], [],
      inputs,
      [ProcessingOperation("merge",
        map["layout" := Str(layout), "spacing" := Int(spacing), "count" := Int(|inputImageURLs|)])],
      processingTime, 0, 0), meta);
  }

  /** NewVideoProcessingError (results/video_processing.go:271-285): the
      error is the state NewServiceError leaves, at clock reading `now`. */
  function NewVideoProcessingError(tool: string, code: ErrorCode, message: string, service: string,
                                   retryable: bool, meta: ExecutionMetadata, now: int): (r: ToolResult)
    ensures !r.success && r.tool == tool
    ensures r.mediaGeneration.None? && r.videoProcessing.None?
    ensures r.error == Some(Fresh(code, message, service, retryable, now, null))
  {
    ToolResult(false, tool, None, None, Some(Fresh(code, message, service, retryable, now, null)), meta,
      "", "", "", "", None)
  }

  /** An error result passes the envelope check exactly when it names its
      tool and its code. */
  lemma VideoProcessingErrorChecked(tool: string, code: ErrorCode, message: string, service: string,
                                    retryable: bool, meta: ExecutionMetadata, now: int)
    ensures ToolResultError(NewVideoProcessingError(tool, code, message, service, retryable, meta, now)).None?
      <==> tool != "" && code != ""
  {
  }

  /** A trim result has one video, one input and one operation, passes the
      envelope check, and passes the payload check exactly when the input
      URL is not empty. */
  lemma TrimResultChecked(outputVideo: OutputVideo, inputURL: string, startTime: string, endTime: string,
                          processingTime: real, meta: ExecutionMetadata)
    ensures var r := NewTrimVideoResult(outputVideo, inputURL, startTime, endTime, processingTime, meta);
      && r.success && r.tool == "trim-video"
      && ToolResultError(r).None?
      && var v := r.videoProcessing.value;
      && |v.videos| == 1 && OutputCount(v) == 1 && |v.inputAssets| == 1 && |v.operations| == 1
      && (ValidateVideoProcessing(v).None? <==> inputURL != "")
  {
    var v := NewTrimVideoResult(outputVideo, inputURL, startTime, endTime, processingTime, meta).videoProcessing.value;
    assert !InputBad(v.inputAssets[0]) <==> inputURL != "";
  }

  /** The same for a single extracted frame, whose one output is an image. */
  lemma ExtractFrameResultChecked(outputImage: OutputImage, inputVideoURL: string, position: string,
                                  timestamp: string, processingTime: real, meta: ExecutionMetadata)
    ensures var r := ExtractFrameResult(outputImage, inputVideoURL, position, timestamp, processingTime, meta);
      && r.success && r.tool == "extract-frame"
      && ToolResultError(r).None?
      && var v := r.videoProcessing.value;
      && |v.images| == 1 && OutputCount(v) == 1 && |v.inputAssets| == 1 && |v.operations| == 1
      && (ValidateVideoProcessing(v).None? <==> inputVideoURL != "")
  {
    var v := ExtractFrameResult(outputImage, inputVideoURL, position, timestamp, processingTime, meta).videoProcessing.value;
    assert !InputBad(v.inputAssets[0]) <==> inputVideoURL != "";
  }

  /** A combine result lists one "video" input per URL in order and counts
      them; its payload passes exactly when there is a URL and none is
      empty. */
  lemma CombineResultChecked(outputVideo: OutputVideo, inputURLs: seq<string>, transition: string,
                             processingTime: real, meta: ExecutionMetadata)
    ensures var r := CombineVideosResult(outputVideo, inputURLs, transition, processingTime, meta);
      && ToolResultError(r).None?
      && var v := r.videoProcessing.value;
      && |v.inputAssets| == |inputURLs|
      && (forall i :: 0 <= i < |inputURLs| ==>
            v.inputAssets[i].inputType == "video" && v.inputAssets[i].sourceURL == inputURLs[i])
      && v.operations[0].parameters["count"] == Int(|inputURLs|)
      && (ValidateVideoProcessing(v).None? <==> |inputURLs| > 0 && forall i :: 0 <= i < |inputURLs| ==> inputURLs[i] != "")
  {
    InputsForChecked(inputURLs, "video");
  }

  /** The same for merge-images, whose inputs are typed "image". */
  lemma MergeImagesResultChecked(outputImage: OutputImage, inputImageURLs: seq<string>, layout: string, spacing: int,
                                 processingTime: real, meta: ExecutionMetadata)
    ensures var r := MergeImagesResult(outputImage, inputImageURLs, layout, spacing, processingTime, meta);
      && ToolResultError(r).None?
      && var v := r.videoProcessing.value;
      && |v.inputAssets| == |inputImageURLs|
      && (forall i :: 0 <= i < |inputImageURLs| ==>
            v.inputAssets[i].inputType == "image" && v.inputAssets[i].sourceURL == inputImageURLs[i])
      && v.operations[0].parameters["count"] == Int(|inputImageURLs|)
      && (ValidateVideoProcessing(v).None? <==>
            |inputImageURLs| > 0 && forall i :: 0 <= i < |inputImageURLs| ==> inputImageURLs[i] != "")
  {
    InputsForChecked(inputImageURLs, "image");
  }

  /** image-audio-merge lists the image before the audio and records the
      audio's duration on the audio input only. */
  lemma ImageAudioMergeInputs(outputVideo: OutputVideo, imageURL: string, audioURL: string,
                              audioDuration: real, processingTime: real, meta: ExecutionMetadata)
    ensures var v := NewImageAudioMergeResult(outputVideo, imageURL, audioURL, audioDuration, processingTime, meta)
        .videoProcessing.value;
      && |v.inputAssets| == 2
      && v.inputAssets[0].inputType == "image" && v.inputAssets[0].duration.None?
      && v.inputAssets[1].inputType == "audio" && v.inputAssets[1].duration == Some(audioDuration)
      && (ValidateVideoProcessing(v).None? <==> imageURL != "" && audioURL != "")
  {
    var v := NewImageAudioMergeResult(outputVideo, imageURL, audioURL, audioDuration, processingTime, meta)
        .videoProcessing.value;
    assert !InputBad(v.inputAssets[0]) <==> imageURL != "";
    assert !InputBad(v.inputAssets[1]) <==> audioURL != "";
  }

  /** A batch extraction with no images has no output and is rejected by
      the payload check, although the envelope check passes. */
  lemma EmptyFramesRejected(inputVideoURL: string, positions: seq<string>, processingTime: real,
                            meta: ExecutionMetadata)
    ensures var r := NewExtractFramesResult([], inputVideoURL, positions, processingTime, meta);
      && ToolResultError(r).None?
      && ValidateVideoProcessing(r.videoProcessing.value) == Some(Message(NoOutputs))
  {
  }
}
