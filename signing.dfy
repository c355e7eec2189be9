// Which request fields of a tool carry URLs that must be signed
// (tools/signing.go).
module ToolSigning {
  import opened Wrappers
  import opened ToolRegistry
  import opened ToolMetadata

  /** `SignableFields[t]` for a declared tool (tools/signing.go:5-12). */
  function FieldsOf(t: ToolName): Option<seq<string>>
  {
    match t
    case CombineVideos => Some(["video_urls"])
    case TrimVideo => Some(["video_url"])
    case ImageAudioMerge => Some(["image_url", "audio_url"])
    case ExtractFrame => Some(["video_url"])
    case MergeImages => Some(["images"])
    case _ => None
  }

  /** `SignableFields[key]` for any ToolName value. */
  function SignableFields(key: string): Option<seq<string>>
  {
    match ParseToolName(key)
    case Some(t) => FieldsOf(t)
    case None => None
  }

  /** NeedsSignedURLs (tools/signing.go:15-18). */
  predicate NeedsSignedURLs(key: string)
  {
    SignableFields(key).Some?
  }

  /** GetSignableFields (tools/signing.go:21-23): the zero value, an empty
      list, when the key is absent. */
  function GetSignableFields(key: string): (r: seq<string>)
    ensures NeedsSignedURLs(key) <==> |r| > 0
  {
    match SignableFields(key)
    case Some(fields) =>
      assert |fields| > 0 by {
        var t := ParseToolName(key).value;
        assert FieldsOf(t).Some?;
      }
      fields
    case None => []
  }

  /** Signing is needed exactly for the five media-processing tools. */
  lemma NeedsSignedExact(key: string)
    ensures NeedsSignedURLs(key) <==>
      key in {"combine-videos", "trim-video", "image-audio-merge", "extract-frame", "merge-images"}
  {
    if NeedsSignedURLs(key) {
      var t := ParseToolName(key).value;
      assert Name(t) == key;
    }
    if key in {"combine-videos", "trim-video", "image-audio-merge", "extract-frame", "merge-images"} {
      assert ParseToolName(key).Some?;
    }
  }

  /** The signing table and the metadata table agree: a tool needs signed
      URLs exactly when the video processor serves it or it is merge-images. */
  lemma SigningMatchesService(t: ToolName)
    ensures NeedsSignedURLs(Name(t)) <==>
      Entry(t).serviceType == ServiceTypeVideoProcessor || t == MergeImages
  {
    NameRoundTrip(t);
    VideoProcessorTools(t);
  }

  /** image-audio-merge signs its image and its audio, in that order. */
  lemma ImageAudioMergeFields()
    ensures GetSignableFields("image-audio-merge") == ["image_url", "audio_url"]
  {
    NameRoundTrip(ImageAudioMerge);
  }
}
