/** The parameter types of the video and image processing tools and what
    their struct tags allow (tools/video_processing.go). */
module VideoProcessing {
  import opened Wrappers
  import opened Constraints

  const OutputFormats: seq<string> := ["mp4", "webm"]

  // === CombineVideos ===

  const Transitions: seq<string> := ["none", "fade", "dissolve"]
  const AudioStrategies: seq<string> := ["crossfade", "concat", "none", "cut_continue"]

  /** CombineVideosParams; nil slices are None. */
  datatype CombineVideosParams = CombineVideosParams(
    videoUrls: Option<seq<string>>, signedUrls: Option<seq<string>>, videoIds: Option<seq<string>>,
    transition: string, fadeDuration: real, audioStrategy: string, format: string,
    videoCodec: string, audioCodec: string)

  function CombineVideosValues(p: CombineVideosParams): seq<Value>
  {
    [List(p.videoUrls), List(p.signedUrls), List(p.videoIds), Str(p.transition), Float(p.fadeDuration),
     Str(p.audioStrategy), Str(p.format), Str(p.videoCodec), Str(p.audioCodec)]
  }

  const CombineVideosSchema: seq<FieldSpec> :=
    [Plain("VideoURLs", [Required, Min("2", 2.0), Max("10", 10.0)]),
     Plain("SignedURLs", []),
     Plain("VideoIDs", []),
     Plain("Transition", [OmitEmpty, OneOf(Transitions)]),
     Plain("FadeDuration", [OmitEmpty, Min("0", 0.0), Max("5", 5.0)]),
     Plain("AudioStrategy", [OmitEmpty, OneOf(AudioStrategies)]),
     Plain("Format", [OmitEmpty, OneOf(OutputFormats)]),
     Plain("VideoCodec", []),
     Plain("AudioCodec", [])]

  /** Two to ten videos; the listed transitions, audio strategies and
      formats; a fade of at most five seconds. */
  predicate CombineVideosValid(p: CombineVideosParams)
  {
    && p.videoUrls.Some? && 2 <= |p.videoUrls.value| <= 10
    && (p.transition != "" ==> p.transition in Transitions)
    && (p.fadeDuration != 0.0 ==> 0.0 <= p.fadeDuration <= 5.0)
    && (p.audioStrategy != "" ==> p.audioStrategy in AudioStrategies)
    && (p.format != "" ==> p.format in OutputFormats)
  }

  /** CombineVideos fields 0 to 3: the URL lists and the transition. */
  lemma CombineVideosHeadFields(p: CombineVideosParams, ns: string)
    ensures ValidateFrom(CombineVideosSchema, CombineVideosValues(p), ns, 0) == [] <==>
      && (p.videoUrls.Some? && 2 <= |p.videoUrls.value| <= 10)
      && (p.transition != "" ==> p.transition in Transitions)
      && ValidateFrom(CombineVideosSchema, CombineVideosValues(p), ns, 4) == []
  {
    var specs := CombineVideosSchema;
    var vals := CombineVideosValues(p);
    assert ValidateFrom(specs, vals, ns, 0) == [] <==>
      (p.videoUrls.Some? && 2 <= |p.videoUrls.value| <= 10) && ValidateFrom(specs, vals, ns, 1) == [] by {
      ValidateFromStep(specs, vals, ns, 0);
      RequiredListBetween(specs[0], p.videoUrls, "2", 2.0, "10", 10.0, ns, specs, vals);
    }
    assert ValidateFrom(specs, vals, ns, 1) == [] <==>
      ValidateFrom(specs, vals, ns, 2) == [] by {
      ValidateFromStep(specs, vals, ns, 1);
      UntaggedNeverFails(specs[1], vals[1], ns, specs, vals);
    }
    assert ValidateFrom(specs, vals, ns, 2) == [] <==>
      ValidateFrom(specs, vals, ns, 3) == [] by {
      ValidateFromStep(specs, vals, ns, 2);
      UntaggedNeverFails(specs[2], vals[2], ns, specs, vals);
    }
    assert ValidateFrom(specs, vals, ns, 3) == [] <==>
      (p.transition != "" ==> p.transition in Transitions) && ValidateFrom(specs, vals, ns, 4) == [] by {
      ValidateFromStep(specs, vals, ns, 3);
      OptionalStringOneOf(specs[3], p.transition, Transitions, ns, specs, vals);
    }
  }

  /** CombineVideos fields 4 to 8: fade, audio strategy, format and codecs. */
  lemma CombineVideosTailFields(p: CombineVideosParams, ns: string)
    ensures ValidateFrom(CombineVideosSchema, CombineVideosValues(p), ns, 4) == [] <==>
      && (p.fadeDuration != 0.0 ==> 0.0 <= p.fadeDuration <= 5.0)
      && (p.audioStrategy != "" ==> p.audioStrategy in AudioStrategies)
      && (p.format != "" ==> p.format in OutputFormats)
  {
    var specs := CombineVideosSchema;
    var vals := CombineVideosValues(p);
    assert ValidateFrom(specs, vals, ns, 4) == [] <==>
      (p.fadeDuration != 0.0 ==> 0.0 <= p.fadeDuration <= 5.0) && ValidateFrom(specs, vals, ns, 5) == [] by {
      ValidateFromStep(specs, vals, ns, 4);
      OptionalFloatBetween(specs[4], p.fadeDuration, "0", 0.0, "5", 5.0, ns, specs, vals);
    }
    assert ValidateFrom(specs, vals, ns, 5) == [] <==>
      (p.audioStrategy != "" ==> p.audioStrategy in AudioStrategies) && ValidateFrom(specs, vals, ns, 6) == [] by {
      ValidateFromStep(specs, vals, ns, 5);
      OptionalStringOneOf(specs[5], p.audioStrategy, AudioStrategies, ns, specs, vals);
    }
    assert ValidateFrom(specs, vals, ns, 6) == [] <==>
      (p.format != "" ==> p.format in OutputFormats) && ValidateFrom(specs, vals, ns, 7) == [] by {
      ValidateFromStep(specs, vals, ns, 6);
      OptionalStringOneOf(specs[6], p.format, OutputFormats, ns, specs, vals);
    }
    assert ValidateFrom(specs, vals, ns, 7) == [] <==>
      ValidateFrom(specs, vals, ns, 8) == [] by {
      ValidateFromStep(specs, vals, ns, 7);
      UntaggedNeverFails(specs[7], vals[7], ns, specs, vals);
    }
    assert ValidateFrom(specs, vals, ns, 8) == [] <==>
      ValidateFrom(specs, vals, ns, 9) == [] by {
      ValidateFromStep(specs, vals, ns, 8);
      UntaggedNeverFails(specs[8], vals[8], ns, specs, vals);
    }
    ValidateFromEnd(specs, vals, ns, 9);
  }

  /** validate.Struct accepts a CombineVideosParams exactly when
      CombineVideosValid holds. */
  lemma CombineVideosSchemaMeaning(p: CombineVideosParams, ns: string)
    ensures ValidateFrom(CombineVideosSchema, CombineVideosValues(p), ns, 0) == [] <==> CombineVideosValid(p)
  {
    CombineVideosHeadFields(p, ns);
    CombineVideosTailFields(p, ns);
  }

  // === TrimVideo ===

  datatype TrimVideoParams = TrimVideoParams(
    videoUrl: string, signedUrl: string, startTime: string, endTime: string, duration: Option<real>,
    fastMode: Option<bool>, format: string)

  function TrimVideoValues(p: TrimVideoParams): seq<Value>
  {
    [Str(p.videoUrl), Str(p.signedUrl), Str(p.startTime), Str(p.endTime), FloatPtr(p.duration),
     BoolPtr(p.fastMode), Str(p.format)]
  }

  const TrimVideoSchema: seq<FieldSpec> :=
    [Plain("VideoURL", [Required]),
     Plain("SignedURL", []),
     Plain("StartTime", [OmitEmpty]),
     Plain("EndTime", [RequiredWithout("Duration")]),
     Plain("Duration", [RequiredWithout("EndTime"), OmitEmpty, Min("0.1", 0.1), Max("600", 600.0)]),
     Plain("FastMode", []),
     Plain("Format", [OmitEmpty, OneOf(OutputFormats)])]

  /** A video; an end time or a duration (each required without the
      other); a duration between 0.1 and 600 seconds when given. */
  predicate TrimVideoValid(p: TrimVideoParams)
  {
    && p.videoUrl != ""
    && (p.duration.None? ==> p.endTime != "")
    && (p.duration.Some? ==> 0.1 <= p.duration.value <= 600.0)
    && (p.format != "" ==> p.format in OutputFormats)
  }

  /** TrimVideo fields 0 to 2: the source and the start time. */
  lemma TrimVideoHeadFields(p: TrimVideoParams, ns: string)
    ensures ValidateFrom(TrimVideoSchema, TrimVideoValues(p), ns, 0) == [] <==>
      && (p.videoUrl != "")
      && ValidateFrom(TrimVideoSchema, TrimVideoValues(p), ns, 3) == []
  {
    var specs := TrimVideoSchema;
    var vals := TrimVideoValues(p);
    assert ValidateFrom(specs, vals, ns, 0) == [] <==>
      (p.videoUrl != "") && ValidateFrom(specs, vals, ns, 1) == [] by {
      ValidateFromStep(specs, vals, ns, 0);
      RequiredString(specs[0], p.videoUrl, ns, specs, vals);
    }
    assert ValidateFrom(specs, vals, ns, 1) == [] <==>
      ValidateFrom(specs, vals, ns, 2) == [] by {
      ValidateFromStep(specs, vals, ns, 1);
      UntaggedNeverFails(specs[1], vals[1], ns, specs, vals);
    }
    assert ValidateFrom(specs, vals, ns, 2) == [] <==>
      ValidateFrom(specs, vals, ns, 3) == [] by {
      ValidateFromStep(specs, vals, ns, 2);
      OptionalString(specs[2], p.startTime, ns, specs, vals);
    }
  }

  /** How required_without sees the two alternatives of TrimVideo. */
  lemma TrimVideoSiblings(p: TrimVideoParams)
    ensures SiblingAbsent("Duration", TrimVideoSchema, TrimVideoValues(p)) <==> p.duration.None?
    ensures SiblingAbsent("EndTime", TrimVideoSchema, TrimVideoValues(p)) <==> p.endTime == ""
  {
    SiblingAt("Duration", TrimVideoSchema, TrimVideoValues(p), 4);
    SiblingAt("EndTime", TrimVideoSchema, TrimVideoValues(p), 3);
  }

  /** TrimVideo end time: required when there is no duration. */
  lemma TrimVideoEndField(p: TrimVideoParams, ns: string)
    ensures ValidateFrom(TrimVideoSchema, TrimVideoValues(p), ns, 3) == [] <==>
      && (p.duration.None? ==> p.endTime != "")
      && ValidateFrom(TrimVideoSchema, TrimVideoValues(p), ns, 4) == []
  {
    var specs := TrimVideoSchema;
    var vals := TrimVideoValues(p);
    assert ValidateFrom(specs, vals, ns, 3) == [] <==>
      (p.duration.None? ==> p.endTime != "") && ValidateFrom(specs, vals, ns, 4) == [] by {
      ValidateFromStep(specs, vals, ns, 3);
      StringRequiredWithout(specs[3], p.endTime, "Duration", ns, specs, vals);
      TrimVideoSiblings(p);
    }
  }

  /** TrimVideo duration: required when there is no end time, and within
      0.1 to 600 when given. */
  lemma TrimVideoDurationField(p: TrimVideoParams, ns: string)
    ensures ValidateFrom(TrimVideoSchema, TrimVideoValues(p), ns, 4) == [] <==>
      && ((p.duration.None? ==> p.endTime != "") && (p.duration.Some? ==> 0.1 <= p.duration.value <= 600.0))
      && ValidateFrom(TrimVideoSchema, TrimVideoValues(p), ns, 5) == []
  {
    var specs := TrimVideoSchema;
    var vals := TrimVideoValues(p);
    assert ValidateFrom(specs, vals, ns, 4) == [] <==>
      ((p.duration.None? ==> p.endTime != "") && (p.duration.Some? ==> 0.1 <= p.duration.value <= 600.0)) && ValidateFrom(specs, vals, ns, 5) == [] by {
      ValidateFromStep(specs, vals, ns, 4);
      FloatPtrRequiredWithoutBetween(specs[4], p.duration, "EndTime", "0.1", 0.1, "600", 600.0, ns, specs, vals);
      TrimVideoSiblings(p);
    }
  }

  /** TrimVideo fields 5 and 6: the fast-mode flag and the format. */
  lemma TrimVideoTailFields(p: TrimVideoParams, ns: string)
    ensures ValidateFrom(TrimVideoSchema, TrimVideoValues(p), ns, 5) == [] <==>
      && (p.format != "" ==> p.format in OutputFormats)
  {
    var specs := TrimVideoSchema;
    var vals := TrimVideoValues(p);
    assert ValidateFrom(specs, vals, ns, 5) == [] <==>
      ValidateFrom(specs, vals, ns, 6) == [] by {
      ValidateFromStep(specs, vals, ns, 5);
      UntaggedNeverFails(specs[5], vals[5], ns, specs, vals);
    }
    assert ValidateFrom(specs, vals, ns, 6) == [] <==>
      (p.format != "" ==> p.format in OutputFormats) && ValidateFrom(specs, vals, ns, 7) == [] by {
      ValidateFromStep(specs, vals, ns, 6);
      OptionalStringOneOf(specs[6], p.format, OutputFormats, ns, specs, vals);
    }
    ValidateFromEnd(specs, vals, ns, 7);
  }

  /** validate.Struct accepts a TrimVideoParams exactly when TrimVideoValid
      holds. */
  lemma TrimVideoSchemaMeaning(p: TrimVideoParams, ns: string)
    ensures ValidateFrom(TrimVideoSchema, TrimVideoValues(p), ns, 0) == [] <==> TrimVideoValid(p)
  {
    TrimVideoHeadFields(p, ns);
    TrimVideoEndField(p, ns);
    TrimVideoDurationField(p, ns);
    TrimVideoTailFields(p, ns);
  }

  // === ImageAudioMerge ===

  const MergeResolutions: seq<string> := ["1920x1080", "1280x720", "854x480", "640x360"]

  datatype ImageAudioMergeParams = ImageAudioMergeParams(
    imageUrl: string, audioUrl: string, signedImageUrl: string, signedAudioUrl: string,
    format: string, resolution: string, videoBitrate: string, audioBitrate: string)

  function ImageAudioMergeValues(p: ImageAudioMergeParams): seq<Value>
  {
    [Str(p.imageUrl), Str(p.audioUrl), Str(p.signedImageUrl), Str(p.signedAudioUrl),
     Str(p.format), Str(p.resolution), Str(p.videoBitrate), Str(p.audioBitrate)]
  }

  const ImageAudioMergeSchema: seq<FieldSpec> :=
    [Plain("ImageURL", [Required]),
     Plain("AudioURL", [Required]),
     Plain("SignedImageURL", []),
     Plain("SignedAudioURL", []),
     Plain("Format", [OmitEmpty, OneOf(OutputFormats)]),
     Plain("Resolution", [OmitEmpty, OneOf(MergeResolutions)]),
     Plain("VideoBitrate", [OmitEmpty]),
     Plain("AudioBitrate", [OmitEmpty])]

  /** Both inputs, and the listed formats and resolutions. */
  predicate ImageAudioMergeValid(p: ImageAudioMergeParams)
  {
    && p.imageUrl != ""
    && p.audioUrl != ""
    && (p.format != "" ==> p.format in OutputFormats)
    && (p.resolution != "" ==> p.resolution in MergeResolutions)
  }

  /** ImageAudioMerge fields 0 to 3: the inputs and their signed URLs. */
  lemma ImageAudioMergeHeadFields(p: ImageAudioMergeParams, ns: string)
    ensures ValidateFrom(ImageAudioMergeSchema, ImageAudioMergeValues(p), ns, 0) == [] <==>
      && (p.imageUrl != "")
      && (p.audioUrl != "")
      && ValidateFrom(ImageAudioMergeSchema, ImageAudioMergeValues(p), ns, 4) == []
  {
    var specs := ImageAudioMergeSchema;
    var vals := ImageAudioMergeValues(p);
    assert ValidateFrom(specs, vals, ns, 0) == [] <==>
      (p.imageUrl != "") && ValidateFrom(specs, vals, ns, 1) == [] by {
      ValidateFromStep(specs, vals, ns, 0);
      RequiredString(specs[0], p.imageUrl, ns, specs, vals);
    }
    assert ValidateFrom(specs, vals, ns, 1) == [] <==>
      (p.audioUrl != "") && ValidateFrom(specs, vals, ns, 2) == [] by {
      ValidateFromStep(specs, vals, ns, 1);
      RequiredString(specs[1], p.audioUrl, ns, specs, vals);
    }
    assert ValidateFrom(specs, vals, ns, 2) == [] <==>
      ValidateFrom(specs, vals, ns, 3) == [] by {
      ValidateFromStep(specs, vals, ns, 2);
      UntaggedNeverFails(specs[2], vals[2], ns, specs, vals);
    }
    assert ValidateFrom(specs, vals, ns, 3) == [] <==>
      ValidateFrom(specs, vals, ns, 4) == [] by {
      ValidateFromStep(specs, vals, ns, 3);
      UntaggedNeverFails(specs[3], vals[3], ns, specs, vals);
    }
  }

  /** ImageAudioMerge fields 4 to 7: format, resolution and bitrates. */
  lemma ImageAudioMergeTailFields(p: ImageAudioMergeParams, ns: string)
    ensures ValidateFrom(ImageAudioMergeSchema, ImageAudioMergeValues(p), ns, 4) == [] <==>
      && (p.format != "" ==> p.format in OutputFormats)
      && (p.resolution != "" ==> p.resolution in MergeResolutions)
  {
    var specs := ImageAudioMergeSchema;
    var vals := ImageAudioMergeValues(p);
    assert ValidateFrom(specs, vals, ns, 4) == [] <==>
      (p.format != "" ==> p.format in OutputFormats) && ValidateFrom(specs, vals, ns, 5) == [] by {
      ValidateFromStep(specs, vals, ns, 4);
      OptionalStringOneOf(specs[4], p.format, OutputFormats, ns, specs, vals);
    }
    assert ValidateFrom(specs, vals, ns, 5) == [] <==>
      (p.resolution != "" ==> p.resolution in MergeResolutions) && ValidateFrom(specs, vals, ns, 6) == [] by {
      ValidateFromStep(specs, vals, ns, 5);
      OptionalStringOneOf(specs[5], p.resolution, MergeResolutions, ns, specs, vals);
    }
    assert ValidateFrom(specs, vals, ns, 6) == [] <==>
      ValidateFrom(specs, vals, ns, 7) == [] by {
      ValidateFromStep(specs, vals, ns, 6);
      OptionalString(specs[6], p.videoBitrate, ns, specs, vals);
    }
    assert ValidateFrom(specs, vals, ns, 7) == [] <==>
      ValidateFrom(specs, vals, ns, 8) == [] by {
      ValidateFromStep(specs, vals, ns, 7);
      OptionalString(specs[7], p.audioBitrate, ns, specs, vals);
    }
    ValidateFromEnd(specs, vals, ns, 8);
  }

  /** validate.Struct accepts an ImageAudioMergeParams exactly when
      ImageAudioMergeValid holds. */
  lemma ImageAudioMergeSchemaMeaning(p: ImageAudioMergeParams, ns: string)
    ensures ValidateFrom(ImageAudioMergeSchema, ImageAudioMergeValues(p), ns, 0) == [] <==> ImageAudioMergeValid(p)
  {
    ImageAudioMergeHeadFields(p, ns);
    ImageAudioMergeTailFields(p, ns);
  }

  // === ExtractFrame ===

  const FramePositions: seq<string> := ["first", "last", "middle"]
  const FrameFormats: seq<string> := ["jpg", "png"]

  datatype ExtractFrameParams = ExtractFrameParams(
    videoUrl: string, signedUrl: string, position: string, positions: Option<seq<string>>,
    timestamp: string, format: string, quality: int, width: int, height: int)

  function ExtractFrameValues(p: ExtractFrameParams): seq<Value>
  {
    [Str(p.videoUrl), Str(p.signedUrl), Str(p.position), List(p.positions), Str(p.timestamp),
     Str(p.format), Int(p.quality), Int(p.width), Int(p.height)]
  }

  const ExtractFrameSchema: seq<FieldSpec> :=
    [Plain("VideoURL", [Required]),
     Plain("SignedURL", []),
     Plain("Position", [OmitEmpty, OneOf(FramePositions), RequiredWithoutAll(["Timestamp", "Positions"])]),
     Plain("Positions", [RequiredWithoutAll(["Position", "Timestamp"])]),
     Plain("Timestamp", [RequiredWithoutAll(["Position", "Positions"])]),
     Plain("Format", [OmitEmpty, OneOf(FrameFormats)]),
     Plain("Quality", [OmitEmpty, Min("1", 1.0), Max("100", 100.0)]),
     Plain("Width", [OmitEmpty, Min("1", 1.0)]),
     Plain("Height", [OmitEmpty, Min("1", 1.0)])]

  /** A video; one of the three named positions when a position is given;
      at least one of position, positions and timestamp (a non-nil empty
      list of positions counts as given); the listed formats; quality 1 to
      100 and positive dimensions when given. The required_without_all on
      Position itself can never fail: its omitempty ends the walk first. */
  predicate ExtractFrameValid(p: ExtractFrameParams)
  {
    && p.videoUrl != ""
    && (p.position != "" ==> p.position in FramePositions)
    && (p.position == "" && p.timestamp == "" ==> p.positions.Some?)
    && (p.format != "" ==> p.format in FrameFormats)
    && (p.quality != 0 ==> 1 <= p.quality <= 100)
    && p.width >= 0
    && p.height >= 0
  }

  /** ExtractFrame fields 0 to 2: the source and the named position. */
  lemma ExtractFrameHeadFields(p: ExtractFrameParams, ns: string)
    ensures ValidateFrom(ExtractFrameSchema, ExtractFrameValues(p), ns, 0) == [] <==>
      && (p.videoUrl != "")
      && (p.position != "" ==> p.position in FramePositions)
      && ValidateFrom(ExtractFrameSchema, ExtractFrameValues(p), ns, 3) == []
  {
    var specs := ExtractFrameSchema;
    var vals := ExtractFrameValues(p);
    assert ValidateFrom(specs, vals, ns, 0) == [] <==>
      (p.videoUrl != "") && ValidateFrom(specs, vals, ns, 1) == [] by {
      ValidateFromStep(specs, vals, ns, 0);
      RequiredString(specs[0], p.videoUrl, ns, specs, vals);
    }
    assert ValidateFrom(specs, vals, ns, 1) == [] <==>
      ValidateFrom(specs, vals, ns, 2) == [] by {
      ValidateFromStep(specs, vals, ns, 1);
      UntaggedNeverFails(specs[1], vals[1], ns, specs, vals);
    }
    assert ValidateFrom(specs, vals, ns, 2) == [] <==>
      (p.position != "" ==> p.position in FramePositions) && ValidateFrom(specs, vals, ns, 3) == [] by {
      ValidateFromStep(specs, vals, ns, 2);
      OptionalStringOneOfRequiredWithoutAll(specs[2], p.position, FramePositions, ["Timestamp", "Positions"], ns, specs, vals);
    }
  }

  /** How required_without_all sees the three alternatives of
      ExtractFrame. */
  lemma ExtractFrameSiblings(p: ExtractFrameParams)
    ensures SiblingAbsent("Position", ExtractFrameSchema, ExtractFrameValues(p)) <==> p.position == ""
    ensures SiblingAbsent("Positions", ExtractFrameSchema, ExtractFrameValues(p)) <==> p.positions.None?
    ensures SiblingAbsent("Timestamp", ExtractFrameSchema, ExtractFrameValues(p)) <==> p.timestamp == ""
  {
    var specs := ExtractFrameSchema;
    var vals := ExtractFrameValues(p);
    SiblingAt("Position", specs, vals, 2);
    SiblingAt("Positions", specs, vals, 3);
    SiblingAt("Timestamp", specs, vals, 4);
  }

  /** ExtractFrame positions: non-nil when neither a position nor a
      timestamp is given. */
  lemma ExtractFramePositionsField(p: ExtractFrameParams, ns: string)
    ensures ValidateFrom(ExtractFrameSchema, ExtractFrameValues(p), ns, 3) == [] <==>
      && (p.position == "" && p.timestamp == "" ==> p.positions.Some?)
      && ValidateFrom(ExtractFrameSchema, ExtractFrameValues(p), ns, 4) == []
  {
    var specs := ExtractFrameSchema;
    var vals := ExtractFrameValues(p);
    assert ValidateFrom(specs, vals, ns, 3) == [] <==>
      (p.position == "" && p.timestamp == "" ==> p.positions.Some?) && ValidateFrom(specs, vals, ns, 4) == [] by {
      ValidateFromStep(specs, vals, ns, 3);
      ListRequiredWithoutAll(specs[3], p.positions, ["Position", "Timestamp"], ns, specs, vals);
      AllSiblingsAbsentPair("Position", "Timestamp", specs, vals);
      ExtractFrameSiblings(p);
    }
  }

  /** ExtractFrame timestamp: required when neither a position nor a list
      of positions is given. */
  lemma ExtractFrameTimestampField(p: ExtractFrameParams, ns: string)
    ensures ValidateFrom(ExtractFrameSchema, ExtractFrameValues(p), ns, 4) == [] <==>
      && (p.position == "" && p.positions.None? ==> p.timestamp != "")
      && ValidateFrom(ExtractFrameSchema, ExtractFrameValues(p), ns, 5) == []
  {
    var specs := ExtractFrameSchema;
    var vals := ExtractFrameValues(p);
    assert ValidateFrom(specs, vals, ns, 4) == [] <==>
      (p.position == "" && p.positions.None? ==> p.timestamp != "") && ValidateFrom(specs, vals, ns, 5) == [] by {
      ValidateFromStep(specs, vals, ns, 4);
      StringRequiredWithoutAll(specs[4], p.timestamp, ["Position", "Positions"], ns, specs, vals);
      AllSiblingsAbsentPair("Position", "Positions", specs, vals);
      ExtractFrameSiblings(p);
    }
  }

  /** ExtractFrame fields 5 to 8: format, quality and dimensions. */
  lemma ExtractFrameTailFields(p: ExtractFrameParams, ns: string)
    ensures ValidateFrom(ExtractFrameSchema, ExtractFrameValues(p), ns, 5) == [] <==>
      && (p.format != "" ==> p.format in FrameFormats)
      && (p.quality != 0 ==> 1 <= p.quality <= 100)
      && (p.width != 0 ==> 1 <= p.width)
      && (p.height != 0 ==> 1 <= p.height)
  {
    var specs := ExtractFrameSchema;
    var vals := ExtractFrameValues(p);
    assert ValidateFrom(specs, vals, ns, 5) == [] <==>
      (p.format != "" ==> p.format in FrameFormats) && ValidateFrom(specs, vals, ns, 6) == [] by {
      ValidateFromStep(specs, vals, ns, 5);
      OptionalStringOneOf(specs[5], p.format, FrameFormats, ns, specs, vals);
    }
    assert ValidateFrom(specs, vals, ns, 6) == [] <==>
      (p.quality != 0 ==> 1 <= p.quality <= 100) && ValidateFrom(specs, vals, ns, 7) == [] by {
      ValidateFromStep(specs, vals, ns, 6);
      OptionalIntBetween(specs[6], p.quality, "1", 1.0, "100", 100.0, ns, specs, vals);
    }
    assert ValidateFrom(specs, vals, ns, 7) == [] <==>
      (p.width != 0 ==> 1 <= p.width) && ValidateFrom(specs, vals, ns, 8) == [] by {
      ValidateFromStep(specs, vals, ns, 7);
      OptionalIntMin(specs[7], p.width, "1", 1.0, ns, specs, vals);
    }
    assert ValidateFrom(specs, vals, ns, 8) == [] <==>
      (p.height != 0 ==> 1 <= p.height) && ValidateFrom(specs, vals, ns, 9) == [] by {
      ValidateFromStep(specs, vals, ns, 8);
      OptionalIntMin(specs[8], p.height, "1", 1.0, ns, specs, vals);
    }
    ValidateFromEnd(specs, vals, ns, 9);
  }

  /** validate.Struct accepts an ExtractFrameParams exactly when
      ExtractFrameValid holds. */
  lemma ExtractFrameSchemaMeaning(p: ExtractFrameParams, ns: string)
    ensures ValidateFrom(ExtractFrameSchema, ExtractFrameValues(p), ns, 0) == [] <==> ExtractFrameValid(p)
  {
    ExtractFrameHeadFields(p, ns);
    ExtractFramePositionsField(p, ns);
    ExtractFrameTimestampField(p, ns);
    ExtractFrameTailFields(p, ns);
  }

  // === MergeImages ===

  const Layouts: seq<string> := ["horizontal", "vertical", "grid"]

  datatype MergeImagesParams = MergeImagesParams(
    images: Option<seq<string>>, signedUrls: Option<seq<string>>, layout: string, spacing: int)

  function MergeImagesValues(p: MergeImagesParams): seq<Value>
  {
    [List(p.images), List(p.signedUrls), Str(p.layout), Int(p.spacing)]
  }

  const MergeImagesSchema: seq<FieldSpec> :=
    [Plain("Images", [Required, Min("2", 2.0)]),
     Plain("SignedURLs", []),
     Plain("Layout", [OmitEmpty, OneOf(Layouts)]),
     Plain("Spacing", [OmitEmpty, Min("0", 0.0)])]

  /** At least two images, a listed layout, and no negative spacing. */
  predicate MergeImagesValid(p: MergeImagesParams)
  {
    && p.images.Some? && |p.images.value| >= 2
    && (p.layout != "" ==> p.layout in Layouts)
    && p.spacing >= 0
  }

  /** validate.Struct accepts a MergeImagesParams exactly when
      MergeImagesValid holds. */
  lemma MergeImagesSchemaMeaning(p: MergeImagesParams, ns: string)
    ensures ValidateFrom(MergeImagesSchema, MergeImagesValues(p), ns, 0) == [] <==>
      && (p.images.Some? && |p.images.value| >= 2)
      && (p.layout != "" ==> p.layout in Layouts)
      && (p.spacing >= 0)
  {
    var specs := MergeImagesSchema;
    var vals := MergeImagesValues(p);
    assert ValidateFrom(specs, vals, ns, 0) == [] <==>
      (p.images.Some? && |p.images.value| >= 2) && ValidateFrom(specs, vals, ns, 1) == [] by {
      ValidateFromStep(specs, vals, ns, 0);
      RequiredListMin(specs[0], p.images, "2", 2.0, ns, specs, vals);
    }
    assert ValidateFrom(specs, vals, ns, 1) == [] <==>
      ValidateFrom(specs, vals, ns, 2) == [] by {
      ValidateFromStep(specs, vals, ns, 1);
      UntaggedNeverFails(specs[1], vals[1], ns, specs, vals);
    }
    assert ValidateFrom(specs, vals, ns, 2) == [] <==>
      (p.layout != "" ==> p.layout in Layouts) && ValidateFrom(specs, vals, ns, 3) == [] by {
      ValidateFromStep(specs, vals, ns, 2);
      OptionalStringOneOf(specs[2], p.layout, Layouts, ns, specs, vals);
    }
    assert ValidateFrom(specs, vals, ns, 3) == [] <==>
      (p.spacing >= 0) && ValidateFrom(specs, vals, ns, 4) == [] by {
      ValidateFromStep(specs, vals, ns, 3);
      OptionalIntMin(specs[3], p.spacing, "0", 0.0, ns, specs, vals);
    }
    ValidateFromEnd(specs, vals, ns, 4);
  }
}
