/** The parameter types of the media generation tools and what their struct
    tags allow (tools/media_generation.go). Each type is a record, its field
    values in declaration order, its tags as a schema for the validator
    model, and a predicate stating the tags' meaning directly; a lemma per
    type proves that the validator accepts exactly the records the
    predicate describes. */
module MediaGeneration {
  import opened Wrappers
  import opened Text
  import opened Constraints
  import opened ToolCommon

  // === Imagen ===

  /** The fields shared by the three Imagen parameter types, which differ
      only in the tags on ImageSize and NumberOfImages. */
  datatype ImagenParams = ImagenParams(
    prompt: string, seed: Option<int>, style: string, language: string, imageSize: string,
    aspectRatio: string, addWatermark: bool, enhancePrompt: bool, guidanceScale: real,
    negativePrompt: string, numberOfImages: int, outputMimeType: string, personGeneration: string,
    includeRaiReason: bool, safetyFilterLevel: string, includeSafetyAttributes: bool,
    outputCompressionQuality: int)

  const ImageSizes: seq<string> := ["1K", "2K"]
  const ImageAspectRatios: seq<string> := ["1:1", "16:9", "9:16", "4:3", "3:4"]
  const ImageMimeTypes: seq<string> := ["image/png", "image/jpeg"]
  const ImagePersonGeneration: seq<string> := ["DONT_ALLOW", "ALLOW_ADULT", "ALLOW_ALL"]
  const SafetyFilterLevels: seq<string> := ["BLOCK_MEDIUM_AND_ABOVE", "BLOCK_MOST", "BLOCK_SOME", "BLOCK_FEW"]

  function ImagenValues(p: ImagenParams): seq<Value>
  {
    [Str(p.prompt), IntPtr(p.seed), Str(p.style), Str(p.language), Str(p.imageSize),
     Str(p.aspectRatio), Bool(p.addWatermark), Bool(p.enhancePrompt), Float(p.guidanceScale),
     Str(p.negativePrompt), Int(p.numberOfImages), Str(p.outputMimeType), Str(p.personGeneration),
     Bool(p.includeRaiReason), Str(p.safetyFilterLevel), Bool(p.includeSafetyAttributes),
     Int(p.outputCompressionQuality)]
  }

  /** The Imagen struct tags, given the two that vary. */
  function ImagenFields(imageSize: seq<Tag>, numberOfImages: seq<Tag>): seq<FieldSpec>
  {
    [Plain("Prompt", [Required, Min("1", 1.0), Max("2000", 2000.0)]),
     Plain("Seed", [OmitEmpty, Min("0", 0.0), Max("4294967295", 4294967295.0)]),
     Plain("Style", []),
     Plain("Language", [OmitEmpty, Len("2", 2.0)]),
     Plain("ImageSize", imageSize),
     Plain("AspectRatio", [OmitEmpty, OneOf(ImageAspectRatios)]),
     Plain("AddWatermark", []),
     Plain("EnhancePrompt", []),
     Plain("GuidanceScale", [OmitEmpty, Min("1.0", 1.0), Max("20.0", 20.0)]),
     Plain("NegativePrompt", [OmitEmpty, Max("500", 500.0)]),
     Plain("NumberOfImages", numberOfImages),
     Plain("OutputMimeType", [OmitEmpty, OneOf(ImageMimeTypes)]),
     Plain("PersonGeneration", [OmitEmpty, OneOf(ImagePersonGeneration)]),
     Plain("IncludeRaiReason", []),
     Plain("SafetyFilterLevel", [OmitEmpty, OneOf(SafetyFilterLevels)]),
     Plain("IncludeSafetyAttributes", []),
     Plain("OutputCompressionQuality", [OmitEmpty, Min("1", 1.0), Max("100", 100.0)])]
  }

  /** GenerateImageImagenParams: ImageSize one of 1K, 2K; one to four images. */
  const ImagenSchema: seq<FieldSpec> :=
    ImagenFields([OmitEmpty, OneOf(ImageSizes)], [OmitEmpty, Min("1", 1.0), Max("4", 4.0)])

  /** GenerateImageImagenFastParams: ImageSize only 1K; one to four images. */
  const ImagenFastSchema: seq<FieldSpec> :=
    ImagenFields([OmitEmpty, Eq("1K", 0.0)], [OmitEmpty, Min("1", 1.0), Max("4", 4.0)])

  /** GenerateImageImagenUltraParams: ImageSize one of 1K, 2K; one image. */
  const ImagenUltraSchema: seq<FieldSpec> :=
    ImagenFields([OmitEmpty, OneOf(ImageSizes)], [OmitEmpty, Eq("1", 1.0)])

  /** The constraints the three Imagen types share. A zero number or empty
      string means "not given" and is always allowed, except for the
      prompt, which must hold 1 to 2000 characters. */
  predicate ImagenCommonValid(p: ImagenParams)
  {
    && 1 <= |p.prompt| <= 2000
    && (p.seed.Some? ==> 0 <= p.seed.value <= 4294967295)
    && (p.language != "" ==> |p.language| == 2)
    && (p.aspectRatio != "" ==> p.aspectRatio in ImageAspectRatios)
    && (p.guidanceScale != 0.0 ==> 1.0 <= p.guidanceScale <= 20.0)
    && |p.negativePrompt| <= 500
    && (p.outputMimeType != "" ==> p.outputMimeType in ImageMimeTypes)
    && (p.personGeneration != "" ==> p.personGeneration in ImagePersonGeneration)
    && (p.safetyFilterLevel != "" ==> p.safetyFilterLevel in SafetyFilterLevels)
    && (p.outputCompressionQuality != 0 ==> 1 <= p.outputCompressionQuality <= 100)
  }

  predicate ImagenValid(p: ImagenParams)
  {
    && ImagenCommonValid(p)
    && (p.imageSize != "" ==> p.imageSize in ImageSizes)
    && (p.numberOfImages != 0 ==> 1 <= p.numberOfImages <= 4)
  }

  predicate ImagenFastValid(p: ImagenParams)
  {
    && ImagenCommonValid(p)
    && (p.imageSize != "" ==> p.imageSize == "1K")
    && (p.numberOfImages != 0 ==> 1 <= p.numberOfImages <= 4)
  }

  predicate ImagenUltraValid(p: ImagenParams)
  {
    && ImagenCommonValid(p)
    && (p.imageSize != "" ==> p.imageSize in ImageSizes)
    && (p.numberOfImages != 0 ==> p.numberOfImages == 1)
  }

  /** The first two Imagen fields: prompt and seed. */
  lemma ImagenHeadFields(p: ImagenParams, sizeTags: seq<Tag>, countTags: seq<Tag>, ns: string)
    ensures ValidateFrom(ImagenFields(sizeTags, countTags), ImagenValues(p), ns, 0) == [] <==>
      && 1 <= |p.prompt| <= 2000
      && (p.seed.Some? ==> 0 <= p.seed.value <= 4294967295)
      && ValidateFrom(ImagenFields(sizeTags, countTags), ImagenValues(p), ns, 2) == []
  {
    var specs := ImagenFields(sizeTags, countTags);
    var vals := ImagenValues(p);
    assert ValidateFrom(specs, vals, ns, 0) == [] <==> 1 <= |p.prompt| <= 2000 && ValidateFrom(specs, vals, ns, 1) == [] by {
      ValidateFromStep(specs, vals, ns, 0);
      RequiredStringBetween(specs[0], p.prompt, "1", 1.0, "2000", 2000.0, ns, specs, vals);
    }
    assert ValidateFrom(specs, vals, ns, 1) == [] <==> (p.seed.Some? ==> 0 <= p.seed.value <= 4294967295) && ValidateFrom(specs, vals, ns, 2) == [] by {
      ValidateFromStep(specs, vals, ns, 1);
      OptionalIntPtrBetween(specs[1], p.seed, "0", 0.0, "4294967295", 4294967295.0, ns, specs, vals);
    }
  }

  /** Imagen fields 2 and 3: style and language. */
  lemma ImagenStyleFields(p: ImagenParams, sizeTags: seq<Tag>, countTags: seq<Tag>, ns: string)
    ensures ValidateFrom(ImagenFields(sizeTags, countTags), ImagenValues(p), ns, 2) == [] <==>
      && (p.language != "" ==> |p.language| == 2)
      && ValidateFrom(ImagenFields(sizeTags, countTags), ImagenValues(p), ns, 4) == []
  {
    var specs := ImagenFields(sizeTags, countTags);
    var vals := ImagenValues(p);
    assert ValidateFrom(specs, vals, ns, 2) == [] <==> ValidateFrom(specs, vals, ns, 3) == [] by {
      ValidateFromStep(specs, vals, ns, 2);
      UntaggedNeverFails(specs[2], vals[2], ns, specs, vals);
    }
    assert ValidateFrom(specs, vals, ns, 3) == [] <==> (p.language != "" ==> |p.language| == 2) && ValidateFrom(specs, vals, ns, 4) == [] by {
      ValidateFromStep(specs, vals, ns, 3);
      OptionalStringLen(specs[3], p.language, "2", 2.0, ns, specs, vals);
    }
  }

  /** Imagen fields 5 to 7: aspect ratio and the two flags. */
  lemma ImagenMiddleFields(p: ImagenParams, sizeTags: seq<Tag>, countTags: seq<Tag>, ns: string)
    ensures ValidateFrom(ImagenFields(sizeTags, countTags), ImagenValues(p), ns, 5) == [] <==>
      && (p.aspectRatio != "" ==> p.aspectRatio in ImageAspectRatios)
      && ValidateFrom(ImagenFields(sizeTags, countTags), ImagenValues(p), ns, 8) == []
  {
    var specs := ImagenFields(sizeTags, countTags);
    var vals := ImagenValues(p);
    assert ValidateFrom(specs, vals, ns, 5) == [] <==> (p.aspectRatio != "" ==> p.aspectRatio in ImageAspectRatios) && ValidateFrom(specs, vals, ns, 6) == [] by {
      ValidateFromStep(specs, vals, ns, 5);
      OptionalStringOneOf(specs[5], p.aspectRatio, ImageAspectRatios, ns, specs, vals);
    }
    assert ValidateFrom(specs, vals, ns, 6) == [] <==> ValidateFrom(specs, vals, ns, 7) == [] by {
      ValidateFromStep(specs, vals, ns, 6);
      UntaggedNeverFails(specs[6], vals[6], ns, specs, vals);
    }
    assert ValidateFrom(specs, vals, ns, 7) == [] <==> ValidateFrom(specs, vals, ns, 8) == [] by {
      ValidateFromStep(specs, vals, ns, 7);
      UntaggedNeverFails(specs[7], vals[7], ns, specs, vals);
    }
  }

  /** Imagen fields 8 and 9: guidance scale and negative prompt. */
  lemma ImagenGuidanceFields(p: ImagenParams, sizeTags: seq<Tag>, countTags: seq<Tag>, ns: string)
    ensures ValidateFrom(ImagenFields(sizeTags, countTags), ImagenValues(p), ns, 8) == [] <==>
      && (p.guidanceScale != 0.0 ==> 1.0 <= p.guidanceScale <= 20.0)
      && |p.negativePrompt| <= 500
      && ValidateFrom(ImagenFields(sizeTags, countTags), ImagenValues(p), ns, 10) == []
  {
    var specs := ImagenFields(sizeTags, countTags);
    var vals := ImagenValues(p);
    assert ValidateFrom(specs, vals, ns, 8) == [] <==> (p.guidanceScale != 0.0 ==> 1.0 <= p.guidanceScale <= 20.0) && ValidateFrom(specs, vals, ns, 9) == [] by {
      ValidateFromStep(specs, vals, ns, 8);
      OptionalFloatBetween(specs[8], p.guidanceScale, "1.0", 1.0, "20.0", 20.0, ns, specs, vals);
    }
    assert ValidateFrom(specs, vals, ns, 9) == [] <==> |p.negativePrompt| <= 500 && ValidateFrom(specs, vals, ns, 10) == [] by {
      ValidateFromStep(specs, vals, ns, 9);
      OptionalStringMax(specs[9], p.negativePrompt, "500", 500.0, ns, specs, vals);
    }
  }

  /** Imagen fields 11 to 13: MIME type, person generation and the RAI
      reason flag. */
  lemma ImagenOutputFields(p: ImagenParams, sizeTags: seq<Tag>, countTags: seq<Tag>, ns: string)
    ensures ValidateFrom(ImagenFields(sizeTags, countTags), ImagenValues(p), ns, 11) == [] <==>
      && (p.outputMimeType != "" ==> p.outputMimeType in ImageMimeTypes)
      && (p.personGeneration != "" ==> p.personGeneration in ImagePersonGeneration)
      && ValidateFrom(ImagenFields(sizeTags, countTags), ImagenValues(p), ns, 14) == []
  {
    var specs := ImagenFields(sizeTags, countTags);
    var vals := ImagenValues(p);
    assert ValidateFrom(specs, vals, ns, 11) == [] <==> (p.outputMimeType != "" ==> p.outputMimeType in ImageMimeTypes) && ValidateFrom(specs, vals, ns, 12) == [] by {
      ValidateFromStep(specs, vals, ns, 11);
      OptionalStringOneOf(specs[11], p.outputMimeType, ImageMimeTypes, ns, specs, vals);
    }
    assert ValidateFrom(specs, vals, ns, 12) == [] <==> (p.personGeneration != "" ==> p.personGeneration in ImagePersonGeneration) && ValidateFrom(specs, vals, ns, 13) == [] by {
      ValidateFromStep(specs, vals, ns, 12);
      OptionalStringOneOf(specs[12], p.personGeneration, ImagePersonGeneration, ns, specs, vals);
    }
    assert ValidateFrom(specs, vals, ns, 13) == [] <==> ValidateFrom(specs, vals, ns, 14) == [] by {
      ValidateFromStep(specs, vals, ns, 13);
      UntaggedNeverFails(specs[13], vals[13], ns, specs, vals);
    }
  }

  /** The last three Imagen fields: the safety settings and the compression
      quality. */
  lemma ImagenTailFields(p: ImagenParams, sizeTags: seq<Tag>, countTags: seq<Tag>, ns: string)
    ensures ValidateFrom(ImagenFields(sizeTags, countTags), ImagenValues(p), ns, 14) == [] <==>
      && (p.safetyFilterLevel != "" ==> p.safetyFilterLevel in SafetyFilterLevels)
      && (p.outputCompressionQuality != 0 ==> 1 <= p.outputCompressionQuality <= 100)
  {
    var specs := ImagenFields(sizeTags, countTags);
    var vals := ImagenValues(p);
    assert ValidateFrom(specs, vals, ns, 14) == [] <==> (p.safetyFilterLevel != "" ==> p.safetyFilterLevel in SafetyFilterLevels) && ValidateFrom(specs, vals, ns, 15) == [] by {
      ValidateFromStep(specs, vals, ns, 14);
      OptionalStringOneOf(specs[14], p.safetyFilterLevel, SafetyFilterLevels, ns, specs, vals);
    }
    assert ValidateFrom(specs, vals, ns, 15) == [] <==> ValidateFrom(specs, vals, ns, 16) == [] by {
      ValidateFromStep(specs, vals, ns, 15);
      UntaggedNeverFails(specs[15], vals[15], ns, specs, vals);
    }
    assert ValidateFrom(specs, vals, ns, 16) == [] <==> (p.outputCompressionQuality != 0 ==> 1 <= p.outputCompressionQuality <= 100) && ValidateFrom(specs, vals, ns, 17) == [] by {
      ValidateFromStep(specs, vals, ns, 16);
      OptionalIntBetween(specs[16], p.outputCompressionQuality, "1", 1.0, "100", 100.0, ns, specs, vals);
    }
    ValidateFromEnd(specs, vals, ns, 17);
  }

  /** The Imagen fields shared by all three variants, chained around the
      two fields in which they differ. */
  lemma ImagenChain(p: ImagenParams, sizeTags: seq<Tag>, countTags: seq<Tag>, ns: string, sizeOk: bool, countOk: bool)
    requires ValidateFrom(ImagenFields(sizeTags, countTags), ImagenValues(p), ns, 4) == [] <==>
      sizeOk && ValidateFrom(ImagenFields(sizeTags, countTags), ImagenValues(p), ns, 5) == []
    requires ValidateFrom(ImagenFields(sizeTags, countTags), ImagenValues(p), ns, 10) == [] <==>
      countOk && ValidateFrom(ImagenFields(sizeTags, countTags), ImagenValues(p), ns, 11) == []
    ensures ValidateFrom(ImagenFields(sizeTags, countTags), ImagenValues(p), ns, 0) == [] <==>
      ImagenCommonValid(p) && sizeOk && countOk
  {
    ImagenHeadFields(p, sizeTags, countTags, ns);
    ImagenStyleFields(p, sizeTags, countTags, ns);
    ImagenMiddleFields(p, sizeTags, countTags, ns);
    ImagenGuidanceFields(p, sizeTags, countTags, ns);
    ImagenOutputFields(p, sizeTags, countTags, ns);
    ImagenTailFields(p, sizeTags, countTags, ns);
  }

  /** The two fields in which GenerateImageImagenParams differs from the other Imagen
      types: image size and number of images. */
  lemma ImagenVaryingFields(p: ImagenParams, ns: string)
    ensures ValidateFrom(ImagenFields([OmitEmpty, OneOf(ImageSizes)], [OmitEmpty, Min("1", 1.0), Max("4", 4.0)]), ImagenValues(p), ns, 4) == [] <==>
      (p.imageSize != "" ==> p.imageSize in ImageSizes) && ValidateFrom(ImagenFields([OmitEmpty, OneOf(ImageSizes)], [OmitEmpty, Min("1", 1.0), Max("4", 4.0)]), ImagenValues(p), ns, 5) == []
    ensures ValidateFrom(ImagenFields([OmitEmpty, OneOf(ImageSizes)], [OmitEmpty, Min("1", 1.0), Max("4", 4.0)]), ImagenValues(p), ns, 10) == [] <==>
      (p.numberOfImages != 0 ==> 1 <= p.numberOfImages <= 4) && ValidateFrom(ImagenFields([OmitEmpty, OneOf(ImageSizes)], [OmitEmpty, Min("1", 1.0), Max("4", 4.0)]), ImagenValues(p), ns, 11) == []
  {
    var specs := ImagenFields([OmitEmpty, OneOf(ImageSizes)], [OmitEmpty, Min("1", 1.0), Max("4", 4.0)]);
    var vals := ImagenValues(p);
    assert ValidateFrom(specs, vals, ns, 4) == [] <==>
      (p.imageSize != "" ==> p.imageSize in ImageSizes) && ValidateFrom(specs, vals, ns, 5) == [] by {
      ValidateFromStep(specs, vals, ns, 4);
      OptionalStringOneOf(specs[4], p.imageSize, ImageSizes, ns, specs, vals);
    }
    ValidateFromStep(specs, vals, ns, 10);
    OptionalIntBetween(specs[10], p.numberOfImages, "1", 1.0, "4", 4.0, ns, specs, vals);
  }

  /** validate.Struct accepts a GenerateImageImagenParams exactly when
      ImagenValid holds. */
  lemma ImagenSchemaMeaning(p: ImagenParams, ns: string)
    ensures ValidateFrom(ImagenSchema, ImagenValues(p), ns, 0) == [] <==> ImagenValid(p)
  {
    var sizeTags := [OmitEmpty, OneOf(ImageSizes)];
    var countTags := [OmitEmpty, Min("1", 1.0), Max("4", 4.0)];
    assert ImagenSchema == ImagenFields(sizeTags, countTags);
    ImagenVaryingFields(p, ns);
    ImagenChain(p, sizeTags, countTags, ns, p.imageSize != "" ==> p.imageSize in ImageSizes, p.numberOfImages != 0 ==> 1 <= p.numberOfImages <= 4);
  }

  /** The two fields in which GenerateImageImagenFastParams differs from the other Imagen
      types: image size and number of images. */
  lemma ImagenFastVaryingFields(p: ImagenParams, ns: string)
    ensures ValidateFrom(ImagenFields([OmitEmpty, Eq("1K", 0.0)], [OmitEmpty, Min("1", 1.0), Max("4", 4.0)]), ImagenValues(p), ns, 4) == [] <==>
      (p.imageSize != "" ==> p.imageSize == "1K") && ValidateFrom(ImagenFields([OmitEmpty, Eq("1K", 0.0)], [OmitEmpty, Min("1", 1.0), Max("4", 4.0)]), ImagenValues(p), ns, 5) == []
    ensures ValidateFrom(ImagenFields([OmitEmpty, Eq("1K", 0.0)], [OmitEmpty, Min("1", 1.0), Max("4", 4.0)]), ImagenValues(p), ns, 10) == [] <==>
      (p.numberOfImages != 0 ==> 1 <= p.numberOfImages <= 4) && ValidateFrom(ImagenFields([OmitEmpty, Eq("1K", 0.0)], [OmitEmpty, Min("1", 1.0), Max("4", 4.0)]), ImagenValues(p), ns, 11) == []
  {
    var specs := ImagenFields([OmitEmpty, Eq("1K", 0.0)], [OmitEmpty, Min("1", 1.0), Max("4", 4.0)]);
    var vals := ImagenValues(p);
    assert ValidateFrom(specs, vals, ns, 4) == [] <==>
      (p.imageSize != "" ==> p.imageSize == "1K") && ValidateFrom(specs, vals, ns, 5) == [] by {
      ValidateFromStep(specs, vals, ns, 4);
      OptionalStringEq(specs[4], p.imageSize, "1K", 0.0, ns, specs, vals);
    }
    ValidateFromStep(specs, vals, ns, 10);
    OptionalIntBetween(specs[10], p.numberOfImages, "1", 1.0, "4", 4.0, ns, specs, vals);
  }

  /** validate.Struct accepts a GenerateImageImagenFastParams exactly when
      ImagenFastValid holds. */
  lemma ImagenFastSchemaMeaning(p: ImagenParams, ns: string)
    ensures ValidateFrom(ImagenFastSchema, ImagenValues(p), ns, 0) == [] <==> ImagenFastValid(p)
  {
    var sizeTags := [OmitEmpty, Eq("1K", 0.0)];
    var countTags := [OmitEmpty, Min("1", 1.0), Max("4", 4.0)];
    assert ImagenFastSchema == ImagenFields(sizeTags, countTags);
    ImagenFastVaryingFields(p, ns);
    ImagenChain(p, sizeTags, countTags, ns, p.imageSize != "" ==> p.imageSize == "1K", p.numberOfImages != 0 ==> 1 <= p.numberOfImages <= 4);
  }

  /** The two fields in which GenerateImageImagenUltraParams differs from the other Imagen
      types: image size and number of images. */
  lemma ImagenUltraVaryingFields(p: ImagenParams, ns: string)
    ensures ValidateFrom(ImagenFields([OmitEmpty, OneOf(ImageSizes)], [OmitEmpty, Eq("1", 1.0)]), ImagenValues(p), ns, 4) == [] <==>
      (p.imageSize != "" ==> p.imageSize in ImageSizes) && ValidateFrom(ImagenFields([OmitEmpty, OneOf(ImageSizes)], [OmitEmpty, Eq("1", 1.0)]), ImagenValues(p), ns, 5) == []
    ensures ValidateFrom(ImagenFields([OmitEmpty, OneOf(ImageSizes)], [OmitEmpty, Eq("1", 1.0)]), ImagenValues(p), ns, 10) == [] <==>
      (p.numberOfImages != 0 ==> p.numberOfImages == 1) && ValidateFrom(ImagenFields([OmitEmpty, OneOf(ImageSizes)], [OmitEmpty, Eq("1", 1.0)]), ImagenValues(p), ns, 11) == []
  {
    var specs := ImagenFields([OmitEmpty, OneOf(ImageSizes)], [OmitEmpty, Eq("1", 1.0)]);
    var vals := ImagenValues(p);
    assert ValidateFrom(specs, vals, ns, 4) == [] <==>
      (p.imageSize != "" ==> p.imageSize in ImageSizes) && ValidateFrom(specs, vals, ns, 5) == [] by {
      ValidateFromStep(specs, vals, ns, 4);
      OptionalStringOneOf(specs[4], p.imageSize, ImageSizes, ns, specs, vals);
    }
    ValidateFromStep(specs, vals, ns, 10);
    OptionalIntEq(specs[10], p.numberOfImages, "1", 1.0, ns, specs, vals);
  }

  /** validate.Struct accepts a GenerateImageImagenUltraParams exactly when
      ImagenUltraValid holds. */
  lemma ImagenUltraSchemaMeaning(p: ImagenParams, ns: string)
    ensures ValidateFrom(ImagenUltraSchema, ImagenValues(p), ns, 0) == [] <==> ImagenUltraValid(p)
  {
    var sizeTags := [OmitEmpty, OneOf(ImageSizes)];
    var countTags := [OmitEmpty, Eq("1", 1.0)];
    assert ImagenUltraSchema == ImagenFields(sizeTags, countTags);
    ImagenUltraVaryingFields(p, ns);
    ImagenChain(p, sizeTags, countTags, ns, p.imageSize != "" ==> p.imageSize in ImageSizes, p.numberOfImages != 0 ==> p.numberOfImages == 1);
  }

  /** The variants are ordered by strictness: what Fast or Ultra accepts,
      the standard Imagen tool accepts too. */
  lemma ImagenVariantsNarrower(p: ImagenParams)
    ensures ImagenFastValid(p) ==> ImagenValid(p)
    ensures ImagenUltraValid(p) ==> ImagenValid(p)
  {
  }
  // === Flash ===

  datatype FlashParams = FlashParams(prompt: string, style: string, width: int, height: int)

  function FlashValues(p: FlashParams): seq<Value>
  {
    [Str(p.prompt), Str(p.style), Int(p.width), Int(p.height)]
  }

  /** GenerateImageFlashParams: only the prompt is tagged. */
  const FlashSchema: seq<FieldSpec> :=
    [Plain("Prompt", [Required]), Plain("Style", []), Plain("Width", []), Plain("Height", [])]

  predicate FlashValid(p: FlashParams)
  {
    p.prompt != ""
  }

  /** validate.Struct accepts a GenerateImageFlashParams exactly when its
      prompt is non-empty. */
  lemma FlashSchemaMeaning(p: FlashParams, ns: string)
    ensures ValidateFrom(FlashSchema, FlashValues(p), ns, 0) == [] <==>
      && (FlashValid(p))
  {
    var specs := FlashSchema;
    var vals := FlashValues(p);
    assert ValidateFrom(specs, vals, ns, 0) == [] <==>
      (FlashValid(p)) && ValidateFrom(specs, vals, ns, 1) == [] by {
      ValidateFromStep(specs, vals, ns, 0);
      RequiredString(specs[0], p.prompt, ns, specs, vals);
    }
    assert ValidateFrom(specs, vals, ns, 1) == [] <==>
      ValidateFrom(specs, vals, ns, 2) == [] by {
      ValidateFromStep(specs, vals, ns, 1);
      UntaggedNeverFails(specs[1], vals[1], ns, specs, vals);
    }
    assert ValidateFrom(specs, vals, ns, 2) == [] <==>
      ValidateFrom(specs, vals, ns, 3) == [] by {
      ValidateFromStep(specs, vals, ns, 2);
      UntaggedNeverFails(specs[2], vals[2], ns, specs, vals);
    }
    assert ValidateFrom(specs, vals, ns, 3) == [] <==>
      ValidateFrom(specs, vals, ns, 4) == [] by {
      ValidateFromStep(specs, vals, ns, 3);
      UntaggedNeverFails(specs[3], vals[3], ns, specs, vals);
    }
    ValidateFromEnd(specs, vals, ns, 4);
  }

  /** GeneralImageFlashParams: two untagged URLs. */
  datatype GeneralImageFlashParams = GeneralImageFlashParams(backgroundUrl: string, foregroundUrl: string)

  function GeneralImageFlashValues(p: GeneralImageFlashParams): seq<Value>
  {
    [Str(p.backgroundUrl), Str(p.foregroundUrl)]
  }

  const GeneralImageFlashSchema: seq<FieldSpec> := [Plain("BackgroundURL", []), Plain("ForegroundURL", [])]

  /** No GeneralImageFlashParams value violates its (empty) tags. */
  lemma GeneralImageFlashUnconstrained(p: GeneralImageFlashParams, ns: string)
    ensures ValidateFrom(GeneralImageFlashSchema, GeneralImageFlashValues(p), ns, 0) == []
  {
    var specs := GeneralImageFlashSchema;
    var vals := GeneralImageFlashValues(p);
    ValidateFromStep(specs, vals, ns, 0);
    UntaggedNeverFails(specs[0], vals[0], ns, specs, vals);
    ValidateFromStep(specs, vals, ns, 1);
    UntaggedNeverFails(specs[1], vals[1], ns, specs, vals);
    ValidateFromEnd(specs, vals, ns, 2);
  }

  // === Veo3 ===

  const VideoFps: seq<string> := ["24", "30", "60"]
  const VideoResolutions: seq<string> := ["720p", "1080p"]
  const VideoAspectRatios: seq<string> := ["16:9", "9:16"]
  const VideoPersonGeneration: seq<string> := ["allow_adult", "dont_allow"]
  const CompressionQualities: seq<string> := ["low", "medium", "high"]

  /** `oneof=24 30 60` on an int compares its decimal form, which picks out
      exactly the three frame rates. */
  lemma FpsChoices(i: int)
    ensures IntToString(i) in VideoFps <==> i == 24 || i == 30 || i == 60
  {
    assert NatToString(24) == "24" by { assert NatToString(2) == "2"; }
    assert NatToString(30) == "30" by { assert NatToString(3) == "3"; }
    assert NatToString(60) == "60" by { assert NatToString(6) == "6"; }
    IntToStringInjective(i, 24);
    IntToStringInjective(i, 30);
    IntToStringInjective(i, 60);
  }

  /** GenerateVideoVeo3Params, also used as GenerateVideoVeo3NoAudioParams. */
  datatype Veo3Params = Veo3Params(
    prompt: string, image: Option<MediaReference>, lastFrame: Option<MediaReference>, seed: Option<int>,
    fps: int, duration: int, resolution: string, aspectRatio: string, sampleCount: int,
    enhancePrompt: bool, generateAudio: bool, negativePrompt: string, personGeneration: string,
    compressionQuality: string)

  function Veo3Values(p: Veo3Params): seq<Value>
  {
    [Str(p.prompt), MediaReferencePtr(p.image), MediaReferencePtr(p.lastFrame), IntPtr(p.seed),
     Int(p.fps), Int(p.duration), Str(p.resolution), Str(p.aspectRatio), Int(p.sampleCount),
     Bool(p.enhancePrompt), Bool(p.generateAudio), Str(p.negativePrompt), Str(p.personGeneration),
     Str(p.compressionQuality)]
  }

  const Veo3Schema: seq<FieldSpec> :=
    [Plain("Prompt", [RequiredWithout("Image"), OmitEmpty, Min("10", 10.0), Max("2000", 2000.0)]),
     FieldSpec("Image", [RequiredWithout("Prompt")], MediaReferenceSchema),
     FieldSpec("LastFrame", [], MediaReferenceSchema),
     Plain("Seed", [OmitEmpty, Min("0", 0.0), Max("4294967295", 4294967295.0)]),
     Plain("FPS", [OmitEmpty, OneOf(VideoFps)]),
     Plain("Duration", [OmitEmpty, Min("5", 5.0), Max("8", 8.0)]),
     Plain("Resolution", [OmitEmpty, OneOf(VideoResolutions)]),
     Plain("AspectRatio", [OmitEmpty, OneOf(VideoAspectRatios)]),
     Plain("SampleCount", [OmitEmpty, Min("1", 1.0), Max("4", 4.0)]),
     Plain("EnhancePrompt", []),
     Plain("GenerateAudio", []),
     Plain("NegativePrompt", [OmitEmpty, Max("500", 500.0)]),
     Plain("PersonGeneration", [OmitEmpty, OneOf(VideoPersonGeneration)]),
     Plain("CompressionQuality", [OmitEmpty, OneOf(CompressionQualities)])]

  /** The prompt is needed only without an image and the image only without
      a prompt; a given prompt has 10 to 2000 characters; given media
      references must be valid. */
  predicate Veo3InputsValid(p: Veo3Params)
  {
    && (p.image.None? ==> p.prompt != "")
    && (p.prompt != "" ==> 10 <= |p.prompt| <= 2000)
    && (p.image.Some? ==> MediaReferenceValid(p.image.value))
    && (p.lastFrame.Some? ==> MediaReferenceValid(p.lastFrame.value))
  }

  predicate Veo3Valid(p: Veo3Params)
  {
    && Veo3InputsValid(p)
    && (p.seed.Some? ==> 0 <= p.seed.value <= 4294967295)
    && (p.fps != 0 ==> p.fps == 24 || p.fps == 30 || p.fps == 60)
    && (p.duration != 0 ==> 5 <= p.duration <= 8)
    && (p.resolution != "" ==> p.resolution in VideoResolutions)
    && (p.aspectRatio != "" ==> p.aspectRatio in VideoAspectRatios)
    && (p.sampleCount != 0 ==> 1 <= p.sampleCount <= 4)
    && |p.negativePrompt| <= 500
    && (p.personGeneration != "" ==> p.personGeneration in VideoPersonGeneration)
    && (p.compressionQuality != "" ==> p.compressionQuality in CompressionQualities)
  }

  /** How required_without sees the prompt and the image of Veo3. */
  lemma Veo3Siblings(p: Veo3Params)
    ensures SiblingAbsent("Image", Veo3Schema, Veo3Values(p)) <==> p.image.None?
    ensures SiblingAbsent("Prompt", Veo3Schema, Veo3Values(p)) <==> p.prompt == ""
  {
    SiblingAt("Image", Veo3Schema, Veo3Values(p), 1);
    SiblingAt("Prompt", Veo3Schema, Veo3Values(p), 0);
  }

  /** The Veo3 prompt: required without an image, 10 to 2000 characters when
      given. */
  lemma Veo3PromptField(p: Veo3Params, ns: string)
    ensures ValidateFrom(Veo3Schema, Veo3Values(p), ns, 0) == [] <==>
      && ((p.image.None? ==> p.prompt != "") && (p.prompt != "" ==> 10 <= |p.prompt| <= 2000))
      && ValidateFrom(Veo3Schema, Veo3Values(p), ns, 1) == []
  {
    var specs := Veo3Schema;
    var vals := Veo3Values(p);
    assert ValidateFrom(specs, vals, ns, 0) == [] <==>
      ((p.image.None? ==> p.prompt != "") && (p.prompt != "" ==> 10 <= |p.prompt| <= 2000)) && ValidateFrom(specs, vals, ns, 1) == [] by {
      ValidateFromStep(specs, vals, ns, 0);
      StringRequiredWithoutBetween(specs[0], p.prompt, "Image", "10", 10.0, "2000", 2000.0, ns, specs, vals);
      Veo3Siblings(p);
    }
  }

  /** The Veo3 image: required without a prompt, and a valid media reference
      when given. */
  lemma Veo3ImageField(p: Veo3Params, ns: string)
    ensures ValidateFrom(Veo3Schema, Veo3Values(p), ns, 1) == [] <==>
      && ((p.image.None? ==> p.prompt != "") && (p.image.Some? ==> MediaReferenceValid(p.image.value)))
      && ValidateFrom(Veo3Schema, Veo3Values(p), ns, 2) == []
  {
    var specs := Veo3Schema;
    var vals := Veo3Values(p);
    assert ValidateFrom(specs, vals, ns, 1) == [] <==>
      ((p.image.None? ==> p.prompt != "") && (p.image.Some? ==> MediaReferenceValid(p.image.value))) && ValidateFrom(specs, vals, ns, 2) == [] by {
      ValidateFromStep(specs, vals, ns, 1);
      StructPtrRequiredWithout(specs[1], if p.image.Some? then Some(MediaReferenceValues(p.image.value)) else None, "Prompt", ns, specs, vals);
      Veo3Siblings(p);
      if p.image.Some? {
        MediaReferenceSchemaMeaning(p.image.value, ns + "." + specs[1].name);
      }
    }
  }

  /** The Veo3 last frame: a valid media reference when given. */
  lemma Veo3LastFrameField(p: Veo3Params, ns: string)
    ensures ValidateFrom(Veo3Schema, Veo3Values(p), ns, 2) == [] <==>
      && (p.lastFrame.Some? ==> MediaReferenceValid(p.lastFrame.value))
      && ValidateFrom(Veo3Schema, Veo3Values(p), ns, 3) == []
  {
    var specs := Veo3Schema;
    var vals := Veo3Values(p);
    assert ValidateFrom(specs, vals, ns, 2) == [] <==>
      (p.lastFrame.Some? ==> MediaReferenceValid(p.lastFrame.value)) && ValidateFrom(specs, vals, ns, 3) == [] by {
      ValidateFromStep(specs, vals, ns, 2);
      OptionalStructPtr(specs[2], if p.lastFrame.Some? then Some(MediaReferenceValues(p.lastFrame.value)) else None, ns, specs, vals);
      if p.lastFrame.Some? {
        MediaReferenceSchemaMeaning(p.lastFrame.value, ns + "." + specs[2].name);
      }
    }
  }

  /** The Veo3 frame rate: zero, or one of 24, 30 and 60. */
  lemma Veo3FpsField(p: Veo3Params, ns: string)
    ensures ValidateFrom(Veo3Schema, Veo3Values(p), ns, 4) == [] <==>
      (p.fps != 0 ==> p.fps == 24 || p.fps == 30 || p.fps == 60) && ValidateFrom(Veo3Schema, Veo3Values(p), ns, 5) == []
  {
    var specs := Veo3Schema;
    var vals := Veo3Values(p);
    ValidateFromStep(specs, vals, ns, 4);
    OptionalIntOneOf(specs[4], p.fps, VideoFps, ns, specs, vals);
    FpsChoices(p.fps);
  }

  /** Veo3 fields 3 to 7: seed, frame rate, duration, resolution and aspect
      ratio. */
  lemma Veo3SettingFields(p: Veo3Params, ns: string)
    ensures ValidateFrom(Veo3Schema, Veo3Values(p), ns, 3) == [] <==>
      && (p.seed.Some? ==> 0 <= p.seed.value <= 4294967295)
      && (p.fps != 0 ==> p.fps == 24 || p.fps == 30 || p.fps == 60)
      && (p.duration != 0 ==> 5 <= p.duration <= 8)
      && (p.resolution != "" ==> p.resolution in VideoResolutions)
      && (p.aspectRatio != "" ==> p.aspectRatio in VideoAspectRatios)
      && ValidateFrom(Veo3Schema, Veo3Values(p), ns, 8) == []
  {
    var specs := Veo3Schema;
    var vals := Veo3Values(p);
    assert ValidateFrom(specs, vals, ns, 3) == [] <==>
      (p.seed.Some? ==> 0 <= p.seed.value <= 4294967295) && ValidateFrom(specs, vals, ns, 4) == [] by {
      ValidateFromStep(specs, vals, ns, 3);
      OptionalIntPtrBetween(specs[3], p.seed, "0", 0.0, "4294967295", 4294967295.0, ns, specs, vals);
    }
    Veo3FpsField(p, ns);
    assert ValidateFrom(specs, vals, ns, 5) == [] <==>
      (p.duration != 0 ==> 5 <= p.duration <= 8) && ValidateFrom(specs, vals, ns, 6) == [] by {
      ValidateFromStep(specs, vals, ns, 5);
      OptionalIntBetween(specs[5], p.duration, "5", 5.0, "8", 8.0, ns, specs, vals);
    }
    assert ValidateFrom(specs, vals, ns, 6) == [] <==>
      (p.resolution != "" ==> p.resolution in VideoResolutions) && ValidateFrom(specs, vals, ns, 7) == [] by {
      ValidateFromStep(specs, vals, ns, 6);
      OptionalStringOneOf(specs[6], p.resolution, VideoResolutions, ns, specs, vals);
    }
    assert ValidateFrom(specs, vals, ns, 7) == [] <==>
      (p.aspectRatio != "" ==> p.aspectRatio in VideoAspectRatios) && ValidateFrom(specs, vals, ns, 8) == [] by {
      ValidateFromStep(specs, vals, ns, 7);
      OptionalStringOneOf(specs[7], p.aspectRatio, VideoAspectRatios, ns, specs, vals);
    }
  }

  /** Veo3 fields 8 to 13: sample count, the two flags, negative prompt,
      person generation and compression quality. */
  lemma Veo3OutputFields(p: Veo3Params, ns: string)
    ensures ValidateFrom(Veo3Schema, Veo3Values(p), ns, 8) == [] <==>
      && (p.sampleCount != 0 ==> 1 <= p.sampleCount <= 4)
      && (|p.negativePrompt| <= 500)
      && (p.personGeneration != "" ==> p.personGeneration in VideoPersonGeneration)
      && (p.compressionQuality != "" ==> p.compressionQuality in CompressionQualities)
  {
    var specs := Veo3Schema;
    var vals := Veo3Values(p);
    assert ValidateFrom(specs, vals, ns, 8) == [] <==>
      (p.sampleCount != 0 ==> 1 <= p.sampleCount <= 4) && ValidateFrom(specs, vals, ns, 9) == [] by {
      ValidateFromStep(specs, vals, ns, 8);
      OptionalIntBetween(specs[8], p.sampleCount, "1", 1.0, "4", 4.0, ns, specs, vals);
    }
    assert ValidateFrom(specs, vals, ns, 9) == [] <==>
      ValidateFrom(specs, vals, ns, 10) == [] by {
      ValidateFromStep(specs, vals, ns, 9);
      UntaggedNeverFails(specs[9], vals[9], ns, specs, vals);
    }
    assert ValidateFrom(specs, vals, ns, 10) == [] <==>
      ValidateFrom(specs, vals, ns, 11) == [] by {
      ValidateFromStep(specs, vals, ns, 10);
      UntaggedNeverFails(specs[10], vals[10], ns, specs, vals);
    }
    assert ValidateFrom(specs, vals, ns, 11) == [] <==>
      (|p.negativePrompt| <= 500) && ValidateFrom(specs, vals, ns, 12) == [] by {
      ValidateFromStep(specs, vals, ns, 11);
      OptionalStringMax(specs[11], p.negativePrompt, "500", 500.0, ns, specs, vals);
    }
    assert ValidateFrom(specs, vals, ns, 12) == [] <==>
      (p.personGeneration != "" ==> p.personGeneration in VideoPersonGeneration) && ValidateFrom(specs, vals, ns, 13) == [] by {
      ValidateFromStep(specs, vals, ns, 12);
      OptionalStringOneOf(specs[12], p.personGeneration, VideoPersonGeneration, ns, specs, vals);
    }
    assert ValidateFrom(specs, vals, ns, 13) == [] <==>
      (p.compressionQuality != "" ==> p.compressionQuality in CompressionQualities) && ValidateFrom(specs, vals, ns, 14) == [] by {
      ValidateFromStep(specs, vals, ns, 13);
      OptionalStringOneOf(specs[13], p.compressionQuality, CompressionQualities, ns, specs, vals);
    }
    ValidateFromEnd(specs, vals, ns, 14);
  }

  /** validate.Struct accepts a GenerateVideoVeo3Params exactly when
      Veo3Valid holds. */
  lemma Veo3SchemaMeaning(p: Veo3Params, ns: string)
    ensures ValidateFrom(Veo3Schema, Veo3Values(p), ns, 0) == [] <==> Veo3Valid(p)
  {
    Veo3PromptField(p, ns);
    Veo3ImageField(p, ns);
    Veo3LastFrameField(p, ns);
    Veo3SettingFields(p, ns);
    Veo3OutputFields(p, ns);
  }

  /** GenerateVideoVeo3FastParams, also used as
      GenerateVideoVeo3FastNoAudioParams. */
  datatype Veo3FastParams = Veo3FastParams(
    prompt: string, seed: Option<int>, fps: int, duration: int, aspectRatio: string, sampleCount: int,
    enhancePrompt: bool, generateAudio: bool, negativePrompt: string, personGeneration: string,
    compressionQuality: string)

  function Veo3FastValues(p: Veo3FastParams): seq<Value>
  {
    [Str(p.prompt), IntPtr(p.seed), Int(p.fps), Int(p.duration), Str(p.aspectRatio), Int(p.sampleCount),
     Bool(p.enhancePrompt), Bool(p.generateAudio), Str(p.negativePrompt), Str(p.personGeneration),
     Str(p.compressionQuality)]
  }

  const Veo3FastSchema: seq<FieldSpec> :=
    [Plain("Prompt", [Required, Min("10", 10.0), Max("2000", 2000.0)]),
     Plain("Seed", [OmitEmpty, Min("0", 0.0), Max("4294967295", 4294967295.0)]),
     Plain("FPS", [OmitEmpty, OneOf(VideoFps)]),
     Plain("Duration", [OmitEmpty, Min("5", 5.0), Max("8", 8.0)]),
     Plain("AspectRatio", [OmitEmpty, OneOf(VideoAspectRatios)]),
     Plain("SampleCount", [OmitEmpty, Min("1", 1.0), Max("4", 4.0)]),
     Plain("EnhancePrompt", []),
     Plain("GenerateAudio", []),
     Plain("NegativePrompt", [OmitEmpty, Max("500", 500.0)]),
     Plain("PersonGeneration", [OmitEmpty, OneOf(VideoPersonGeneration)]),
     Plain("CompressionQuality", [OmitEmpty, OneOf(CompressionQualities)])]

  /** Like Veo3 without image inputs or a resolution, and with the prompt
      always required. */
  predicate Veo3FastValid(p: Veo3FastParams)
  {
    && 10 <= |p.prompt| <= 2000
    && (p.seed.Some? ==> 0 <= p.seed.value <= 4294967295)
    && (p.fps != 0 ==> p.fps == 24 || p.fps == 30 || p.fps == 60)
    && (p.duration != 0 ==> 5 <= p.duration <= 8)
    && (p.aspectRatio != "" ==> p.aspectRatio in VideoAspectRatios)
    && (p.sampleCount != 0 ==> 1 <= p.sampleCount <= 4)
    && |p.negativePrompt| <= 500
    && (p.personGeneration != "" ==> p.personGeneration in VideoPersonGeneration)
    && (p.compressionQuality != "" ==> p.compressionQuality in CompressionQualities)
  }

  /** Veo3Fast fields 0 to 4: prompt, seed, frame rate, duration and aspect
      ratio. */
  lemma Veo3FastHeadFields(p: Veo3FastParams, ns: string)
    ensures ValidateFrom(Veo3FastSchema, Veo3FastValues(p), ns, 0) == [] <==>
      && (10 <= |p.prompt| <= 2000)
      && (p.seed.Some? ==> 0 <= p.seed.value <= 4294967295)
      && (p.fps != 0 ==> p.fps == 24 || p.fps == 30 || p.fps == 60)
      && (p.duration != 0 ==> 5 <= p.duration <= 8)
      && (p.aspectRatio != "" ==> p.aspectRatio in VideoAspectRatios)
      && ValidateFrom(Veo3FastSchema, Veo3FastValues(p), ns, 5) == []
  {
    var specs := Veo3FastSchema;
    var vals := Veo3FastValues(p);
    assert ValidateFrom(specs, vals, ns, 0) == [] <==>
      (10 <= |p.prompt| <= 2000) && ValidateFrom(specs, vals, ns, 1) == [] by {
      ValidateFromStep(specs, vals, ns, 0);
      RequiredStringBetween(specs[0], p.prompt, "10", 10.0, "2000", 2000.0, ns, specs, vals);
    }
    assert ValidateFrom(specs, vals, ns, 1) == [] <==>
      (p.seed.Some? ==> 0 <= p.seed.value <= 4294967295) && ValidateFrom(specs, vals, ns, 2) == [] by {
      ValidateFromStep(specs, vals, ns, 1);
      OptionalIntPtrBetween(specs[1], p.seed, "0", 0.0, "4294967295", 4294967295.0, ns, specs, vals);
    }
    assert ValidateFrom(specs, vals, ns, 2) == [] <==>
      (p.fps != 0 ==> p.fps == 24 || p.fps == 30 || p.fps == 60) && ValidateFrom(specs, vals, ns, 3) == [] by {
      ValidateFromStep(specs, vals, ns, 2);
      OptionalIntOneOf(specs[2], p.fps, VideoFps, ns, specs, vals);
      FpsChoices(p.fps);
    }
    assert ValidateFrom(specs, vals, ns, 3) == [] <==>
      (p.duration != 0 ==> 5 <= p.duration <= 8) && ValidateFrom(specs, vals, ns, 4) == [] by {
      ValidateFromStep(specs, vals, ns, 3);
      OptionalIntBetween(specs[3], p.duration, "5", 5.0, "8", 8.0, ns, specs, vals);
    }
    assert ValidateFrom(specs, vals, ns, 4) == [] <==>
      (p.aspectRatio != "" ==> p.aspectRatio in VideoAspectRatios) && ValidateFrom(specs, vals, ns, 5) == [] by {
      ValidateFromStep(specs, vals, ns, 4);
      OptionalStringOneOf(specs[4], p.aspectRatio, VideoAspectRatios, ns, specs, vals);
    }
  }

  /** Veo3Fast fields 5 to 10: sample count, the two flags, negative
      prompt, person generation and compression quality. */
  lemma Veo3FastTailFields(p: Veo3FastParams, ns: string)
    ensures ValidateFrom(Veo3FastSchema, Veo3FastValues(p), ns, 5) == [] <==>
      && (p.sampleCount != 0 ==> 1 <= p.sampleCount <= 4)
      && (|p.negativePrompt| <= 500)
      && (p.personGeneration != "" ==> p.personGeneration in VideoPersonGeneration)
      && (p.compressionQuality != "" ==> p.compressionQuality in CompressionQualities)
  {
    var specs := Veo3FastSchema;
    var vals := Veo3FastValues(p);
    assert ValidateFrom(specs, vals, ns, 5) == [] <==>
      (p.sampleCount != 0 ==> 1 <= p.sampleCount <= 4) && ValidateFrom(specs, vals, ns, 6) == [] by {
      ValidateFromStep(specs, vals, ns, 5);
      OptionalIntBetween(specs[5], p.sampleCount, "1", 1.0, "4", 4.0, ns, specs, vals);
    }
    assert ValidateFrom(specs, vals, ns, 6) == [] <==>
      ValidateFrom(specs, vals, ns, 7) == [] by {
      ValidateFromStep(specs, vals, ns, 6);
      UntaggedNeverFails(specs[6], vals[6], ns, specs, vals);
    }
    assert ValidateFrom(specs, vals, ns, 7) == [] <==>
      ValidateFrom(specs, vals, ns, 8) == [] by {
      ValidateFromStep(specs, vals, ns, 7);
      UntaggedNeverFails(specs[7], vals[7], ns, specs, vals);
    }
    assert ValidateFrom(specs, vals, ns, 8) == [] <==>
      (|p.negativePrompt| <= 500) && ValidateFrom(specs, vals, ns, 9) == [] by {
      ValidateFromStep(specs, vals, ns, 8);
      OptionalStringMax(specs[8], p.negativePrompt, "500", 500.0, ns, specs, vals);
    }
    assert ValidateFrom(specs, vals, ns, 9) == [] <==>
      (p.personGeneration != "" ==> p.personGeneration in VideoPersonGeneration) && ValidateFrom(specs, vals, ns, 10) == [] by {
      ValidateFromStep(specs, vals, ns, 9);
      OptionalStringOneOf(specs[9], p.personGeneration, VideoPersonGeneration, ns, specs, vals);
    }
    assert ValidateFrom(specs, vals, ns, 10) == [] <==>
      (p.compressionQuality != "" ==> p.compressionQuality in CompressionQualities) && ValidateFrom(specs, vals, ns, 11) == [] by {
      ValidateFromStep(specs, vals, ns, 10);
      OptionalStringOneOf(specs[10], p.compressionQuality, CompressionQualities, ns, specs, vals);
    }
    ValidateFromEnd(specs, vals, ns, 11);
  }

  /** validate.Struct accepts a GenerateVideoVeo3FastParams exactly when
      Veo3FastValid holds. */
  lemma Veo3FastSchemaMeaning(p: Veo3FastParams, ns: string)
    ensures ValidateFrom(Veo3FastSchema, Veo3FastValues(p), ns, 0) == [] <==> Veo3FastValid(p)
  {
    Veo3FastHeadFields(p, ns);
    Veo3FastTailFields(p, ns);
  }

  /** GenerateVideoVeo3FastNoAudioParams is an alias of the Fast type. */
  type Veo3FastNoAudioParams = Veo3FastParams

  /** GenerateVideoVeo3NoAudioParams is an alias of the Veo3 type. */
  type Veo3NoAudioParams = Veo3Params

  // === Lyria ===

  datatype LyriaParams = LyriaParams(prompt: string, seed: Option<int>, sampleCount: int, negativePrompt: string)

  function LyriaValues(p: LyriaParams): seq<Value>
  {
    [Str(p.prompt), IntPtr(p.seed), Int(p.sampleCount), Str(p.negativePrompt)]
  }

  /** GenerateMusicLyriaParams. */
  const LyriaSchema: seq<FieldSpec> :=
    [Plain("Prompt", [Required]),
     Plain("Seed", []),
     Plain("SampleCount", [OmitEmpty, Min("1", 1.0), Max("4", 4.0)]),
     Plain("NegativePrompt", [])]

  /** A prompt, and one to four samples when a count is given; the seed is
      unconstrained. */
  predicate LyriaValid(p: LyriaParams)
  {
    p.prompt != "" && (p.sampleCount != 0 ==> 1 <= p.sampleCount <= 4)
  }

  /** validate.Struct accepts a GenerateMusicLyriaParams exactly when
      LyriaValid holds. */
  lemma LyriaSchemaMeaning(p: LyriaParams, ns: string)
    ensures ValidateFrom(LyriaSchema, LyriaValues(p), ns, 0) == [] <==>
      && (p.prompt != "")
      && (p.sampleCount != 0 ==> 1 <= p.sampleCount <= 4)
  {
    var specs := LyriaSchema;
    var vals := LyriaValues(p);
    assert ValidateFrom(specs, vals, ns, 0) == [] <==>
      (p.prompt != "") && ValidateFrom(specs, vals, ns, 1) == [] by {
      ValidateFromStep(specs, vals, ns, 0);
      RequiredString(specs[0], p.prompt, ns, specs, vals);
    }
    assert ValidateFrom(specs, vals, ns, 1) == [] <==>
      ValidateFrom(specs, vals, ns, 2) == [] by {
      ValidateFromStep(specs, vals, ns, 1);
      UntaggedNeverFails(specs[1], vals[1], ns, specs, vals);
    }
    assert ValidateFrom(specs, vals, ns, 2) == [] <==>
      (p.sampleCount != 0 ==> 1 <= p.sampleCount <= 4) && ValidateFrom(specs, vals, ns, 3) == [] by {
      ValidateFromStep(specs, vals, ns, 2);
      OptionalIntBetween(specs[2], p.sampleCount, "1", 1.0, "4", 4.0, ns, specs, vals);
    }
    assert ValidateFrom(specs, vals, ns, 3) == [] <==>
      ValidateFrom(specs, vals, ns, 4) == [] by {
      ValidateFromStep(specs, vals, ns, 3);
      UntaggedNeverFails(specs[3], vals[3], ns, specs, vals);
    }
    ValidateFromEnd(specs, vals, ns, 4);
  }

}
