/** The parameter types shared by several tools (tools/common.go). */
module ToolCommon {
  import opened Wrappers
  import opened Constraints

  /** An image or video input: a storage URL or inline base64 data, and an
      optional MIME type. */
  datatype MediaReference = MediaReference(storageUrl: string, base64: string, mimeType: string)

  const MediaMimeTypes: seq<string> := ["image/jpeg", "image/png", "image/webp", "video/mp4"]

  function MediaReferenceValues(m: MediaReference): seq<Value>
  {
    [Str(m.storageUrl), Str(m.base64), Str(m.mimeType)]
  }

  /** The struct tags of MediaReference. */
  const MediaReferenceSchema: seq<FieldSpec> :=
    [Plain("StorageURL", []),
     Plain("Base64", []),
     Plain("MimeType", [OmitEmpty, OneOf(MediaMimeTypes)])]

  /** What the tags allow: any URL and data, and a MIME type that is empty
      or one of the four listed. */
  predicate MediaReferenceValid(m: MediaReference)
  {
    m.mimeType != "" ==> m.mimeType in MediaMimeTypes
  }

  /** A *MediaReference field. */
  function MediaReferencePtr(x: Option<MediaReference>): Value
  {
    StructPtr(if x.Some? then Some(MediaReferenceValues(x.value)) else None)
  }

  /** A media reference, at any namespace, validates exactly when its MIME
      type is allowed. */
  lemma MediaReferenceSchemaMeaning(m: MediaReference, ns: string)
    ensures ValidateFrom(MediaReferenceSchema, MediaReferenceValues(m), ns, 0) == [] <==> MediaReferenceValid(m)
  {
    var specs := MediaReferenceSchema;
    var vals := MediaReferenceValues(m);
    ValidateFromStep(specs, vals, ns, 0);
    UntaggedNeverFails(specs[0], vals[0], ns, specs, vals);
    ValidateFromStep(specs, vals, ns, 1);
    UntaggedNeverFails(specs[1], vals[1], ns, specs, vals);
    ValidateFromStep(specs, vals, ns, 2);
    OptionalStringOneOf(specs[2], m.mimeType, MediaMimeTypes, ns, specs, vals);
    ValidateFromEnd(specs, vals, ns, 3);
  }

  /** Pre-signed URLs with an optional expiry. */
  datatype SignedURLs = SignedURLs(urls: Option<seq<string>>, expiresAt: string)

  function SignedURLsValues(u: SignedURLs): seq<Value>
  {
    [List(u.urls), Str(u.expiresAt)]
  }

  /** The struct tags of SignedURLs. */
  const SignedURLsSchema: seq<FieldSpec> :=
    [Plain("URLs", [Required, Min("1", 1.0)]),
     Plain("ExpiresAt", [])]

  /** What the tags allow: at least one URL. */
  predicate SignedURLsValid(u: SignedURLs)
  {
    u.urls.Some? && |u.urls.value| >= 1
  }

  lemma SignedURLsSchemaMeaning(u: SignedURLs, ns: string)
    ensures ValidateFrom(SignedURLsSchema, SignedURLsValues(u), ns, 0) == [] <==> SignedURLsValid(u)
  {
    var specs := SignedURLsSchema;
    var vals := SignedURLsValues(u);
    ValidateFromStep(specs, vals, ns, 0);
    RequiredListMin(specs[0], u.urls, "1", 1.0, ns, specs, vals);
    ValidateFromStep(specs, vals, ns, 1);
    UntaggedNeverFails(specs[1], vals[1], ns, specs, vals);
    ValidateFromEnd(specs, vals, ns, 2);
  }
}
