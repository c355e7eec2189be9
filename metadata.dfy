// The static per-tool metadata table and its lookups (tools/metadata.go).
module ToolMetadata {
  import opened Wrappers
  import opened ToolRegistry

  /** ToolType (tools/metadata.go:4-10). */
  type ToolType = string
  const ToolTypeMedia: ToolType := "media"
  const ToolTypeNative: ToolType := "native"
  const ToolTypeImageProcessing: ToolType := "image_processing"

  /** ServiceType (tools/metadata.go:13-19). */
  type ServiceType = string
  const ServiceTypeMediaAI: ServiceType := "media-ai"
  const ServiceTypeVideoProcessor: ServiceType := "video-processor"
  const ServiceTypeNative: ServiceType := "native"

  /** OutputType (tools/metadata.go:22-30). */
  type OutputType = string
  const OutputTypeImage: OutputType := "image"
  const OutputTypeVideo: OutputType := "video"
  const OutputTypeAudio: OutputType := "audio"
  const OutputTypeJSON: OutputType := "json"
  const OutputTypeText: OutputType := "text"

  /** ToolMeta (tools/metadata.go:33-42), without the prose fields
      Description and Examples. */
  datatype ToolMeta = ToolMeta(
    name: string,
    credits: int,
    toolType: ToolType,
    serviceType: ServiceType,
    outputType: OutputType,
    endpointPath: string)

  /** The zero ToolMeta a failed map lookup returns. */
  const NoMeta := ToolMeta("", 0, "", "", "", "")

  /** The Metadata entry of each tool (tools/metadata.go:45-317). */
  function Entry(t: ToolName): (m: ToolMeta)
    ensures m.name == Name(t)
  {
    match t
    case GenerateImageImagen =>
      ToolMeta("generate-image-imagen", 2, ToolTypeMedia, ServiceTypeMediaAI, OutputTypeImage, "/api/generate-image-imagen/generate/async")
    case GenerateImageImagenFast =>
      ToolMeta("generate-image-imagen-fast", 1, ToolTypeMedia, ServiceTypeMediaAI, OutputTypeImage, "/api/generate-image-imagen-fast/generate/async")
    case GenerateImageImagenUltra =>
      ToolMeta("generate-image-imagen-ultra", 3, ToolTypeMedia, ServiceTypeMediaAI, OutputTypeImage, "/api/generate-image-imagen-ultra/generate/async")
    case GenerateImageFlash =>
      ToolMeta("generate-image-flash", 10, ToolTypeMedia, ServiceTypeMediaAI, OutputTypeImage, "/api/generate-image-flash/generate/async")
    case NanoBanana =>
      ToolMeta("nano-banana", 3, ToolTypeMedia, ServiceTypeMediaAI, OutputTypeImage, "/api/nano-banana/generate/async")
    case GenerateVideoVeo3 =>
      ToolMeta("generate-video-veo3", 300, ToolTypeMedia, ServiceTypeMediaAI, OutputTypeVideo, "/api/generate-video-veo3/generate/async")
    case GenerateVideoVeo3Fast =>
      ToolMeta("generate-video-veo3-fast", 160, ToolTypeMedia, ServiceTypeMediaAI, OutputTypeVideo, "/api/generate-video-veo3-fast/generate/async")
    case GenerateVideoVeo3FastNoAudio =>
      ToolMeta("generate-video-veo3-fast-no-audio", 100, ToolTypeMedia, ServiceTypeMediaAI, OutputTypeVideo, "/api/generate-video-veo3-fast-no-audio/generate/async")
    case GenerateVideoVeo3NoAudio =>
      ToolMeta("generate-video-veo3-no-audio", 200, ToolTypeMedia, ServiceTypeMediaAI, OutputTypeVideo, "/api/generate-video-veo3-no-audio/generate/async")
    case GenerateMusicLyria =>
      ToolMeta("generate-music-lyria", 3, ToolTypeMedia, ServiceTypeMediaAI, OutputTypeAudio, "/api/generate-music-lyria/generate/async")
    case CombineVideos =>
      ToolMeta("combine-videos", 20, ToolTypeMedia, ServiceTypeVideoProcessor, OutputTypeVideo, "/api/video/combine/async")
    case TrimVideo =>
      ToolMeta("trim-video", 10, ToolTypeMedia, ServiceTypeVideoProcessor, OutputTypeVideo, "/api/video/trim/async")
    case ImageAudioMerge =>
      ToolMeta("image-audio-merge", 15, ToolTypeMedia, ServiceTypeVideoProcessor, OutputTypeVideo, "/api/video/image-audio-merge/async")
    case ExtractFrame =>
      ToolMeta("extract-frame", 5, ToolTypeMedia, ServiceTypeVideoProcessor, OutputTypeImage, "/api/video/extract-frame/async")
    case MergeImages =>
      ToolMeta("merge-images", 0, ToolTypeImageProcessing, ServiceTypeMediaAI, OutputTypeImage, "/api/merge-images/generate/async")
    case ContentAnalyzer =>
      ToolMeta("content-analyzer", 1, ToolTypeNative, ServiceTypeMediaAI, OutputTypeText, "/api/content-analyzer/generate/async")
    case GoogleSearch =>
      ToolMeta("google-search", 0, ToolTypeNative, ServiceTypeMediaAI, OutputTypeJSON, "/api/google-search/generate/async")
  }

  /** `Metadata[key]` for any ToolName value, declared constant or not. */
  function Lookup(key: string): Option<ToolMeta>
  {
    match ParseToolName(key)
    case Some(t) => Some(Entry(t))
    case None => None
  }

  /** The table has an entry for exactly the seventeen tool names, and each
      entry's Name is its key. */
  lemma LookupExact(key: string)
    ensures Lookup(key).Some? <==> IsValidToolName(key)
    ensures Lookup(key).Some? ==> Lookup(key).value.name == key
  {
    ValidIffDispatched(key);
  }

  /** No tool costs a negative number of credits. */
  lemma CreditsNonNegative(t: ToolName)
    ensures Entry(t).credits >= 0
  {
  }

  /** GetToolMetadata (tools/metadata.go:320-323). */
  function GetToolMetadata(key: string): (r: (ToolMeta, bool))
    ensures r.1 <==> IsValidToolName(key)
    ensures r.1 ==> r.0.name == key && r.0 == Lookup(key).value
    ensures !r.1 ==> r.0 == NoMeta
  {
    LookupExact(key);
    match Lookup(key)
    case Some(m) => (m, true)
    case None => (NoMeta, false)
  }

  /** GetToolCredits (tools/metadata.go:326-331). */
  function GetToolCredits(key: string): (r: int)
    ensures r >= 0
    ensures IsValidToolName(key) <==> Lookup(key).Some?
    ensures !IsValidToolName(key) ==> r == 0
    ensures IsValidToolName(key) ==> r == Lookup(key).value.credits
  {
    LookupExact(key);
    match Lookup(key)
    case Some(m) => CreditsNonNegative(ParseToolName(key).value); m.credits
    case None => 0
  }

  /** Distinct tools have distinct entries. */
  lemma EntryInjective(a: ToolName, b: ToolName)
    ensures Entry(a) == Entry(b) ==> a == b
  {
    NameInjective(a, b);
  }

  /** Which entries a query keeps. */
  datatype Query = ByType(toolType: ToolType) | ByService(serviceType: ServiceType)

  predicate Keeps(q: Query, m: ToolMeta)
  {
    match q
    case ByType(ty) => m.toolType == ty
    case ByService(s) => m.serviceType == s
  }

  /** The entries a scan in the given order keeps, for any way `entry` of
      finding a tool's entry. */
  function SelectBy(order: seq<ToolName>, entry: ToolName -> ToolMeta, q: Query): seq<ToolMeta>
  {
    if |order| == 0 then []
    else
      var last := entry(order[|order| - 1]);
      SelectBy(order[..|order| - 1], entry, q) + (if Keeps(q, last) then [last] else [])
  }

  /** The entries a scan of the table in the given order keeps. */
  function Select(order: seq<ToolName>, q: Query): seq<ToolMeta>
  {
    SelectBy(order, Entry, q)
  }

  /** Go's `range` over a map visits every key once, in no fixed order. */
  predicate MapOrder(order: seq<ToolName>)
  {
    && (forall t :: t in order)
    && (forall i, j :: 0 <= i < j < |order| ==> order[i] != order[j])
  }

  lemma {:induction false} SelectByMembers(order: seq<ToolName>, entry: ToolName -> ToolMeta, q: Query)
    ensures forall m :: m in SelectBy(order, entry, q) <==> exists t :: t in order && entry(t) == m && Keeps(q, m)
  {
    if |order| > 0 {
      var init, last := order[..|order| - 1], order[|order| - 1];
      SelectByMembers(init, entry, q);
      assert order == init + [last];
      forall m
        ensures m in SelectBy(order, entry, q) <==> exists t :: t in order && entry(t) == m && Keeps(q, m)
      {
        if m in SelectBy(order, entry, q) && m !in SelectBy(init, entry, q) {
          assert entry(last) == m && Keeps(q, m);
        }
        if exists t :: t in order && entry(t) == m && Keeps(q, m) {
          var t :| t in order && entry(t) == m && Keeps(q, m);
          if t != last {
            assert t in init;
          }
        }
      }
    }
  }

  lemma SelectMembers(order: seq<ToolName>, q: Query)
    ensures forall m :: m in Select(order, q) <==> exists t :: t in order && Entry(t) == m && Keeps(q, m)
  {
    SelectByMembers(order, Entry, q);
  }

  /** A tool the scan has not visited contributes no entry yet. */
  lemma NotSelectedTwice(init: seq<ToolName>, last: ToolName, q: Query)
    requires last !in init
    ensures Entry(last) !in Select(init, q)
  {
    SelectMembers(init, q);
    forall m | m in Select(init, q)
      ensures m != Entry(last)
    {
      var t :| t in init && Entry(t) == m && Keeps(q, m);
      EntryInjective(t, last);
    }
  }

  lemma {:induction false} SelectDistinct(order: seq<ToolName>, q: Query)
    requires forall i, j :: 0 <= i < j < |order| ==> order[i] != order[j]
    ensures forall i, j :: 0 <= i < j < |Select(order, q)| ==> Select(order, q)[i] != Select(order, q)[j]
  {
    if |order| > 0 {
      var init, last := order[..|order| - 1], order[|order| - 1];
      SelectDistinct(init, q);
      SelectMembers(init, q);
      forall k | 0 <= k < |init|
        ensures init[k] != last
      {
        assert order[k] == init[k];
      }
      NotSelectedTwice(init, last, q);
      var a := Select(init, q);
      var b := Select(order, q);
      assert order[..|order| - 1] == init;
      assert b == a + (if Keeps(q, Entry(last)) then [Entry(last)] else []);
      forall i, j | 0 <= i < j < |b|
        ensures b[i] != b[j]
      {
        if j >= |a| {
          assert b[i] == a[i] && a[i] in a;
        }
      }
    }
  }

  /** Under any visiting order, the scan returns every entry the query
      keeps, each once, and nothing else. */
  lemma SelectExact(order: seq<ToolName>, q: Query)
    requires MapOrder(order)
    ensures forall t :: Entry(t) in Select(order, q) <==> Keeps(q, Entry(t))
    ensures forall m :: m in Select(order, q) ==> exists t :: Entry(t) == m
    ensures forall i, j :: 0 <= i < j < |Select(order, q)| ==> Select(order, q)[i] != Select(order, q)[j]
  {
    SelectMembers(order, q);
    SelectDistinct(order, q);
  }

  /** The loop shared by GetToolsByType and GetToolsByService. */
  method Scan(order: seq<ToolName>, q: Query) returns (tools: seq<ToolMeta>)
    ensures tools == Select(order, q)
  {
    tools := [];
    var i := 0;
    while i < |order|
      invariant 0 <= i <= |order|
      invariant tools == Select(order[..i], q)
    {
      var meta := Entry(order[i]);
      if Keeps(q, meta) {
        tools := tools + [meta];
      }
      assert order[..i + 1][..i] == order[..i];
      i := i + 1;
    }
    assert order[..|order|] == order;
  }

  /** GetToolsByType (tools/metadata.go:334-342); `order` is the order
      in which the map is visited. */
  method GetToolsByType(toolType: ToolType, order: seq<ToolName>) returns (tools: seq<ToolMeta>)
    requires MapOrder(order)
    ensures forall t :: Entry(t) in tools <==> Entry(t).toolType == toolType
    ensures forall m :: m in tools ==> exists t :: Entry(t) == m
    ensures forall i, j :: 0 <= i < j < |tools| ==> tools[i] != tools[j]
  {
    tools := Scan(order, ByType(toolType));
    SelectExact(order, ByType(toolType));
  }

  /** GetToolsByService (tools/metadata.go:345-353). */
  method GetToolsByService(serviceType: ServiceType, order: seq<ToolName>) returns (tools: seq<ToolMeta>)
    requires MapOrder(order)
    ensures forall t :: Entry(t) in tools <==> Entry(t).serviceType == serviceType
    ensures forall m :: m in tools ==> exists t :: Entry(t) == m
    ensures forall i, j :: 0 <= i < j < |tools| ==> tools[i] != tools[j]
  {
    tools := Scan(order, ByService(serviceType));
    SelectExact(order, ByService(serviceType));
  }

  /** The video processor handles exactly the four video editing tools;
      merge-images stays with media-ai. */
  lemma VideoProcessorTools(t: ToolName)
    ensures Entry(t).serviceType == ServiceTypeVideoProcessor <==>
      t in {CombineVideos, TrimVideo, ImageAudioMerge, ExtractFrame}
  {
  }

  /** The free tools are merge-images and google-search. */
  lemma FreeTools(t: ToolName)
    ensures Entry(t).credits == 0 <==> t in {MergeImages, GoogleSearch}
  {
  }
}
