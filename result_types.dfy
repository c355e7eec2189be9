// The record shapes of the canonical result envelope (results/common.go,
// results/video_processing.go, results/media_generation.go,
// results/content_analysis.go) and the output assets they carry
// (types/media.go). Clock readings are plain integers; Go pointers are
// Options.
module ResultTypes {
  import opened Wrappers
  import opened ServiceErrors

  /** OutputImage (types/media.go:39-51), without SignedExpiry. */
  datatype OutputImage = OutputImage(
    id: string,
    index: int,
    storageURL: string,
    publicURL: string,
    mimeType: string,
    width: Option<int>,
    height: Option<int>,
    signedURL: Option<string>)

  /** OutputVideo (types/media.go:54-67), without SignedExpiry. */
  datatype OutputVideo = OutputVideo(
    id: string,
    index: int,
    storageURL: string,
    publicURL: string,
    mimeType: string,
    duration: Option<real>,
    width: Option<int>,
    height: Option<int>,
    signedURL: Option<string>)

  /** OutputAudio (types/media.go:70-83), without SignedExpiry. */
  datatype OutputAudio = OutputAudio(
    id: string,
    index: int,
    storageURL: string,
    publicURL: string,
    mimeType: string,
    duration: Option<real>,
    sampleRate: Option<int>,
    channels: Option<int>,
    signedURL: Option<string>)

  /** MediaAsset (results/common.go:31-58), without SignedExpiry. */
  datatype MediaAsset = MediaAsset(
    id: string,
    index: int,
    storageURL: string,
    publicURL: string,
    signedURL: Option<string>,
    assetType: string,
    mimeType: string,
    fileSize: int,
    width: Option<int>,
    height: Option<int>,
    duration: Option<real>,
    frameRate: Option<real>,
    bitRate: Option<int>,
    thumbnailURL: Option<string>)

  /** ExecutionMetadata (results/common.go:61-80). */
  datatype ExecutionMetadata = ExecutionMetadata(
    startTime: int,
    endTime: int,
    durationMs: int,
    createdAt: int,
    creditsUsed: int,
    tokensUsed: Option<int>,
    provider: string,
    model: string,
    providerJobID: string,
    region: string,
    requestID: string)

  /** InputReference (results/video_processing.go:32-37). */
  datatype InputReference = InputReference(
    inputType: string,
    sourceURL: string,
    duration: Option<real>,
    resolution: Option<string>)

  /** The values the constructors put into an operation's parameter map. */
  datatype ParamValue = Str(s: string) | Int(i: int) | Real(r: real) | Strs(ss: seq<string>)

  /** ProcessingOperation (results/video_processing.go:40-43). */
  datatype ProcessingOperation = ProcessingOperation(
    opType: string,
    parameters: map<string, ParamValue>)

  /** VideoProcessingResult (results/video_processing.go:13-29). */
  datatype VideoProcessingResult = VideoProcessingResult(
    images: seq<OutputImage>,
    videos: seq<OutputVideo>,
    audio: seq<OutputAudio>,
    inputAssets: seq<InputReference>,
    operations: seq<ProcessingOperation>,
    processingTime: real,
    inputSize: int,
    outputSize: int)

  /** MediaGenerationResult (results/media_generation.go:12-44). */
  datatype MediaGenerationResult = MediaGenerationResult(
    images: seq<OutputImage>,
    videos: seq<OutputVideo>,
    audio: seq<OutputAudio>,
    prompt: string,
    model: string,
    seed: Option<int>,
    aspectRatio: Option<string>,
    negativePrompt: Option<string>,
    safetyLevel: Option<string>,
    personGeneration: Option<bool>,
    startImage: Option<string>,
    endImage: Option<string>,
    cameraMovement: Option<string>,
    audioGenerated: Option<bool>,
    genre: Option<string>,
    instruments: Option<string>,
    mood: Option<string>,
    totalRequested: int,
    totalGenerated: int)

  /** SearchResult (results/content_analysis.go:35-43). */
  datatype SearchResult = SearchResult(
    title: string,
    url: string,
    snippet: string,
    position: int,
    relevance: real,
    publishDate: Option<string>,
    author: Option<string>)

  /** ContentSource (results/content_analysis.go:46-53). */
  datatype ContentSource = ContentSource(
    url: string,
    title: string,
    content: string,
    contentType: string,
    extractedAt: int,
    wordCount: int)

  /** ExtractedEntity (results/content_analysis.go:56-62). */
  datatype ExtractedEntity = ExtractedEntity(
    entityType: string,
    value: string,
    context: string,
    confidence: real,
    count: int)

  /** SentimentAnalysis (results/content_analysis.go:65-69). */
  datatype SentimentAnalysis = SentimentAnalysis(overall: string, score: real, confidence: real)

  /** ContentAnalysisResult (results/content_analysis.go:10-32), without
      the free-form StructuredData map. */
  datatype ContentAnalysisResult = ContentAnalysisResult(
    analysisType: string,
    summary: string,
    content: string,
    searchResults: seq<SearchResult>,
    totalResults: int,
    sources: seq<ContentSource>,
    entities: seq<ExtractedEntity>,
    topics: seq<string>,
    sentiment: Option<SentimentAnalysis>)

  /** ToolResult (results/common.go:14-28). The error is the state of the
      ServiceError it points to. The constructors in
      results/media_generation.go and results/content_analysis.go also set
      JobID, UserID, ConversationID, MessageID and ContentAnalysis, which the
      struct does not declare; they are kept here as plain fields that
      Validate does not read. */
  datatype ToolResult = ToolResult(
    success: bool,
    tool: string,
    mediaGeneration: Option<MediaGenerationResult>,
    videoProcessing: Option<VideoProcessingResult>,
    error: Option<ErrorState>,
    metadata: ExecutionMetadata,
    jobID: string,
    userID: string,
    conversationID: string,
    messageID: string,
    contentAnalysis: Option<ContentAnalysisResult>)
}
