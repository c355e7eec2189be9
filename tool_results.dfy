// The result record a tool execution returns (tools/results.go).
module ToolResults {
  import opened Wrappers
  import opened Text
  import opened ErrorCodes
  import opened ErrorBuilders

  /** A stand-in for Go's interface{}: nil, or some value the contracts
      never look into. */
  datatype AnyValue = Nil | AnyOf(id: nat)

  /** MediaAsset (tools/results.go:59-72), without SignedExpiry and the
      free-form Metadata map. */
  datatype MediaAsset = MediaAsset(
    id: string,
    assetType: string,
    publicURL: string,
    storageURL: string,
    signedURL: string,
    mimeType: string,
    width: int,
    height: int,
    duration: real,
    fileSize: int)

  /** ResultMetadata (tools/results.go:35-56), without ProviderData. */
  datatype ResultMetadata = ResultMetadata(
    jobID: string,
    mediaAssets: seq<MediaAsset>,
    creditsUsed: int,
    provider: string,
    model: string,
    requestID: string)

  /** ToolResult (tools/results.go:8-32); a nil Metadata pointer is None. */
  datatype ToolResult = ToolResult(
    success: bool,
    tool: string,
    result: AnyValue,
    error: string,
    errorCode: string,
    retryable: bool,
    executionTime: int,
    metadata: Option<ResultMetadata>)

  /** The list isRetryableError scans (tools/results.go:96-102). */
  const RetryableErrorCodes: seq<string> :=
    ["TIMEOUT", "NETWORK_ERROR", "SERVICE_UNAVAILABLE", "RATE_LIMIT", "PROVIDER_OVERLOADED"]

  /** The scan from index i on, returning at the first exact match. */
  function ScanRetryable(code: string, i: nat): (r: bool)
    requires i <= |RetryableErrorCodes|
    ensures r <==> code in RetryableErrorCodes[i..]
    decreases |RetryableErrorCodes| - i
  {
    if i == |RetryableErrorCodes| then false
    else if RetryableErrorCodes[i] == code then true
    else
      assert RetryableErrorCodes[i..] == [RetryableErrorCodes[i]] + RetryableErrorCodes[i + 1..];
      ScanRetryable(code, i + 1)
  }

  /** isRetryableError (tools/results.go:95-110). */
  function IsRetryableError(code: string): (r: bool)
    ensures r <==> code in {"TIMEOUT", "NETWORK_ERROR", "SERVICE_UNAVAILABLE", "RATE_LIMIT", "PROVIDER_OVERLOADED"}
  {
    assert RetryableErrorCodes[0..] == RetryableErrorCodes;
    ScanRetryable(code, 0)
  }

  /** NewSuccessResult (tools/results.go:75-81). */
  function NewSuccessResult(tool: string, result: AnyValue): (r: ToolResult)
    ensures r.success && r.tool == tool && r.result == result
    ensures r.error == "" && r.errorCode == "" && !r.retryable
    ensures r.executionTime == 0 && r.metadata.None?
  {
    ToolResult(true, tool, result, "", "", false, 0, None)
  }

  /** NewErrorResult (tools/results.go:84-92). */
  function NewErrorResult(tool: string, errorMsg: string, errorCode: string): (r: ToolResult)
    ensures !r.success && r.tool == tool && r.result == Nil
    ensures r.error == errorMsg && r.errorCode == errorCode
    ensures r.retryable <==> errorCode in {"TIMEOUT", "NETWORK_ERROR", "SERVICE_UNAVAILABLE", "RATE_LIMIT", "PROVIDER_OVERLOADED"}
    ensures r.executionTime == 0 && r.metadata.None?
  {
    ToolResult(false, tool, Nil, errorMsg, errorCode, IsRetryableError(errorCode), 0, None)
  }

  /** HasMediaAssets (tools/results.go:113-115). */
  predicate HasMediaAssets(r: ToolResult)
  {
    r.metadata.Some? && |r.metadata.value.mediaAssets| > 0
  }

  /** GetMediaAssets (tools/results.go:118-123); nil is the empty list. */
  function GetMediaAssets(r: ToolResult): (assets: seq<MediaAsset>)
    ensures HasMediaAssets(r) <==> |assets| > 0
    ensures r.metadata.None? ==> assets == []
  {
    if r.metadata.None? then [] else r.metadata.value.mediaAssets
  }

  /** IsRetryable (tools/results.go:126-128). */
  predicate IsRetryable(r: ToolResult)
  {
    !r.success && r.retryable
  }

  /** A successful result is never retryable, and an error result is
      retryable exactly when its code is on the list. */
  lemma RetryableResults(tool: string, result: AnyValue, errorMsg: string, errorCode: string)
    ensures !IsRetryable(NewSuccessResult(tool, result))
    ensures IsRetryable(NewErrorResult(tool, errorMsg, errorCode)) <==> IsRetryableError(errorCode)
  {
  }

  /** None of the declared error codes is on isRetryableError's list: an
      error result built from a canonical code such as SYS_TIMEOUT is not
      retryable, although IsRetryableCode(SYS_TIMEOUT) holds. */
  lemma CanonicalCodesNotRetryable(c: Code)
    ensures !IsRetryableError(Value(c))
  {
    if c.Rate? {
      match c.rate
      case LimitExceeded =>
      case QuotaExceeded =>
    } else {
      ValueHasFamilyPrefix(c);
      var p := FamilyPrefix(FamilyOf(c));
      assert p[0] != 'N' && p[0] != 'P';
      DisagreeNotPrefix("TIMEOUT", p, if p[0] == 'T' then 1 else 0);
      DisagreeNotPrefix("SERVICE_UNAVAILABLE", p, if p[0] == 'S' then 1 else 0);
      DisagreeNotPrefix("RATE_LIMIT", p, 0);
      DisagreeNotPrefix("NETWORK_ERROR", p, 0);
      DisagreeNotPrefix("PROVIDER_OVERLOADED", p, 0);
    }
  }

  lemma TimeoutRetryVocabularies()
    ensures IsRetryableCode(SYS_TIMEOUT)
    ensures !NewErrorResult("trim-video", "timed out", SYS_TIMEOUT).retryable
  {
    CanonicalCodesNotRetryable(System(SysTimeout));
  }
}
