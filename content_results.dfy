// Results of the content-analysis and search tools: their constructors and
// the shape check on a ContentAnalysisResult (results/content_analysis.go).
module ContentResults {
  import opened Wrappers
  import opened Text
  import opened ToolValidation
  import opened Checks
  import opened ResultTypes
  import opened ResultsCommon

  const NoAnalysisType := "analysis type is required"
  const NoSummary := "summary is required for content analysis"
  const NoSearchResults := "search results cannot be empty for search analysis"

  predicate SearchResultBad(x: SearchResult) { x.title == "" || x.url == "" }
  predicate SourceBad(x: ContentSource) { x.url == "" || x.content == "" }

  function SearchResultError(i: nat, x: SearchResult): GoError
  {
    Message("search result[" + NatToString(i) + (if x.title == "" then "]: title is required" else "]: URL is required"))
  }

  function SourceError(i: nat, x: ContentSource): GoError
  {
    Message("source[" + NatToString(i) + (if x.url == "" then "]: URL is required" else "]: content is required"))
  }

  function NoSources(analysisType: string): GoError
  {
    Message("sources cannot be empty for " + analysisType + " analysis")
  }

  /** The analysis types that get a type-specific check. */
  predicate SourceBased(analysisType: string)
  {
    analysisType == "webpage" || analysisType == "document"
  }

  /** ContentAnalysisResult.Validate (results/content_analysis.go:142-181):
      a type, then a summary, then the check of the type's own list; any
      other type gets no further check. */
  function ValidateContentAnalysis(c: ContentAnalysisResult): (e: Option<GoError>)
    ensures e.None? <==>
      && c.analysisType != ""
      && c.summary != ""
      && (c.analysisType == "search" ==>
            |c.searchResults| > 0 && forall i :: 0 <= i < |c.searchResults| ==> !SearchResultBad(c.searchResults[i]))
      && (SourceBased(c.analysisType) ==>
            |c.sources| > 0 && forall i :: 0 <= i < |c.sources| ==> !SourceBad(c.sources[i]))
    ensures c.analysisType == "" ==> e == Some(Message(NoAnalysisType))
    ensures c.analysisType != "" && c.summary == "" ==> e == Some(Message(NoSummary))
    ensures c.summary != "" && c.analysisType == "search" && |c.searchResults| == 0 ==>
      e == Some(Message(NoSearchResults))
    ensures c.summary != "" && SourceBased(c.analysisType) && |c.sources| == 0 ==>
      e == Some(NoSources(c.analysisType))
  {
    if c.analysisType == "" then Some(Message(NoAnalysisType))
    else if c.summary == "" then Some(Message(NoSummary))
    else if c.analysisType == "search" then
      if |c.searchResults| == 0 then Some(Message(NoSearchResults))
      else
        var k := FirstFailing(c.searchResults, SearchResultBad, 0);
        if k < |c.searchResults| then Some(SearchResultError(k, c.searchResults[k])) else None
    else if SourceBased(c.analysisType) then
      if |c.sources| == 0 then Some(NoSources(c.analysisType))
      else
        var k := FirstFailing(c.sources, SourceBad, 0);
        if k < |c.sources| then Some(SourceError(k, c.sources[k])) else None
    else None
  }

  /** The first failing search result is reported, title before URL. */
  lemma FirstBadSearchResultReported(c: ContentAnalysisResult, k: nat)
    requires c.analysisType == "search" && c.summary != ""
    requires k < |c.searchResults| && SearchResultBad(c.searchResults[k])
    requires forall j :: 0 <= j < k ==> !SearchResultBad(c.searchResults[j])
    ensures ValidateContentAnalysis(c) == Some(SearchResultError(k, c.searchResults[k]))
  {
    assert FirstFailing(c.searchResults, SearchResultBad, 0) == k;
  }

  /** The first failing source is reported, URL before content. */
  lemma FirstBadSourceReported(c: ContentAnalysisResult, k: nat)
    requires SourceBased(c.analysisType) && c.summary != ""
    requires k < |c.sources| && SourceBad(c.sources[k])
    requires forall j :: 0 <= j < k ==> !SourceBad(c.sources[j])
    ensures ValidateContentAnalysis(c) == Some(SourceError(k, c.sources[k]))
  {
    assert FirstFailing(c.sources, SourceBad, 0) == k;
  }

  /** A successful envelope around a content-analysis payload, which sets
      only the undeclared ContentAnalysis field. */
  function ContentEnvelope(tool: string, jobID: string, payload: ContentAnalysisResult,
                           meta: ExecutionMetadata): ToolResult
  {
    ToolResult(true, tool, None, None, None, meta, jobID, "", "", "", Some(payload))
  }

  /** NewContentAnalyzerResult (results/content_analysis.go:74-94); the URL
      list is accepted and not stored. */
  function NewContentAnalyzerResult(jobID: string, urls: seq<string>, summary: string, content: string,
                                    sources: seq<ContentSource>, meta: ExecutionMetadata): ToolResult
  {
    ContentEnvelope("content-analyzer", jobID,
      ContentAnalysisResult("webpage", summary, content, [], 0, sources, [], [], None), meta)
  }

  /** NewGoogleSearchResult (results/content_analysis.go:97-117). */
  function NewGoogleSearchResult(jobID: string, query: string, results: seq<SearchResult>, summary: string,
                                 meta: ExecutionMetadata): ToolResult
  {
    ContentEnvelope("google-search", jobID,
      ContentAnalysisResult("search", summary, "Search results for: " + query, results, |results|, [], [], [], None),
      meta)
  }

  /** A search result is typed "search", counts its results, and its
      payload passes exactly when there is a summary and at least one result
      and every result has a title and a URL. */
  lemma GoogleSearchChecked(jobID: string, query: string, results: seq<SearchResult>, summary: string,
                            meta: ExecutionMetadata)
    ensures var c := NewGoogleSearchResult(jobID, query, results, summary, meta).contentAnalysis.value;
      && c.analysisType == "search"
      && c.totalResults == |results|
      && c.searchResults == results
      && (ValidateContentAnalysis(c).None? <==>
            summary != "" && |results| > 0 && forall i :: 0 <= i < |results| ==> !SearchResultBad(results[i]))
  {
  }

  /** An analyzer result is typed "webpage", and its payload passes exactly
      when there is a summary and at least one source and every source has a
      URL and content. */
  lemma ContentAnalyzerChecked(jobID: string, urls: seq<string>, summary: string, content: string,
                               sources: seq<ContentSource>, meta: ExecutionMetadata)
    ensures var c := NewContentAnalyzerResult(jobID, urls, summary, content, sources, meta).contentAnalysis.value;
      && c.analysisType == "webpage"
      && c.sources == sources
      && (ValidateContentAnalysis(c).None? <==>
            summary != "" && |sources| > 0 && forall i :: 0 <= i < |sources| ==> !SourceBad(sources[i]))
  {
  }

  /** An analysis type other than search, webpage and document passes on a
      type and a summary alone, whatever its lists hold. */
  lemma OtherTypesUnchecked(c: ContentAnalysisResult)
    requires c.analysisType != "" && c.summary != ""
    requires c.analysisType != "search" && !SourceBased(c.analysisType)
    ensures ValidateContentAnalysis(c).None?
  {
  }

  /** ToolResult.Validate counts only the media-generation and
      video-processing payloads, so both content constructors build a
      successful result it rejects with "got 0". */
  lemma ContentResultsFailEnvelope(jobID: string, urls: seq<string>, query: string, summary: string, content: string,
                                   sources: seq<ContentSource>, results: seq<SearchResult>, meta: ExecutionMetadata)
    ensures ToolResultError(NewContentAnalyzerResult(jobID, urls, summary, content, sources, meta)) == Some(CountError(0))
    ensures ToolResultError(NewGoogleSearchResult(jobID, query, results, summary, meta)) == Some(CountError(0))
  {
  }
}
