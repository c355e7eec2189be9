/** The parameter types of the content analysis tools and what their struct
    tags allow (tools/content_analysis.go). */
module ContentAnalysis {
  import opened Wrappers
  import opened Constraints

  const AnalysisTypes: seq<string> := ["summary", "insights", "transcript", "sentiment", "key-points", "critique"]
  const OutputFormats: seq<string> := ["detailed", "concise", "bullet-points", "narrative"]
  const Recencies: seq<string> := ["hour", "day", "week", "month", "year", "all"]

  datatype ContentAnalyzerParams = ContentAnalyzerParams(
    url: string, focusAreas: Option<seq<string>>, analysisType: string, outputFormat: string)

  function ContentAnalyzerValues(p: ContentAnalyzerParams): seq<Value>
  {
    [Str(p.url), List(p.focusAreas), Str(p.analysisType), Str(p.outputFormat)]
  }

  const ContentAnalyzerSchema: seq<FieldSpec> :=
    [Plain("URL", [Required]),
     Plain("FocusAreas", []),
     Plain("AnalysisType", [OmitEmpty, OneOf(AnalysisTypes)]),
     Plain("OutputFormat", [OmitEmpty, OneOf(OutputFormats)])]

  /** A URL, and the listed analysis types and output formats; the focus
      areas are unconstrained. */
  predicate ContentAnalyzerValid(p: ContentAnalyzerParams)
  {
    && p.url != ""
    && (p.analysisType != "" ==> p.analysisType in AnalysisTypes)
    && (p.outputFormat != "" ==> p.outputFormat in OutputFormats)
  }

  /** validate.Struct accepts a ContentAnalyzerParams exactly when
      ContentAnalyzerValid holds. */
  lemma ContentAnalyzerSchemaMeaning(p: ContentAnalyzerParams, ns: string)
    ensures ValidateFrom(ContentAnalyzerSchema, ContentAnalyzerValues(p), ns, 0) == [] <==>
      && (p.url != "")
      && (p.analysisType != "" ==> p.analysisType in AnalysisTypes)
      && (p.outputFormat != "" ==> p.outputFormat in OutputFormats)
  {
    var specs := ContentAnalyzerSchema;
    var vals := ContentAnalyzerValues(p);
    assert ValidateFrom(specs, vals, ns, 0) == [] <==>
      (p.url != "") && ValidateFrom(specs, vals, ns, 1) == [] by {
      ValidateFromStep(specs, vals, ns, 0);
      RequiredString(specs[0], p.url, ns, specs, vals);
    }
    assert ValidateFrom(specs, vals, ns, 1) == [] <==>
      ValidateFrom(specs, vals, ns, 2) == [] by {
      ValidateFromStep(specs, vals, ns, 1);
      UntaggedNeverFails(specs[1], vals[1], ns, specs, vals);
    }
    assert ValidateFrom(specs, vals, ns, 2) == [] <==>
      (p.analysisType != "" ==> p.analysisType in AnalysisTypes) && ValidateFrom(specs, vals, ns, 3) == [] by {
      ValidateFromStep(specs, vals, ns, 2);
      OptionalStringOneOf(specs[2], p.analysisType, AnalysisTypes, ns, specs, vals);
    }
    assert ValidateFrom(specs, vals, ns, 3) == [] <==>
      (p.outputFormat != "" ==> p.outputFormat in OutputFormats) && ValidateFrom(specs, vals, ns, 4) == [] by {
      ValidateFromStep(specs, vals, ns, 3);
      OptionalStringOneOf(specs[3], p.outputFormat, OutputFormats, ns, specs, vals);
    }
    ValidateFromEnd(specs, vals, ns, 4);
  }

  datatype GoogleSearchParams = GoogleSearchParams(query: string, site: string, recency: string, maxResults: int)

  function GoogleSearchValues(p: GoogleSearchParams): seq<Value>
  {
    [Str(p.query), Str(p.site), Str(p.recency), Int(p.maxResults)]
  }

  const GoogleSearchSchema: seq<FieldSpec> :=
    [Plain("Query", [Required]),
     Plain("Site", []),
     Plain("Recency", [OmitEmpty, OneOf(Recencies)]),
     Plain("MaxResults", [OmitEmpty, Min("1", 1.0), Max("10", 10.0)])]

  /** A query, a listed recency, and one to ten results when a maximum is
      given; the site is unconstrained. */
  predicate GoogleSearchValid(p: GoogleSearchParams)
  {
    && p.query != ""
    && (p.recency != "" ==> p.recency in Recencies)
    && (p.maxResults != 0 ==> 1 <= p.maxResults <= 10)
  }

  /** validate.Struct accepts a GoogleSearchParams exactly when
      GoogleSearchValid holds. */
  lemma GoogleSearchSchemaMeaning(p: GoogleSearchParams, ns: string)
    ensures ValidateFrom(GoogleSearchSchema, GoogleSearchValues(p), ns, 0) == [] <==>
      && (p.query != "")
      && (p.recency != "" ==> p.recency in Recencies)
      && (p.maxResults != 0 ==> 1 <= p.maxResults <= 10)
  {
    var specs := GoogleSearchSchema;
    var vals := GoogleSearchValues(p);
    assert ValidateFrom(specs, vals, ns, 0) == [] <==>
      (p.query != "") && ValidateFrom(specs, vals, ns, 1) == [] by {
      ValidateFromStep(specs, vals, ns, 0);
      RequiredString(specs[0], p.query, ns, specs, vals);
    }
    assert ValidateFrom(specs, vals, ns, 1) == [] <==>
      ValidateFrom(specs, vals, ns, 2) == [] by {
      ValidateFromStep(specs, vals, ns, 1);
      UntaggedNeverFails(specs[1], vals[1], ns, specs, vals);
    }
    assert ValidateFrom(specs, vals, ns, 2) == [] <==>
      (p.recency != "" ==> p.recency in Recencies) && ValidateFrom(specs, vals, ns, 3) == [] by {
      ValidateFromStep(specs, vals, ns, 2);
      OptionalStringOneOf(specs[2], p.recency, Recencies, ns, specs, vals);
    }
    assert ValidateFrom(specs, vals, ns, 3) == [] <==>
      (p.maxResults != 0 ==> 1 <= p.maxResults <= 10) && ValidateFrom(specs, vals, ns, 4) == [] by {
      ValidateFromStep(specs, vals, ns, 3);
      OptionalIntBetween(specs[3], p.maxResults, "1", 1.0, "10", 10.0, ns, specs, vals);
    }
    ValidateFromEnd(specs, vals, ns, 4);
  }
}
