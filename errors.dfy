// The adapter from tool-validation errors to ServiceErrors (tools/errors.go).
module ToolErrors {
  import opened Wrappers
  import opened Text
  import opened Constraints
  import opened ErrorCodes
  import opened ErrorTypes
  import opened ErrorHelpers
  import opened ServiceErrors
  import opened ErrorBuilders
  import opened MediaGeneration
  import opened ToolValidation
  import opened ToolRegistry

  // ---------------------------------------------------------------------
  // toSnakeCase (tools/errors.go:157-167)
  // ---------------------------------------------------------------------

  /** What one rune of the loop appends: an underscore before an upper-case
      letter that is not the first, then the rune lowered. */
  function SnakeStep(s: string, i: nat): string
    requires i < |s|
  {
    (if i > 0 && IsUpper(s[i]) then "_" else "") + [LowerChar(s[i])]
  }

  /** The result after the first n runes of s. */
  function SnakePrefix(s: string, n: nat): string
    requires n <= |s|
  {
    if n == 0 then "" else SnakePrefix(s, n - 1) + SnakeStep(s, n - 1)
  }

  function SnakeCase(s: string): string
  {
    SnakePrefix(s, |s|)
  }

  /** toSnakeCase, appending to the result one rune at a time. */
  method ToSnakeCase(s: string) returns (r: string)
    ensures r == SnakeCase(s)
  {
    r := "";
    var i := 0;
    while i < |s|
      invariant 0 <= i <= |s|
      invariant r == SnakePrefix(s, i)
    {
      if i > 0 && 'A' <= s[i] <= 'Z' {
        r := r + "_";
      }
      r := r + [LowerChar(s[i])];
      i := i + 1;
    }
  }

  /** The number of upper-case letters among s[1..n]. */
  function UpperAfterFirst(s: string, n: nat): nat
    requires n <= |s|
  {
    if n <= 1 then 0 else UpperAfterFirst(s, n - 1) + (if IsUpper(s[n - 1]) then 1 else 0)
  }

  /** The output is one rune longer than the input for every upper-case
      letter after the first position. */
  lemma {:induction false} SnakeLength(s: string, n: nat)
    requires n <= |s|
    ensures |SnakePrefix(s, n)| == n + UpperAfterFirst(s, n)
  {
    if n > 0 {
      SnakeLength(s, n - 1);
    }
  }

  /** The output contains no upper-case letter. */
  lemma {:induction false} SnakeNoUpper(s: string, n: nat)
    requires n <= |s|
    ensures forall j :: 0 <= j < |SnakePrefix(s, n)| ==> !IsUpper(SnakePrefix(s, n)[j])
  {
    if n > 0 {
      SnakeNoUpper(s, n - 1);
      var a, b := SnakePrefix(s, n - 1), SnakeStep(s, n - 1);
      forall j | 0 <= j < |a + b|
        ensures !IsUpper((a + b)[j])
      {
        if j >= |a| {
          assert (a + b)[j] == b[j - |a|];
        }
      }
    }
  }

  /** The output starts with the first rune, lowered. */
  lemma {:induction false} SnakeFirst(s: string, n: nat)
    requires 0 < n <= |s|
    ensures |SnakePrefix(s, n)| > 0 && SnakePrefix(s, n)[0] == LowerChar(s[0])
  {
    if n > 1 {
      SnakeFirst(s, n - 1);
    }
  }

  /** The output with its underscores removed. */
  function DropUnderscores(t: string): string
  {
    if |t| == 0 then ""
    else DropUnderscores(t[..|t| - 1]) + (if t[|t| - 1] == '_' then "" else [t[|t| - 1]])
  }

  lemma {:induction false} DropUnderscoresAppend(a: string, b: string)
    ensures DropUnderscores(a + b) == DropUnderscores(a) + DropUnderscores(b)
  {
    if |b| > 0 {
      var b' := b[..|b| - 1];
      assert (a + b)[..|a + b| - 1] == a + b';
      DropUnderscoresAppend(a, b');
    } else {
      assert a + b == a;
    }
  }

  /** For a name without underscores, taking the inserted underscores out
      again gives the name lowered. */
  lemma {:induction false} SnakeDropUnderscores(s: string, n: nat)
    requires n <= |s|
    requires forall i :: 0 <= i < |s| ==> s[i] != '_'
    ensures DropUnderscores(SnakePrefix(s, n)) == ToLower(s[..n])
  {
    if n > 0 {
      SnakeDropUnderscores(s, n - 1);
      var step := SnakeStep(s, n - 1);
      DropUnderscoresAppend(SnakePrefix(s, n - 1), step);
      if n > 1 && IsUpper(s[n - 1]) {
        DropUnderscoresAppend("_", [LowerChar(s[n - 1])]);
        assert ("_" + [LowerChar(s[n - 1])])[..1] == "_";
      } else {
        assert step == [LowerChar(s[n - 1])];
      }
      assert DropUnderscores([LowerChar(s[n - 1])]) == [LowerChar(s[n - 1])] by {
        assert [LowerChar(s[n - 1])][..0] == "";
      }
      assert ToLower(s[..n]) == ToLower(s[..n - 1]) + [LowerChar(s[n - 1])];
    }
  }

  /** A name already in snake case (no upper-case letter) is left alone, so
      converting twice is converting once. */
  lemma {:induction false} SnakeOfLower(t: string, n: nat)
    requires n <= |t|
    requires forall j :: 0 <= j < |t| ==> !IsUpper(t[j])
    ensures SnakePrefix(t, n) == t[..n]
  {
    if n > 0 {
      SnakeOfLower(t, n - 1);
      assert t[..n] == t[..n - 1] + [t[n - 1]];
    }
  }

  lemma SnakeIdempotent(s: string)
    ensures SnakeCase(SnakeCase(s)) == SnakeCase(s)
  {
    SnakeNoUpper(s, |s|);
    SnakeOfLower(SnakeCase(s), |SnakeCase(s)|);
  }

  /** The example of the documentation comment. */
  lemma SnakeNegativePrompt()
    ensures SnakeCase("NegativePrompt") == "negative_prompt"
  {
    assert SnakePrefix("NegativePrompt", 1) == "n";
    assert SnakePrefix("NegativePrompt", 2) == "ne";
    assert SnakePrefix("NegativePrompt", 3) == "neg";
    assert SnakePrefix("NegativePrompt", 4) == "nega";
    assert SnakePrefix("NegativePrompt", 5) == "negat";
    assert SnakePrefix("NegativePrompt", 6) == "negati";
    assert SnakePrefix("NegativePrompt", 7) == "negativ";
    assert SnakePrefix("NegativePrompt", 8) == "negative";
    assert SnakePrefix("NegativePrompt", 9) == "negative_p";
    assert SnakePrefix("NegativePrompt", 10) == "negative_pr";
    assert SnakePrefix("NegativePrompt", 11) == "negative_pro";
    assert SnakePrefix("NegativePrompt", 12) == "negative_prom";
    assert SnakePrefix("NegativePrompt", 13) == "negative_promp";
    assert SnakePrefix("NegativePrompt", 14) == "negative_prompt";
  }

  /** The field name of the Imagen prompt. */
  lemma SnakePrompt()
    ensures SnakeCase("Prompt") == "prompt"
  {
    assert SnakePrefix("Prompt", 1) == "p";
    assert SnakePrefix("Prompt", 2) == "pr";
    assert SnakePrefix("Prompt", 3) == "pro";
    assert SnakePrefix("Prompt", 4) == "prom";
    assert SnakePrefix("Prompt", 5) == "promp";
    assert SnakePrefix("Prompt", 6) == "prompt";
  }

  // ---------------------------------------------------------------------
  // ValidationErrorToServiceError (tools/errors.go:11-155)
  // ---------------------------------------------------------------------

  /** What the adapter decides: the code and the message of the ServiceError
      it builds. */
  datatype Conversion = Conversion(code: ValidationCode, message: string)

  const ToolValidationService := "tool-validation"

  lemma ConcatContains(a: string, b: string, c: string)
    ensures Contains(a + b + c, b)
  {
    assert (a + b + c)[|a|..|a| + |b|] == b;
    OccursAtContains(a + b + c, b, |a|);
  }

  lemma SuffixContains(a: string, b: string, p: string)
    requires Contains(b, p)
    ensures Contains(a + b, p)
  {
    var i :| 0 <= i <= |b| - |p| && OccursAt(b, p, i);
    assert (a + b)[|a| + i..|a| + i + |p|] == b[i..i + |p|];
    OccursAtContains(a + b, p, |a| + i);
  }

  /** When p's first rune never occurs in a, p occurs in a + b only inside b. */
  lemma PrefixFreeContains(a: string, b: string, p: string)
    requires |p| > 0 && forall i :: 0 <= i < |a| ==> a[i] != p[0]
    ensures Contains(a + b, p) <==> Contains(b, p)
  {
    if Contains(a + b, p) {
      var i :| 0 <= i <= |a + b| - |p| && OccursAt(a + b, p, i);
      assert (a + b)[i] == p[0];
      assert (a + b)[i..i + |p|] == b[i - |a|..i - |a| + |p|];
      OccursAtContains(b, p, i - |a|);
    }
    if Contains(b, p) {
      SuffixContains(a, b, p);
    }
  }

  /** The switch on the tag of the first field error (tools/errors.go:25-123). */
  function TagConversion(fe: FieldError, toolName: string): (r: Conversion)
    ensures Contains(r.message, SnakeCase(fe.field))
  {
    var name := SnakeCase(fe.field);
    if fe.tag == "required" then
      ConcatContains("Required parameter '", name, "' is missing for tool '" + toolName + "'");
      Conversion(MissingParameter, "Required parameter '" + name + ("' is missing for tool '" + toolName + "'"))
    else if fe.tag == "min" && fe.kind == KindString then
      ConcatContains("Parameter '", name, "' must be at least " + fe.param + " characters long");
      Conversion(StringTooShort, "Parameter '" + name + ("' must be at least " + fe.param + " characters long"))
    else if fe.tag == "min" then
      ConcatContains("Parameter '", name, "' must be at least " + fe.param);
      Conversion(OutOfRange, "Parameter '" + name + ("' must be at least " + fe.param))
    else if fe.tag == "max" && fe.kind == KindString then
      ConcatContains("Parameter '", name, "' must be at most " + fe.param + " characters long");
      Conversion(StringTooLong, "Parameter '" + name + ("' must be at most " + fe.param + " characters long"))
    else if fe.tag == "max" && fe.kind == KindSlice then
      ConcatContains("Parameter '", name, "' must have at most " + fe.param + " items");
      Conversion(ArrayTooLong, "Parameter '" + name + ("' must have at most " + fe.param + " items"))
    else if fe.tag == "max" then
      ConcatContains("Parameter '", name, "' must be at most " + fe.param);
      Conversion(OutOfRange, "Parameter '" + name + ("' must be at most " + fe.param))
    else if fe.tag == "oneof" then
      ConcatContains("Parameter '", name, "' must be one of: " + fe.param);
      Conversion(InvalidEnum, "Parameter '" + name + ("' must be one of: " + fe.param))
    else if fe.tag == "eq" then
      ConcatContains("Parameter '", name, "' must be exactly " + fe.param);
      Conversion(InvalidParameter, "Parameter '" + name + ("' must be exactly " + fe.param))
    else if fe.tag == "url" then
      ConcatContains("Parameter '", name, "' must be a valid URL");
      Conversion(InvalidUrl, "Parameter '" + name + "' must be a valid URL")
    else if fe.tag == "required_without" then
      ConcatContains("Parameter '", name, "' is required when '" + SnakeCase(fe.param) + "' is not provided");
      Conversion(DependencyMissing,
        "Parameter '" + name + ("' is required when '" + SnakeCase(fe.param) + "' is not provided"))
    else
      ConcatContains("Parameter '", name, "' is invalid: " + fe.tag + " validation failed");
      Conversion(InvalidParameter, "Parameter '" + name + ("' is invalid: " + fe.tag + " validation failed"))
  }

  /** The tag switch read backwards: each code comes from exactly these tags
      and kinds. */
  lemma TagCodes(fe: FieldError, toolName: string)
    ensures var c := TagConversion(fe, toolName).code;
      && (c == MissingParameter <==> fe.tag == "required")
      && (c == StringTooShort <==> fe.tag == "min" && fe.kind == KindString)
      && (c == StringTooLong <==> fe.tag == "max" && fe.kind == KindString)
      && (c == ArrayTooLong <==> fe.tag == "max" && fe.kind == KindSlice)
      && (c == OutOfRange <==>
            || (fe.tag == "min" && fe.kind != KindString)
            || (fe.tag == "max" && fe.kind != KindString && fe.kind != KindSlice))
      && (c == InvalidEnum <==> fe.tag == "oneof")
      && (c == InvalidUrl <==> fe.tag == "url")
      && (c == DependencyMissing <==> fe.tag == "required_without")
      && (c == InvalidParameter <==>
            fe.tag !in {"required", "min", "max", "oneof", "url", "required_without"})
      && c !in {InvalidRequest, InvalidFormat, MutuallyExclusive}
  {
  }

  /** The code and message depend on the field error only through its field
      name, tag, parameter and kind: the namespace never matters. */
  lemma TagConversionIgnoresNamespace(fe: FieldError, namespace: string, toolName: string)
    ensures TagConversion(fe.(namespace := namespace), toolName) == TagConversion(fe, toolName)
  {
  }

  /** The branches for errors that are not a validator error list
      (tools/errors.go:128-154). */
  function TextConversion(text: string, toolName: string): (r: Conversion)
    ensures Contains(r.message, text)
    ensures r.code in {MutuallyExclusive, InvalidFormat, InvalidRequest}
    ensures r.code == MutuallyExclusive <==> Contains(text, "either") && Contains(text, "required")
    ensures r.code == InvalidFormat <==>
      !(Contains(text, "either") && Contains(text, "required")) && Contains(text, "cannot unmarshal")
  {
    if Contains(text, "either") && Contains(text, "required") then
      PrefixContained(text, text);
      Conversion(MutuallyExclusive, text)
    else if Contains(text, "cannot unmarshal") then
      ConcatContains("Invalid parameter format for tool '" + toolName + "': ", text, "");
      assert "Invalid parameter format for tool '" + toolName + "': " + text + "" ==
        "Invalid parameter format for tool '" + toolName + "': " + text;
      Conversion(InvalidFormat, "Invalid parameter format for tool '" + toolName + "': " + text)
    else
      ConcatContains("Invalid parameters for tool '" + toolName + "': ", text, "");
      assert "Invalid parameters for tool '" + toolName + "': " + text + "" ==
        "Invalid parameters for tool '" + toolName + "': " + text;
      Conversion(InvalidRequest, "Invalid parameters for tool '" + toolName + "': " + text)
  }

  /** The decision of ValidationErrorToServiceError, with Go's nil as None.
      The type assertion err.(validator.ValidationErrors) matches only an
      error that is itself the validator's list, not one that wraps it.
      The paramName argument is never read. */
  function Convert(err: Option<GoError>, toolName: string): (r: Option<Conversion>)
    ensures r.None? <==> err.None?
  {
    match err
    case None => None
    case Some(e) =>
      if e.FieldErrors? && |e.errs| > 0 then Some(TagConversion(e.errs[0], toolName))
      else Some(TextConversion(ErrorText(e), toolName))
  }

  /** Only the first field error of a list decides the result. */
  lemma {:induction false} FirstFieldErrorDecides(errs: seq<FieldError>, errs': seq<FieldError>, toolName: string)
    requires |errs| > 0 && |errs'| > 0 && errs[0] == errs'[0]
    ensures Convert(Some(FieldErrors(errs)), toolName) == Convert(Some(FieldErrors(errs')), toolName)
    ensures Convert(Some(FieldErrors(errs)), toolName) == Some(TagConversion(errs[0], toolName))
  {
  }

  /** Every ValidationCode is classified as a validation error with status
      400, and its severity is low exactly for the missing and invalid
      parameter codes, medium otherwise. */
  lemma ConversionClassified(code: ValidationCode)
    ensures DetermineCategory(ValidationValue(code)) == CategoryValidation
    ensures DetermineHTTPStatus(ValidationValue(code)) == 400
    ensures DetermineSeverity(ValidationValue(code)) ==
      if code in {MissingParameter, InvalidParameter} then SeverityLow else SeverityMedium
  {
    CategoryOfCode(Validation(code));
    ValidationFacts(code);
    ValidationStatus(ValidationValue(code));
    SeverityExact(ValidationValue(code));
  }

  /** A message that starts with "either" and mentions "required" becomes
      VAL_MUTUALLY_EXCLUSIVE with the message unchanged. */
  lemma EitherRequiredMessage(m: string, i: nat, toolName: string)
    requires HasPrefix(m, "either") && OccursAt(m, "required", i)
    ensures Convert(Some(Message(m)), toolName) == Some(Conversion(MutuallyExclusive, m))
  {
    PrefixContained(m, "either");
    OccursAtContains(m, "required", i);
  }

  /** The Veo3 prompt-or-image message becomes VAL_MUTUALLY_EXCLUSIVE unchanged. */
  lemma PromptOrImageMutuallyExclusive(toolName: string)
    ensures Convert(Some(Message(EitherPromptOrImage)), toolName) == Some(Conversion(MutuallyExclusive, EitherPromptOrImage))
  {
    PrefixByChars(EitherPromptOrImage, "either");
    OccursByChars(EitherPromptOrImage, "required", 26);
    EitherRequiredMessage(EitherPromptOrImage, 26, toolName);
  }

  /** The TrimVideo end-time-or-duration message becomes VAL_MUTUALLY_EXCLUSIVE unchanged. */
  lemma EndTimeOrDurationMutuallyExclusive(toolName: string)
    ensures Convert(Some(Message(EitherEndTimeOrDuration)), toolName) == Some(Conversion(MutuallyExclusive, EitherEndTimeOrDuration))
  {
    PrefixByChars(EitherEndTimeOrDuration, "either");
    OccursByChars(EitherEndTimeOrDuration, "required", 31);
    EitherRequiredMessage(EitherEndTimeOrDuration, 31, toolName);
  }

  /** The ExtractFrame position-or-timestamp message becomes VAL_MUTUALLY_EXCLUSIVE unchanged. */
  lemma PositionOrTimestampMutuallyExclusive(toolName: string)
    ensures Convert(Some(Message(EitherPositionOrTimestamp)), toolName) == Some(Conversion(MutuallyExclusive, EitherPositionOrTimestamp))
  {
    PrefixByChars(EitherPositionOrTimestamp, "either");
    OccursByChars(EitherPositionOrTimestamp, "required", 32);
    EitherRequiredMessage(EitherPositionOrTimestamp, 32, toolName);
  }

  const UnknownToolPrefix := "unknown tool: "

  /** The "unknown tool" error is classified by the tool name alone: with a
      name that mentions neither "either" nor "cannot unmarshal" it becomes
      VAL_INVALID_REQUEST, never one of the TOOL_ codes. */
  lemma UnknownToolInvalidRequest(toolName: string)
    ensures Convert(Some(UnknownTool(toolName)), toolName).value.code ==
      if Contains(toolName, "either") && Contains(toolName, "required") then MutuallyExclusive
      else if Contains(toolName, "cannot unmarshal") then InvalidFormat
      else InvalidRequest
    ensures !Contains(toolName, "either") && !Contains(toolName, "cannot unmarshal") ==>
      Convert(Some(UnknownTool(toolName)), toolName) ==
        Some(Conversion(InvalidRequest, "Invalid parameters for tool '" + toolName + "': unknown tool: " + toolName))
  {
    assert ErrorText(UnknownTool(toolName)) == UnknownToolPrefix + toolName;
    PrefixFreeContains(UnknownToolPrefix, toolName, "either");
    PrefixFreeContains(UnknownToolPrefix, toolName, "required");
    PrefixFreeContains(UnknownToolPrefix, toolName, "cannot unmarshal");
    assert "Invalid parameters for tool '" + toolName + "': " + (UnknownToolPrefix + toolName) ==
      "Invalid parameters for tool '" + toolName + "': unknown tool: " + toolName;
  }

  /** A decoder failure whose text says "cannot unmarshal" is never reported
      as a plain invalid request. */
  lemma DecodeFailureFormat(toolName: string, text: string)
    requires Contains(text, "cannot unmarshal")
    ensures Convert(Some(DecodeError(toolName, text)), toolName).value.code in {InvalidFormat, MutuallyExclusive}
  {
    assert ErrorText(DecodeError(toolName, text)) == "invalid params for " + toolName + ": " + text;
    SuffixContains("invalid params for " + toolName + ": ", text, "cannot unmarshal");
  }

  // ---------------------------------------------------------------------
  // The wrapped validator error (tools/validation.go:12-16 with
  // tools/errors.go:18)
  // ---------------------------------------------------------------------

  /** As written: a declarative failure arrives wrapped in
      "validation failed: ", so the tag switch is skipped and the text
      branches decide; none of the tag-specific codes can come out. */
  lemma DeclarativeFailureSkipsTagSwitch(e: GoError, toolName: string)
    requires DeclarativeFailure(e)
    ensures Convert(Some(e), toolName) == Some(TextConversion(ErrorText(e), toolName))
    ensures Convert(Some(e), toolName).value.code in {MutuallyExclusive, InvalidFormat, InvalidRequest}
  {
  }

  /** As written: an Imagen request with an empty prompt is not reported as
      a missing parameter. */
  lemma ImagenEmptyPromptAsWritten(p: ImagenParams)
    requires p.prompt == ""
    ensures Convert(ValidateImagen(p), Name(GenerateImageImagen)).Some?
    ensures Convert(ValidateImagen(p), Name(GenerateImageImagen)).value.code != MissingParameter
  {
    ImagenEmptyPromptFirstError(p);
    DeclarativeFailureSkipsTagSwitch(ValidateImagen(p).value, Name(GenerateImageImagen));
  }

  /** errors.As: the validator's list, found through any chain of wrapping
      errors. */
  function FindFieldErrors(e: GoError): (r: Option<seq<FieldError>>)
    ensures e.FieldErrors? ==> r == Some(e.errs)
    ensures e.Message? ==> r.None?
  {
    match e
    case Message(_) => None
    case Wrapped(_, inner) => FindFieldErrors(inner)
    case FieldErrors(errs) => Some(errs)
  }

  /** Corrected: the decision with the validator's list unwrapped first. */
  function ConvertUnwrapping(err: Option<GoError>, toolName: string): (r: Option<Conversion>)
    ensures r.None? <==> err.None?
  {
    match err
    case None => None
    case Some(e) =>
      match FindFieldErrors(e)
      case Some(errs) =>
        if |errs| > 0 then Some(TagConversion(errs[0], toolName))
        else Some(TextConversion(ErrorText(e), toolName))
      case None => Some(TextConversion(ErrorText(e), toolName))
  }

  /** Corrected: it agrees with the code as written on every error that does
      not wrap a validator list. */
  lemma ConvertUnwrappingAgrees(err: Option<GoError>, toolName: string)
    requires err.Some? ==> err.value.FieldErrors? || FindFieldErrors(err.value).None?
    ensures ConvertUnwrapping(err, toolName) == Convert(err, toolName)
  {
  }

  /** Corrected: a declarative failure reaches the tag switch. */
  lemma UnwrappingReachesTagSwitch(e: GoError, toolName: string)
    requires DeclarativeFailure(e)
    ensures ConvertUnwrapping(Some(e), toolName) == Some(TagConversion(e.inner.errs[0], toolName))
  {
  }

  /** Corrected: an Imagen request with an empty prompt is reported as the
      missing "prompt" parameter. */
  lemma ImagenEmptyPromptCorrected(p: ImagenParams)
    requires p.prompt == ""
    ensures ConvertUnwrapping(ValidateImagen(p), Name(GenerateImageImagen)) ==
      Some(Conversion(MissingParameter,
        "Required parameter '" + "prompt" + ("' is missing for tool '" + "generate-image-imagen" + "'")))
  {
    ImagenEmptyPromptFirstError(p);
    UnwrappingReachesTagSwitch(ValidateImagen(p).value, Name(GenerateImageImagen));
    SnakePrompt();
  }

  // ---------------------------------------------------------------------
  // The ServiceError the adapter builds
  // ---------------------------------------------------------------------

  /** ValidationErrorToServiceError (tools/errors.go:12-155), as written: the
      plain type assertion, so a wrapped validator list takes the text
      branch. */
  method ValidationErrorToServiceError(err: Option<GoError>, toolName: string, paramName: string, now: int)
    returns (r: ServiceError?)
    ensures r == null <==> err.None?
    ensures r != null ==> fresh(r)
    ensures r != null ==> (r.State() ==
      Fresh(ValidationValue(Convert(err, toolName).value.code), Convert(err, toolName).value.message,
        ToolValidationService, false, now, null))
  {
    var c := Convert(err, toolName);
    if c.None? {
      return null;
    }
    r := new ServiceError(ValidationValue(c.value.code), c.value.message, ToolValidationService, false, now);
  }

  /** ValidateAndGetError (tools/errors.go:169-176), as written. */
  method ValidateAndGetError(toolName: string, payload: Payload, now: int) returns (r: ServiceError?)
    ensures r == null <==> ParseAndValidateParams(toolName, payload).None?
    ensures r != null ==> fresh(r)
    ensures r != null ==> (r.State() ==
      Fresh(ValidationValue(Convert(ParseAndValidateParams(toolName, payload), toolName).value.code),
        Convert(ParseAndValidateParams(toolName, payload), toolName).value.message,
        ToolValidationService, false, now, null))
  {
    var err := ParseAndValidateParams(toolName, payload);
    if err.None? {
      return null;
    }
    r := ValidationErrorToServiceError(err, toolName, "", now);
  }

  /** The adapter as evidently intended: the validator's list is found
      through the wrapping, as errors.As would, before the tag switch. */
  method ValidationErrorToServiceErrorUnwrapping(err: Option<GoError>, toolName: string, paramName: string, now: int)
    returns (r: ServiceError?)
    ensures r == null <==> err.None?
    ensures r != null ==> fresh(r)
    ensures r != null ==> (r.State() ==
      Fresh(ValidationValue(ConvertUnwrapping(err, toolName).value.code), ConvertUnwrapping(err, toolName).value.message,
        ToolValidationService, false, now, null))
  {
    var c := ConvertUnwrapping(err, toolName);
    if c.None? {
      return null;
    }
    r := new ServiceError(ValidationValue(c.value.code), c.value.message, ToolValidationService, false, now);
  }

  /** ValidateAndGetError over the corrected adapter. */
  method ValidateAndGetErrorUnwrapping(toolName: string, payload: Payload, now: int) returns (r: ServiceError?)
    ensures r == null <==> ParseAndValidateParams(toolName, payload).None?
    ensures r != null ==> fresh(r)
    ensures r != null ==> (r.State() ==
      Fresh(ValidationValue(ConvertUnwrapping(ParseAndValidateParams(toolName, payload), toolName).value.code),
        ConvertUnwrapping(ParseAndValidateParams(toolName, payload), toolName).value.message,
        ToolValidationService, false, now, null))
  {
    var err := ParseAndValidateParams(toolName, payload);
    if err.None? {
      return null;
    }
    r := ValidationErrorToServiceErrorUnwrapping(err, toolName, "", now);
  }

  /** The outcome ValidateAndGetError reports, as written and corrected
      alike: nil exactly when the parameters are accepted, and an unknown
      name as an invalid request. */
  lemma ValidateAndGetOutcome(toolName: string, payload: Payload)
    ensures Convert(ParseAndValidateParams(toolName, payload), toolName).None? <==>
      && payload.marshalFailure.None?
      && ParseToolName(toolName).Some?
      && Accepts(ParseToolName(toolName).value, payload)
    ensures ConvertUnwrapping(ParseAndValidateParams(toolName, payload), toolName).None? <==>
      Convert(ParseAndValidateParams(toolName, payload), toolName).None?
    ensures (&& payload.marshalFailure.None? && !IsValidToolName(toolName)
             && !Contains(toolName, "either") && !Contains(toolName, "cannot unmarshal")) ==>
      && Convert(ParseAndValidateParams(toolName, payload), toolName).value.code == InvalidRequest
      && ConvertUnwrapping(ParseAndValidateParams(toolName, payload), toolName).value.code == InvalidRequest
  {
    ParseAndValidateAccepts(toolName, payload);
    UnknownToolIff(toolName, payload);
    UnknownToolInvalidRequest(toolName);
    if payload.marshalFailure.None? && !IsValidToolName(toolName) {
      ConvertUnwrappingAgrees(ParseAndValidateParams(toolName, payload), toolName);
    }
  }
}
