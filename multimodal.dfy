// Multi-turn context messages for multimodal models (tools/multimodal.go).
module ToolMultimodal {
  import opened Wrappers
  import opened Text
  import opened ToolValidation

  /** A message part: text, an image reference by storage URL, or both. */
  datatype MessagePart = MessagePart(text: string, storageURL: string)

  /** A turn of the context: the speaker and its parts. */
  datatype ContextMessage = ContextMessage(role: string, parts: seq<MessagePart>)

  const EmptyPart := "message part must have either text or storage_url"
  const BadRole := "role must be 'user' or 'model'"
  const NoParts := "context message must have at least one part"

  predicate PartPopulated(p: MessagePart)
  {
    p.text != "" || p.storageURL != ""
  }

  /** MessagePart.Validate (tools/multimodal.go:18-24). */
  function ValidatePart(p: MessagePart): (r: Option<GoError>)
    ensures r.None? <==> PartPopulated(p)
    ensures r.Some? ==> r.value == Message(EmptyPart)
  {
    if p.text == "" && p.storageURL == "" then Some(Message(EmptyPart)) else None
  }

  /** The index at which the loop over parts, started at `from`, stops: the
      first part that fails, or |parts| when none does. */
  function FirstInvalidPart(parts: seq<MessagePart>, from: nat): (k: nat)
    requires from <= |parts|
    ensures from <= k <= |parts|
    ensures forall j :: from <= j < k ==> PartPopulated(parts[j])
    ensures k < |parts| ==> !PartPopulated(parts[k])
    decreases |parts| - from
  {
    if from == |parts| then from
    else if ValidatePart(parts[from]).Some? then from
    else FirstInvalidPart(parts, from + 1)
  }

  /** The error for the part at index i: "part[i]: " before the part's error. */
  function PartError(i: nat): GoError
  {
    Wrapped("part[" + NatToString(i) + "]: ", Message(EmptyPart))
  }

  /** ContextMessage.Validate (tools/multimodal.go:27-43). */
  function ValidateContext(c: ContextMessage): (r: Option<GoError>)
    ensures r.None? <==>
      && c.role in {"user", "model"}
      && |c.parts| > 0
      && forall j :: 0 <= j < |c.parts| ==> PartPopulated(c.parts[j])
    ensures c.role !in {"user", "model"} ==> r == Some(Message(BadRole))
    ensures c.role in {"user", "model"} && |c.parts| == 0 ==> r == Some(Message(NoParts))
  {
    if c.role != "user" && c.role != "model" then Some(Message(BadRole))
    else if |c.parts| == 0 then Some(Message(NoParts))
    else
      var k := FirstInvalidPart(c.parts, 0);
      if k < |c.parts| then Some(PartError(k)) else None
  }

  /** A failing part is reported by the index of the first part that fails:
      every part before it is populated and the named one is empty. */
  lemma FirstInvalidReported(c: ContextMessage, k: nat)
    requires c.role in {"user", "model"}
    requires k < |c.parts| && !PartPopulated(c.parts[k])
    requires forall j :: 0 <= j < k ==> PartPopulated(c.parts[j])
    ensures ValidateContext(c) == Some(PartError(k))
  {
    assert FirstInvalidPart(c.parts, 0) == k;
  }
}
