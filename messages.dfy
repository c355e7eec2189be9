// The messages exchanged between the platform and the chat service
// (messages/conversation.go, messages/tool_result.go).
module Messages {
  import opened Wrappers
  import opened Text
  import opened ToolValidation
  import opened Checks
  import ResultTypes
  import ResultsCommon
  import ContentResults

  /** A tool call of a history message. Its definition and its Validate are
      not part of this model: every validator below takes that check as a
      parameter. */
  datatype ToolCall = ToolCall(id: nat)

  /** HistoryMessage (messages/conversation.go:38-44). */
  datatype HistoryMessage = HistoryMessage(
    role: string,
    content: string,
    toolCalls: seq<ToolCall>,
    rawThoughts: Option<string>,
    timestamp: int)

  /** ConversationHistory (messages/conversation.go:33-35). */
  datatype ConversationHistory = ConversationHistory(messages: seq<HistoryMessage>)

  /** MediaAsset of the media registry (messages/conversation.go:47-56). */
  datatype MediaAsset = MediaAsset(
    refID: string,
    refType: string,
    refIndex: int,
    storageURL: string,
    publicURL: string,
    mimeType: string,
    toolName: string,
    createdAt: int)

  /** PlanContext (messages/tool_result.go:37-42). */
  datatype PlanContext = PlanContext(planID: string, stepIndex: int, totalSteps: int, isLastStep: bool)

  /** ToolResultMessage (messages/tool_result.go:14-34). */
  datatype ToolResultMessage = ToolResultMessage(
    conversationID: string,
    messageID: string,
    userID: string,
    toolRef: string,
    toolName: string,
    jobID: string,
    result: Option<ResultTypes.ToolResult>,
    deliveredAt: int,
    planContext: Option<PlanContext>)

  /** ConversationMessage (messages/conversation.go:11-30). */
  datatype ConversationMessage = ConversationMessage(
    conversationID: string,
    messageID: string,
    userID: string,
    role: string,
    content: string,
    toolResultMessage: Option<ToolResultMessage>,
    history: Option<ConversationHistory>,
    mediaRegistry: seq<MediaAsset>,
    enableThinking: bool)

  predicate ValidRole(role: string)
  {
    role == "user" || role == "assistant" || role == "system"
  }

  function Indexed(field: string, i: nat): string
  {
    "invalid " + field + "[" + NatToString(i) + "]: "
  }

  // ---- MediaAsset ----

  predicate AssetComplete(a: MediaAsset)
  {
    a.refID != "" && a.refType != "" && a.storageURL != "" && a.publicURL != "" && a.mimeType != ""
  }

  /** MediaAsset.Validate (messages/conversation.go:146-162): five fields,
      in order, the first empty one reported. */
  function ValidateMediaAsset(a: MediaAsset): (e: Option<GoError>)
    ensures e.None? <==> AssetComplete(a)
    ensures a.refID == "" ==> e == Some(Message("refId is required"))
    ensures a.refID != "" && a.refType == "" ==> e == Some(Message("refType is required"))
    ensures a.refID != "" && a.refType != "" && a.storageURL == "" ==> e == Some(Message("storageUrl is required"))
    ensures a.refID != "" && a.refType != "" && a.storageURL != "" && a.publicURL == "" ==>
      e == Some(Message("publicUrl is required"))
    ensures a.refID != "" && a.refType != "" && a.storageURL != "" && a.publicURL != "" && a.mimeType == "" ==>
      e == Some(Message("mimeType is required"))
  {
    if a.refID == "" then Some(Message("refId is required"))
    else if a.refType == "" then Some(Message("refType is required"))
    else if a.storageURL == "" then Some(Message("storageUrl is required"))
    else if a.publicURL == "" then Some(Message("publicUrl is required"))
    else if a.mimeType == "" then Some(Message("mimeType is required"))
    else None
  }

  // ---- HistoryMessage and ConversationHistory ----

  /** HistoryMessage.Validate (messages/conversation.go:123-143): a known
      role, then content or at least one tool call, then each tool call in
      order. */
  function ValidateHistoryMessage(hm: HistoryMessage, toolCallCheck: ToolCall -> Option<GoError>): (e: Option<GoError>)
    ensures e.None? <==>
      && ValidRole(hm.role)
      && (hm.content != "" || |hm.toolCalls| > 0)
      && forall i :: 0 <= i < |hm.toolCalls| ==> toolCallCheck(hm.toolCalls[i]).None?
    ensures !ValidRole(hm.role) ==> e == Some(Message("invalid role: " + hm.role))
    ensures ValidRole(hm.role) && hm.content == "" && |hm.toolCalls| == 0 ==>
      e == Some(Message("message must have content or tool calls"))
  {
    if !ValidRole(hm.role) then Some(Message("invalid role: " + hm.role))
    else if hm.content == "" && |hm.toolCalls| == 0 then Some(Message("message must have content or tool calls"))
    else
      var k := FirstError(hm.toolCalls, toolCallCheck, 0);
      if k < |hm.toolCalls| then Some(Wrapped(Indexed("toolCall", k), toolCallCheck(hm.toolCalls[k]).value))
      else None
  }

  /** The first failing tool call is reported by its index, wrapping its own
      error. */
  lemma FirstBadToolCallReported(hm: HistoryMessage, toolCallCheck: ToolCall -> Option<GoError>, k: nat)
    requires ValidRole(hm.role)
    requires k < |hm.toolCalls| && toolCallCheck(hm.toolCalls[k]).Some?
    requires forall j :: 0 <= j < k ==> toolCallCheck(hm.toolCalls[j]).None?
    ensures ValidateHistoryMessage(hm, toolCallCheck) ==
      Some(Wrapped(Indexed("toolCall", k), toolCallCheck(hm.toolCalls[k]).value))
  {
    assert FirstError(hm.toolCalls, toolCallCheck, 0) == k;
  }

  /** The index of the first history message that fails, from `from` on. */
  function FirstBadMessage(msgs: seq<HistoryMessage>, toolCallCheck: ToolCall -> Option<GoError>, from: nat): (k: nat)
    requires from <= |msgs|
    ensures from <= k <= |msgs|
    ensures forall j :: from <= j < k ==> ValidateHistoryMessage(msgs[j], toolCallCheck).None?
    ensures k < |msgs| ==> ValidateHistoryMessage(msgs[k], toolCallCheck).Some?
    decreases |msgs| - from
  {
    if from == |msgs| then from
    else if ValidateHistoryMessage(msgs[from], toolCallCheck).Some? then from
    else FirstBadMessage(msgs, toolCallCheck, from + 1)
  }

  /** ConversationHistory.Validate (messages/conversation.go:113-120). */
  function ValidateHistory(h: ConversationHistory, toolCallCheck: ToolCall -> Option<GoError>): (e: Option<GoError>)
    ensures e.None? <==> forall i :: 0 <= i < |h.messages| ==> ValidateHistoryMessage(h.messages[i], toolCallCheck).None?
  {
    var k := FirstBadMessage(h.messages, toolCallCheck, 0);
    if k < |h.messages| then Some(Wrapped(Indexed("message", k), ValidateHistoryMessage(h.messages[k], toolCallCheck).value))
    else None
  }

  /** The first failing history message is reported by its index. */
  lemma FirstBadMessageReported(h: ConversationHistory, toolCallCheck: ToolCall -> Option<GoError>, k: nat)
    requires k < |h.messages| && ValidateHistoryMessage(h.messages[k], toolCallCheck).Some?
    requires forall j :: 0 <= j < k ==> ValidateHistoryMessage(h.messages[j], toolCallCheck).None?
    ensures ValidateHistory(h, toolCallCheck) ==
      Some(Wrapped(Indexed("message", k), ValidateHistoryMessage(h.messages[k], toolCallCheck).value))
  {
    assert FirstBadMessage(h.messages, toolCallCheck, 0) == k;
  }

  // ---- ToolResultMessage ----

  const PlanIDRequired := "planContext.planId is required when planContext is present"
  const StepNegative := "planContext.stepIndex must be non-negative"
  const StepTooLarge := "planContext.stepIndex must be less than totalSteps"

  predicate RoutingComplete(m: ToolResultMessage)
  {
    m.conversationID != "" && m.messageID != "" && m.userID != "" && m.toolRef != "" && m.toolName != ""
  }

  predicate PlanWellFormed(p: PlanContext)
  {
    p.planID != "" && 0 <= p.stepIndex < p.totalSteps
  }

  /** The routing fields in order (messages/tool_result.go:46-63). */
  function RoutingError(m: ToolResultMessage): (e: Option<GoError>)
    ensures e.None? <==> RoutingComplete(m) && m.result.Some?
    ensures m.conversationID == "" ==> e == Some(Message("conversationId is required"))
  {
    if m.conversationID == "" then Some(Message("conversationId is required"))
    else if m.messageID == "" then Some(Message("messageId is required"))
    else if m.userID == "" then Some(Message("userId is required"))
    else if m.toolRef == "" then Some(Message("toolRef is required"))
    else if m.toolName == "" then Some(Message("toolName is required"))
    else if m.result.None? then Some(Message("result is required"))
    else None
  }

  /** The PlanContext bounds (messages/tool_result.go:71-81). */
  function PlanError(p: PlanContext): (e: Option<GoError>)
    ensures e.None? <==> PlanWellFormed(p)
    ensures p.planID == "" ==> e == Some(Message(PlanIDRequired))
    ensures p.planID != "" && p.stepIndex < 0 ==> e == Some(Message(StepNegative))
    ensures p.planID != "" && 0 <= p.stepIndex && p.stepIndex >= p.totalSteps ==> e == Some(Message(StepTooLarge))
  {
    if p.planID == "" then Some(Message(PlanIDRequired))
    else if p.stepIndex < 0 then Some(Message(StepNegative))
    else if p.stepIndex >= p.totalSteps then Some(Message(StepTooLarge))
    else None
  }

  /** ToolResultMessage.Validate (messages/tool_result.go:45-84): routing,
      then the nested result's own check, then the plan context when there
      is one. */
  function ValidateToolResultMessage(m: ToolResultMessage): (e: Option<GoError>)
    ensures e.None? <==>
      && RoutingComplete(m)
      && m.result.Some?
      && ResultsCommon.ToolResultError(m.result.value).None?
      && (m.planContext.Some? ==> PlanWellFormed(m.planContext.value))
    ensures RoutingComplete(m) && m.result.Some? && ResultsCommon.ToolResultError(m.result.value).Some? ==>
      e == Some(Wrapped("invalid result: ", ResultsCommon.ToolResultError(m.result.value).value))
  {
    var routing := RoutingError(m);
    if routing.Some? then routing
    else
      var inner := ResultsCommon.ToolResultError(m.result.value);
      if inner.Some? then Some(Wrapped("invalid result: ", inner.value))
      else if m.planContext.Some? then PlanError(m.planContext.value)
      else None
  }

  /** An accepted plan context has at least one step and its index lies
      within the steps. */
  lemma PlanContextBounds(m: ToolResultMessage)
    requires ValidateToolResultMessage(m).None? && m.planContext.Some?
    ensures m.planContext.value.totalSteps >= 1
    ensures 0 <= m.planContext.value.stepIndex < m.planContext.value.totalSteps
  {
  }

  /** The job ID and the last-step flag are never checked: changing them
      never changes the outcome, so a plan's last step may be flagged false
      and an earlier step true. */
  lemma JobIDAndLastStepUnchecked(m: ToolResultMessage, jobID: string, isLastStep: bool)
    ensures ValidateToolResultMessage(m.(jobID := jobID)) == ValidateToolResultMessage(m)
    ensures m.planContext.Some? ==>
      ValidateToolResultMessage(m.(planContext := Some(m.planContext.value.(isLastStep := isLastStep)))) ==
      ValidateToolResultMessage(m)
  {
  }

  /** A search result cannot be delivered: the envelope check inside the
      message rejects every result NewGoogleSearchResult builds. */
  lemma SearchResultsUndeliverable(m: ToolResultMessage, jobID: string, query: string,
                                   results: seq<ResultTypes.SearchResult>, summary: string,
                                   meta: ResultTypes.ExecutionMetadata)
    requires RoutingComplete(m)
    ensures ValidateToolResultMessage(m.(result := Some(ContentResults.NewGoogleSearchResult(jobID, query, results, summary, meta))))
      == Some(Wrapped("invalid result: ", ResultsCommon.CountError(0)))
  {
    ContentResults.ContentResultsFailEnvelope(jobID, [], query, summary, "", [], results, meta);
  }

  // ---- ConversationMessage ----

  predicate IdentityComplete(cm: ConversationMessage)
  {
    cm.conversationID != "" && cm.messageID != "" && cm.userID != ""
  }

  /** A user or assistant message needs content; a system message needs
      content or a tool result. */
  predicate HasBody(cm: ConversationMessage)
  {
    cm.content != "" || (cm.role == "system" && cm.toolResultMessage.Some?)
  }

  /** The identity, role and body checks (messages/conversation.go:60-86). */
  function HeaderError(cm: ConversationMessage): (e: Option<GoError>)
    ensures e.None? <==> IdentityComplete(cm) && ValidRole(cm.role) && HasBody(cm)
    ensures IdentityComplete(cm) && !ValidRole(cm.role) ==> e == Some(Message("invalid role: " + cm.role))
    ensures IdentityComplete(cm) && ValidRole(cm.role) && cm.role != "system" && cm.content == "" ==>
      e == Some(Message("content is required for " + cm.role + " messages"))
    ensures IdentityComplete(cm) && cm.role == "system" && cm.content == "" && cm.toolResultMessage.None? ==>
      e == Some(Message("system messages must have content or toolResultMessage"))
  {
    if cm.conversationID == "" then Some(Message("conversationId is required"))
    else if cm.messageID == "" then Some(Message("messageId is required"))
    else if cm.userID == "" then Some(Message("userId is required"))
    else if !ValidRole(cm.role) then Some(Message("invalid role: " + cm.role))
    else if cm.role != "system" && cm.content == "" then Some(Message("content is required for " + cm.role + " messages"))
    else if cm.role == "system" && cm.content == "" && cm.toolResultMessage.None? then
      Some(Message("system messages must have content or toolResultMessage"))
    else None
  }

  predicate NestedValid(cm: ConversationMessage, toolCallCheck: ToolCall -> Option<GoError>)
  {
    && (cm.toolResultMessage.Some? ==> ValidateToolResultMessage(cm.toolResultMessage.value).None?)
    && (cm.history.Some? ==> ValidateHistory(cm.history.value, toolCallCheck).None?)
    && forall i :: 0 <= i < |cm.mediaRegistry| ==> AssetComplete(cm.mediaRegistry[i])
  }

  /** The media registry, in order (messages/conversation.go:102-107). */
  function RegistryError(registry: seq<MediaAsset>): (e: Option<GoError>)
    ensures e.None? <==> forall i :: 0 <= i < |registry| ==> AssetComplete(registry[i])
  {
    var k := FirstError(registry, ValidateMediaAsset, 0);
    if k < |registry| then Some(Wrapped(Indexed("mediaRegistry", k), ValidateMediaAsset(registry[k]).value))
    else None
  }

  /** ConversationMessage.Validate (messages/conversation.go:59-110): the
      header, then the tool result, then the history, then the media
      registry; every nested error is wrapped with where it came from. */
  function ValidateConversationMessage(cm: ConversationMessage, toolCallCheck: ToolCall -> Option<GoError>)
    : (e: Option<GoError>)
    ensures e.None? <==> HeaderError(cm).None? && NestedValid(cm, toolCallCheck)
    ensures (HeaderError(cm).None? && cm.toolResultMessage.Some? &&
             ValidateToolResultMessage(cm.toolResultMessage.value).Some?) ==>
      e == Some(Wrapped("invalid toolResultMessage: ", ValidateToolResultMessage(cm.toolResultMessage.value).value))
  {
    var header := HeaderError(cm);
    if header.Some? then header
    else if cm.toolResultMessage.Some? && ValidateToolResultMessage(cm.toolResultMessage.value).Some? then
      Some(Wrapped("invalid toolResultMessage: ", ValidateToolResultMessage(cm.toolResultMessage.value).value))
    else if cm.history.Some? && ValidateHistory(cm.history.value, toolCallCheck).Some? then
      Some(Wrapped("invalid history: ", ValidateHistory(cm.history.value, toolCallCheck).value))
    else RegistryError(cm.mediaRegistry)
  }

  /** The history is looked at only once the tool result passes, and its
      error is reported wrapped. */
  lemma HistoryErrorReported(cm: ConversationMessage, toolCallCheck: ToolCall -> Option<GoError>)
    requires HeaderError(cm).None?
    requires cm.toolResultMessage.Some? ==> ValidateToolResultMessage(cm.toolResultMessage.value).None?
    requires cm.history.Some? && ValidateHistory(cm.history.value, toolCallCheck).Some?
    ensures ValidateConversationMessage(cm, toolCallCheck) ==
      Some(Wrapped("invalid history: ", ValidateHistory(cm.history.value, toolCallCheck).value))
  {
  }

  /** The first incomplete registry asset is reported by its index once
      everything before the registry passes. */
  lemma FirstBadRegistryAssetReported(cm: ConversationMessage, toolCallCheck: ToolCall -> Option<GoError>, k: nat)
    requires HeaderError(cm).None?
    requires cm.toolResultMessage.Some? ==> ValidateToolResultMessage(cm.toolResultMessage.value).None?
    requires cm.history.Some? ==> ValidateHistory(cm.history.value, toolCallCheck).None?
    requires k < |cm.mediaRegistry| && !AssetComplete(cm.mediaRegistry[k])
    requires forall j :: 0 <= j < k ==> AssetComplete(cm.mediaRegistry[j])
    ensures ValidateConversationMessage(cm, toolCallCheck) ==
      Some(Wrapped(Indexed("mediaRegistry", k), ValidateMediaAsset(cm.mediaRegistry[k]).value))
  {
    assert FirstError(cm.mediaRegistry, ValidateMediaAsset, 0) == k;
  }

  /** A system message without content is accepted only with a tool
      result, and then only if that tool result itself passes. */
  lemma SystemMessageWithoutContent(cm: ConversationMessage, toolCallCheck: ToolCall -> Option<GoError>)
    requires cm.role == "system" && cm.content == ""
    ensures ValidateConversationMessage(cm, toolCallCheck).None? ==>
      cm.toolResultMessage.Some? && ValidateToolResultMessage(cm.toolResultMessage.value).None?
  {
  }
}
