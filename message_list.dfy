/** What the message list shows: tool results already rendered under
    their tool call are hidden, results are looked up by call id, and
    the typing indicator and pinned group are derived from the
    positions of the last user and non-user messages. */
module MessageList {
  import opened Base
  import opened Messages
  import opened ChatUtils

  // Linked tool-call ids

  /** The id a tool call contributes: its trimmed id, unless empty. */
  function CallId(call: ToolCall): set<string> {
    var id := Trim(call.id);
    if id != "" then {id} else {}
  }

  /** The ids an assistant message contributes; other messages none. */
  function AssistantCallIds(m: Message): set<string> {
    if HasRole(m, "assistant") then UnionMap(ToolCallsFromMessage(m), CallId) else {}
  }

  /** The ids of the tool calls made by assistant messages. */
  function LinkedIds(messages: seq<Message>): set<string> {
    UnionMap(messages, AssistantCallIds)
  }

  /** `linkedToolCallIds` */
  method LinkedToolCallIds(messages: seq<Message>) returns (ids: set<string>)
    ensures ids == LinkedIds(messages)
  {
    ids := {};
    var i := 0;
    while i < |messages|
      invariant 0 <= i <= |messages|
      invariant ids == LinkedIds(messages[..i])
    {
      var message := messages[i];
      assert messages[..i + 1][..i] == messages[..i];
      if message.role == Has("assistant") {
        var toolCalls := ToolCallsFromMessage(message);
        var j := 0;
        while j < |toolCalls|
          invariant 0 <= j <= |toolCalls|
          invariant ids == LinkedIds(messages[..i]) + UnionMap(toolCalls[..j], CallId)
        {
          assert toolCalls[..j + 1][..j] == toolCalls[..j];
          var toolCallId := Trim(toolCalls[j].id);
          if toolCallId != "" {
            ids := ids + {toolCallId};
          }
          j := j + 1;
        }
        assert toolCalls[..j] == toolCalls;
      }
      i := i + 1;
    }
    assert messages[..i] == messages;
  }

  /** The linked ids are exactly the trimmed, non-empty ids of the tool
      calls in assistant messages. */
  lemma LinkedIdsExactly(messages: seq<Message>, x: string)
    ensures x in LinkedIds(messages)
            <==> x != "" && exists i, c :: 0 <= i < |messages| && HasRole(messages[i], "assistant")
                                         && c in ToolCallsFromMessage(messages[i]) && Trim(c.id) == x
  {
    UnionMapHas(messages, AssistantCallIds, x);
    forall i | 0 <= i < |messages| {
      UnionMapHas(ToolCallsFromMessage(messages[i]), CallId, x);
    }
  }

  // Displayed messages

  /** The filter of `displayMessages`: a tool result is hidden only when
      tool messages are shown and its trimmed call id is linked. */
  predicate Shown(m: Message, linked: set<string>, showToolMessages: bool) {
    !HasRole(m, "toolResult") || !showToolMessages || Norm(m.toolCallId) == "" || Norm(m.toolCallId) !in linked
  }

  function ShownIn(linked: set<string>, showToolMessages: bool): Message -> bool {
    (m: Message) => Shown(m, linked, showToolMessages)
  }

  /** `displayMessages` */
  function DisplayMessages(messages: seq<Message>, showToolMessages: bool): (r: seq<Message>)
    ensures |r| <= |messages|
    ensures forall i :: 0 <= i < |r| ==> r[i] in messages
    ensures forall i :: 0 <= i < |messages| && !HasRole(messages[i], "toolResult") ==> messages[i] in r
  {
    Filter(messages, ShownIn(LinkedIds(messages), showToolMessages))
  }

  /** A message is displayed exactly when it is not a tool result whose
      call is rendered by an assistant message; every other message,
      and in particular every message that is not a tool result, stays. */
  lemma DisplayedIff(messages: seq<Message>, showToolMessages: bool, m: Message)
    requires m in messages
    ensures m in DisplayMessages(messages, showToolMessages)
            <==> !(HasRole(m, "toolResult") && showToolMessages && Norm(m.toolCallId) != ""
                   && Norm(m.toolCallId) in LinkedIds(messages))
  {
    var p := ShownIn(LinkedIds(messages), showToolMessages);
    var k :| 0 <= k < |messages| && messages[k] == m;
    if p(m) {
      assert p(messages[k]);
    }
  }

  /** With tool messages hidden, the list is displayed unchanged. */
  lemma HiddenToolsKeepAll(messages: seq<Message>)
    ensures DisplayMessages(messages, false) == messages
  {
    FilterAll(messages, ShownIn(LinkedIds(messages), false));
  }

  // Tool results by call id

  /** The key a message is filed under: the untrimmed call id of a
      tool result whose id is a string that is not blank. */
  function ResultKey(m: Message): Option<string> {
    if HasRole(m, "toolResult") && m.toolCallId.Has? && Trim(m.toolCallId.value) != ""
    then Some(m.toolCallId.value)
    else None
  }

  function ResultsByCallId(messages: seq<Message>): map<string, Message> {
    IndexBy(messages, ResultKey)
  }

  /** `toolResultsByCallId` */
  method ToolResultsByCallId(messages: seq<Message>) returns (results: map<string, Message>)
    ensures results == ResultsByCallId(messages)
  {
    results := map[];
    var i := 0;
    while i < |messages|
      invariant 0 <= i <= |messages|
      invariant results == ResultsByCallId(messages[..i])
    {
      var message := messages[i];
      assert messages[..i + 1][..i] == messages[..i];
      if message.role == Has("toolResult") {
        var toolCallId := message.toolCallId;
        if toolCallId.Has? && |Trim(toolCallId.value)| > 0 {
          results := results[toolCallId.value := message];
        }
      }
      i := i + 1;
    }
    assert messages[..i] == messages;
  }

  /** An id is a key exactly when some tool result carries it as a
      non-blank string id, and it maps to the last such result. */
  lemma LastResultWins(messages: seq<Message>, k: string)
    ensures var r := ResultsByCallId(messages);
            (k in r <==> exists i :: 0 <= i < |messages| && ResultKey(messages[i]) == Some(k))
            && (k in r ==> exists i :: 0 <= i < |messages| && ResultKey(messages[i]) == Some(k) && r[k] == messages[i]
                                       && forall j :: i < j < |messages| ==> ResultKey(messages[j]) != Some(k))
  {
    IndexByLastWins(messages, ResultKey, k);
  }

  lemma ResultKeyIff(m: Message, k: string)
    ensures ResultKey(m) == Some(k) <==> HasRole(m, "toolResult") && m.toolCallId == Has(k) && !AllSpace(k)
  {
    TrimEmptyIffBlank(k);
  }

  // Typing indicator and pinned group

  function IsUserMessage(m: Message): bool {
    HasRole(m, "user")
  }

  function IsNonUser(m: Message): bool {
    !HasRole(m, "user")
  }

  /** `showTypingIndicator`, where a missing index is -1. */
  function ShowTypingIndicator(waitingForResponse: bool, display: seq<Message>): (r: bool)
    ensures r ==> waitingForResponse
    ensures waitingForResponse && display == [] ==> r
    ensures waitingForResponse && display != [] && HasRole(display[|display| - 1], "user") ==> r
    ensures (display != [] && !HasRole(display[|display| - 1], "user")
             && exists i :: 0 <= i < |display| && HasRole(display[i], "user")) ==> !r
  {
    var lastUserIndex := LastIndex(display, IsUserMessage);
    var lastAssistantIndex := LastIndex(display, IsNonUser);
    waitingForResponse && (lastUserIndex < 0 || lastAssistantIndex < 0 || lastAssistantIndex < lastUserIndex)
  }

  /** The indicator shows exactly while waiting and either no message is
      displayed, no user message is, or the last one is the user's. */
  lemma TypingIndicatorIff(waitingForResponse: bool, display: seq<Message>)
    ensures ShowTypingIndicator(waitingForResponse, display)
            <==> waitingForResponse
                 && (display == [] || HasRole(display[|display| - 1], "user")
                     || forall i :: 0 <= i < |display| ==> !HasRole(display[i], "user"))
  {
    if display != [] {
      var n := |display| - 1;
      if HasRole(display[n], "user") {
        assert IsUserMessage(display[n]);
      } else {
        assert IsNonUser(display[n]);
      }
    }
  }

  /** `hasGroup`: pinning applies when a user message is displayed. */
  function HasGroup(pinToTop: bool, display: seq<Message>): (r: bool)
    ensures r ==> pinToTop && display != []
    ensures pinToTop && display != [] && HasRole(display[|display| - 1], "user") ==> r
  {
    var lastUserIndex := LastIndex(display, IsUserMessage);
    var groupStartIndex := if lastUserIndex >= 0 then lastUserIndex else -1;
    pinToTop && groupStartIndex >= 0
  }

  lemma HasGroupIff(pinToTop: bool, display: seq<Message>)
    ensures HasGroup(pinToTop, display) <==> pinToTop && exists i :: 0 <= i < |display| && HasRole(display[i], "user")
  {
    if exists i :: 0 <= i < |display| && HasRole(display[i], "user") {
      var i :| 0 <= i < |display| && HasRole(display[i], "user");
      assert IsUserMessage(display[i]);
    }
  }
}
