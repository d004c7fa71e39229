/** How one message is laid out on screen: tool calls and tool results
    become tool cards, and an assistant message's parts are rendered in
    content order, filtered by the reasoning and tool-message settings. */
module MessageItem {
  import opened Base
  import opened Messages
  import opened ChatUtils

  /** The `state` of a tool card. */
  datatype ToolState = InputAvailable | OutputError | OutputAvailable

  /** The `output` of a tool card: the result's details object, or its text. */
  datatype CardOutput = DetailsOutput(details: ObjectValue) | TextOutput(text: string)

  /** `ToolPart`. `kind` is the card's `type`; an empty `toolCallId`
      stands for undefined, as in `ToolCall`. */
  datatype ToolPart = ToolPart(
    kind: string,
    state: ToolState,
    input: Option<ObjectValue>,
    output: Option<CardOutput>,
    toolCallId: string,
    errorText: Option<string>)

  /** `message.isError ?? false` and `Boolean(message.isError)` agree. */
  predicate IsErrorResult(m: Message) {
    m.isError == Has(true)
  }

  /** `toolResultText`: the trimmed text of a result message, '' when there is none. */
  function ToolResultText(result: Option<Message>): (r: string)
    ensures result.None? ==> r == ""
    ensures result.Some? ==> r == TextFromMessage(result.value)
    ensures r == [] || (!IsSpace(r[0]) && !IsSpace(r[|r| - 1]))
  {
    if result.None? then "" else Trim(JoinedText(ContentOf(result.value)))
  }

  /** The card output both mappers compute: the details object when the
      result has one, else the text when it is not empty, else nothing. */
  function CardOutputOf(details: Field<ObjectValue>, text: string): (r: Option<CardOutput>)
    ensures r.None? <==> !details.Has? && text == ""
    ensures r.Some? && r.value.TextOutput? ==> r.value.text == text && text != ""
    ensures details.Has? ==> r == Some(DetailsOutput(details.value))
  {
    if details.Has? then Some(DetailsOutput(details.value))
    else if text != "" then Some(TextOutput(text))
    else None
  }

  /** The error text of an error card: the result text, or 'Unknown error'. */
  function ErrorTextOf(text: string): (r: string)
    ensures r != ""
    ensures text != "" ==> r == text
  {
    if text != "" then text else "Unknown error"
  }

  /** `mapToolCallToToolPart`: the card for a tool call and the result
      message answering it, if any. */
  method MapToolCallToToolPart(toolCall: ToolCall, resultMessage: Option<Message>) returns (part: ToolPart)
    ensures part.kind == (if toolCall.name != "" then toolCall.name else "unknown")
    ensures part.state == InputAvailable <==> resultMessage.None?
    ensures part.state == OutputError <==> resultMessage.Some? && IsErrorResult(resultMessage.value)
    ensures part.errorText.Some? <==> part.state == OutputError
    ensures part.errorText.Some? ==> part.errorText.value == ErrorTextOf(ToolResultText(resultMessage))
    ensures resultMessage.None? ==> part.output.None?
    ensures resultMessage.Some? ==> part.output == CardOutputOf(resultMessage.value.details, ToolResultText(resultMessage))
    ensures part.input == toolCall.arguments && part.toolCallId == toolCall.id
  {
    var hasResult := resultMessage.Some?;
    var isError := hasResult && IsErrorResult(resultMessage.value);
    var state: ToolState;
    if !hasResult {
      state := InputAvailable;
    } else if isError {
      state := OutputError;
    } else {
      state := OutputAvailable;
    }
    var resultText := ToolResultText(resultMessage);
    var errorText: Option<string> := None;
    if isError {
      errorText := Some(if resultText != "" then resultText else "Unknown error");
    }
    var output: Option<CardOutput>;
    if hasResult && resultMessage.value.details.Has? {
      output := Some(DetailsOutput(resultMessage.value.details.value));
    } else if resultText != "" {
      output := Some(TextOutput(resultText));
    } else {
      output := None;
    }
    part := ToolPart(if toolCall.name != "" then toolCall.name else "unknown", state, toolCall.arguments,
                     output, toolCall.id, errorText);
  }

  /** `mapStandaloneToolResultToToolPart`: the card for a tool result
      whose call is not shown. */
  function StandaloneToolPart(message: Message): (r: ToolPart)
    ensures r.state != InputAvailable
    ensures r.state == OutputError <==> IsErrorResult(message)
    ensures r.errorText.Some? <==> IsErrorResult(message)
    ensures r.errorText.Some? ==> r.errorText.value == ErrorTextOf(TextFromMessage(message))
    ensures r.output == CardOutputOf(message.details, TextFromMessage(message))
    ensures r.kind == "tool" <==> Norm(message.toolName) == "" || message.toolName == Has("tool")
    ensures r.kind != "tool" ==> message.toolName == Has(r.kind)
    ensures r.toolCallId == Text(message.toolCallId) && r.input.None?
  {
    var isError := IsErrorResult(message);
    var text := ToolResultText(Some(message));
    ToolPart(
      if message.toolName.Has? && Trim(message.toolName.value) != "" then message.toolName.value else "tool",
      if isError then OutputError else OutputAvailable,
      None,
      CardOutputOf(message.details, text),
      Text(message.toolCallId),
      if isError then Some(ErrorTextOf(text)) else None)
  }

  /** A standalone result card and the card of a call answered by that
      same result agree on state, output and error text. */
  lemma StandaloneAgreesWithAnsweredCall(message: Message)
    ensures var r := StandaloneToolPart(message);
            var text := ToolResultText(Some(message));
            (r.state == OutputError <==> IsErrorResult(message))
            && r.output == CardOutputOf(message.details, text)
            && (IsErrorResult(message) ==> r.errorText == Some(ErrorTextOf(text)))
  {
  }

  /** The example in message-item.test.ts, for any id, name and text: a
      non-error result whose only part is a text with no surrounding
      whitespace becomes a text card under the tool's name. */
  lemma TextOnlyResultCard(callId: string, name: string, text: string)
    requires text != [] && !IsSpace(text[0]) && !IsSpace(text[|text| - 1])
    requires !AllSpace(name)
    ensures StandaloneToolPart(
              EmptyMessage.(role := Has("toolResult"), toolCallId := Has(callId), toolName := Has(name),
                            isError := Has(false), content := Has([TextPart(text)]),
                            timestamp := Has(Number(1))))
            == ToolPart(name, OutputAvailable, None, Some(TextOutput(text)), callId, None)
  {
    assert JoinedText([TextPart(text)]) == text;
    TrimOfTrimmed(text);
    TrimEmptyIffBlank(name);
  }

  // Render order of an assistant message

  datatype Block = ThinkingBlock | TextBlock | ToolCallBlock

  /** What one content part contributes to the render order. */
  function BlocksOf(part: Part, showReasoningBlocks: bool, showToolMessages: bool): seq<Block> {
    match part
    case ThinkingPart(thinking) => if showReasoningBlocks && Trim(thinking) != "" then [ThinkingBlock] else []
    case TextPart(text) => if Trim(text) != "" then [TextBlock] else []
    case _ => if showToolMessages then [ToolCallBlock] else []
  }

  function Blocks(showReasoningBlocks: bool, showToolMessages: bool): Part -> seq<Block> {
    (p: Part) => BlocksOf(p, showReasoningBlocks, showToolMessages)
  }

  /** The render order of a content list, part by part. */
  function RenderOrder(parts: seq<Part>, showReasoningBlocks: bool, showToolMessages: bool): seq<Block> {
    ConcatMap(parts, Blocks(showReasoningBlocks, showToolMessages))
  }

  /** `assistantPartRenderOrder` */
  method AssistantPartRenderOrder(message: Message, showReasoningBlocks: bool, showToolMessages: bool)
    returns (order: seq<Block>)
    ensures order == RenderOrder(ContentOf(message), showReasoningBlocks, showToolMessages)
  {
    var content := ContentOf(message);
    order := [];
    var i := 0;
    while i < |content|
      invariant 0 <= i <= |content|
      invariant order == RenderOrder(content[..i], showReasoningBlocks, showToolMessages)
    {
      var part := content[i];
      assert content[..i + 1][..i] == content[..i];
      if part.ThinkingPart? {
        var thinking := Trim(part.thinking);
        if showReasoningBlocks && thinking != "" {
          order := order + [ThinkingBlock];
        }
      } else if part.TextPart? {
        var text := Trim(part.text);
        if text != "" {
          order := order + [TextBlock];
        }
      } else if showToolMessages {
        order := order + [ToolCallBlock];
      }
      i := i + 1;
    }
    assert content[..i] == content;
  }

  /** The render order of a concatenation is the concatenation of the
      render orders: parts keep their relative order. */
  lemma RenderOrderAppend(a: seq<Part>, b: seq<Part>, sr: bool, st: bool)
    ensures RenderOrder(a + b, sr, st) == RenderOrder(a, sr, st) + RenderOrder(b, sr, st)
  {
    ConcatMapAppend(a, b, Blocks(sr, st));
  }

  /** Each part yields at most one block, so the order is never longer
      than the content. */
  lemma RenderOrderNoLonger(parts: seq<Part>, sr: bool, st: bool)
    ensures |RenderOrder(parts, sr, st)| <= |parts|
  {
    ConcatMapShort(parts, Blocks(sr, st));
  }

  /** Thinking blocks appear only when reasoning is shown, tool blocks
      only when tool messages are shown. */
  lemma RenderOrderRespectsSettings(parts: seq<Part>, sr: bool, st: bool)
    ensures var r := RenderOrder(parts, sr, st);
            (!sr ==> ThinkingBlock !in r) && (!st ==> ToolCallBlock !in r)
  {
    if !sr {
      ConcatMapAvoids(parts, Blocks(sr, st), ThinkingBlock);
    }
    if !st {
      ConcatMapAvoids(parts, Blocks(sr, st), ToolCallBlock);
    }
  }

  /** Every non-blank text part is rendered, whatever the settings: a
      content list with one yields at least one text block. */
  lemma NonBlankTextRendered(parts: seq<Part>, k: nat, sr: bool, st: bool)
    requires k < |parts| && parts[k].TextPart? && !AllSpace(parts[k].text)
    ensures TextBlock in RenderOrder(parts, sr, st)
  {
    TrimEmptyIffBlank(parts[k].text);
    assert BlocksOf(parts[k], sr, st) == [TextBlock];
    ConcatMapHas(parts, Blocks(sr, st), k, TextBlock);
  }

  /** Four parts render as the blocks of each, in order. */
  lemma RenderOrderOfFour(p0: Part, p1: Part, p2: Part, p3: Part, sr: bool, st: bool)
    ensures RenderOrder([p0, p1, p2, p3], sr, st)
            == BlocksOf(p0, sr, st) + BlocksOf(p1, sr, st) + BlocksOf(p2, sr, st) + BlocksOf(p3, sr, st)
  {
    ConcatMapOfFour(p0, p1, p2, p3, Blocks(sr, st));
  }

  /** The example in message-item.test.ts, for any texts that are not blank:
      thinking, text, a tool call and text, with everything shown, render
      in that order. */
  lemma KeepsContentOrder(thinking: string, first: string, call: ToolCall, second: string)
    requires !AllSpace(thinking) && !AllSpace(first) && !AllSpace(second)
    ensures RenderOrder([ThinkingPart(thinking), TextPart(first), ToolCallPart(call), TextPart(second)], true, true)
            == [ThinkingBlock, TextBlock, ToolCallBlock, TextBlock]
  {
    TrimEmptyIffBlank(thinking);
    TrimEmptyIffBlank(first);
    TrimEmptyIffBlank(second);
    RenderOrderOfFour(ThinkingPart(thinking), TextPart(first), ToolCallPart(call), TextPart(second), true, true);
  }
}
