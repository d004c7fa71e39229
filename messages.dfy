/** The conversation entries the chat client stores and merges: messages
    with ordered content parts, as the gateway and the optimistic creator
    produce them. */
module Messages {
  import opened Base

  /** A JSON object the client passes through without looking inside
      (tool arguments, tool-result details). */
  datatype ObjectValue = ObjectValue(entries: map<string, string>)

  /** A `toolCall` content part. An empty string stands for a missing
      or non-string id, name or partialJson. */
  datatype ToolCall = ToolCall(id: string, name: string, partialJson: string, arguments: Option<ObjectValue>)

  /** One content part, tagged by its `type`. */
  datatype Part =
    | TextPart(text: string)
    | ThinkingPart(thinking: string)
    | ToolCallPart(call: ToolCall)
    | ImagePart(mediaType: string, data: string)
    | OtherPart(kind: string)

  /** A timestamp candidate: a number, or a string together with the
      outcome of Date.parse on it (None for NaN). */
  datatype Stamp = Number(n: int) | DateText(parsed: Option<int>)

  /** A gateway message with every property the client reads or writes.
      `optimisticId` is `__optimisticId`, `streamRunId` is `__streamRunId`
      and `createdAtSnake` is `created_at`. */
  datatype Message = Message(
    role: Field<string>,
    content: Field<seq<Part>>,
    id: Field<string>,
    toolCallId: Field<string>,
    toolName: Field<string>,
    clientId: Field<string>,
    optimisticId: Field<string>,
    streamRunId: Field<string>,
    status: Field<string>,
    isError: Field<bool>,
    details: Field<ObjectValue>,
    createdAt: Field<Stamp>,
    createdAtSnake: Field<Stamp>,
    timestamp: Field<Stamp>,
    time: Field<Stamp>,
    ts: Field<Stamp>)

  /** The object literal `{}`. */
  const EmptyMessage: Message :=
    Message(Missing, Missing, Missing, Missing, Missing, Missing, Missing, Missing,
            Missing, Missing, Missing, Missing, Missing, Missing, Missing, Missing)

  /** `Array.isArray(m.content) ? m.content : []` */
  function ContentOf(m: Message): seq<Part> {
    if m.content.Has? then m.content.value else []
  }

  /** `m.role === role` */
  predicate HasRole(m: Message, role: string) {
    m.role == Has(role)
  }

  /** `{...under, ...over}`: every key `over` defines wins. */
  function Spread(under: Message, over: Message): Message {
    Message(
      Overlay(under.role, over.role),
      Overlay(under.content, over.content),
      Overlay(under.id, over.id),
      Overlay(under.toolCallId, over.toolCallId),
      Overlay(under.toolName, over.toolName),
      Overlay(under.clientId, over.clientId),
      Overlay(under.optimisticId, over.optimisticId),
      Overlay(under.streamRunId, over.streamRunId),
      Overlay(under.status, over.status),
      Overlay(under.isError, over.isError),
      Overlay(under.details, over.details),
      Overlay(under.createdAt, over.createdAt),
      Overlay(under.createdAtSnake, over.createdAtSnake),
      Overlay(under.timestamp, over.timestamp),
      Overlay(under.time, over.time),
      Overlay(under.ts, over.ts))
  }
}
