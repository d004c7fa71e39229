# webclaw chat reconciliation, modelled in Dafny

webclaw is a web dashboard for an agent gateway. Its chat screen shows one
ordered message list per session. That list is built from three sources:
live events streamed from the gateway, optimistic messages the user has
just sent, and history refetched from the server. This project models the
logic that reconciles them, plus the small helpers and state machines
around it:

- `ChatStream` (use-chat-stream.ts) turns agent events into chat payloads.
  It filters payloads by run ownership, duplicate keys and per-run
  seq/stateVersion staleness. It places each accepted message in the query
  cache, and keeps the run bookkeeping in a class.
- `StreamMerge` covers the part-identity content merge, the stream message
  merge, the message lookup, and `upsert`.
- `KeyedMerge` is a generic "one slot per key, in first-appearance order,
  newest item wins" merge. The content merge is proved through it.
- `ChatHistory` (use-chat-history.ts) covers session-key precedence and the
  merge of refetched history with cached optimistic and streaming
  messages.
- `ChatQueries` (chat-queries.ts) holds the list updaters over the keyed
  query cache, written as functions from one cache value to the next.
- `ChatUtils` (utils.ts) holds friendly ids, message text, tool calls,
  timestamps, session normalisation and error classification.
- `OptimisticSend` (chat-screen-utils.ts) builds the optimistic message.
- `MessageItem` (message-item.tsx) covers tool cards and the render order
  of an assistant message.
- `MessageList` (chat-message-list.tsx) covers linked tool calls, the
  displayed messages, results by call id, the typing indicator and the
  pinned group.
- `ChatScreen` (chat-screen.tsx) holds the pending-run tracker, the
  `onChatEvent` dispatch, the send guard and the send session key.
- `Gateway` (server/gateway.ts) covers configuration, the request/response
  correlator of a shared client, the reference-counted client pool, and the
  one-shot handshake waiter.
- `Base` and `Messages` hold the values everything else uses.
  - A JavaScript property is a `Field`: missing, present but
    undefined/null, or holding a value. The distinction matters because
    object spread lets a present `undefined` override.
  - `Trim` follows the ECMAScript definition of white space.
  - Messages carry tagged content parts.

Identifiers, clocks and timer handles are parameters: `randomUUID`,
`Date.now`, `Date.parse`, and the handles that `setTimeout` returns. The
WebSocket is abstract. The frames a client sends are recorded, and each
received frame, socket error and socket close is a method call. Where
the source mutates state (the run maps and seen-key set, the pending-run
set and timers, the client's waiters and flags, the pool's entries), the
model is a class whose methods are proved against a function on the
class's value. The lemmas about those functions carry the properties.

A history refetch keeps a cached streaming message unless a message
already in the merged list shares its run tag, or has the same role, the
same non-empty text and a timestamp within 15 seconds. Content parts are
never compared (`ChatHistory.StreamingMergeShape`,
`ChatHistory.StreamingMergeKeepsNew`).

## Model

All source paths are under `apps/webclaw/src/`; the prefix is written out in each cell.

| member | source | states |
|---|---|---|
| ChatUtils.AfterLastColon | apps/webclaw/src/screens/chat/utils.ts:8-16 | the last `:` segment: a suffix of the key that holds no colon and, when shorter than the key, is preceded by a colon |
| ChatUtils.DeriveFriendlyIdFromKey | apps/webclaw/src/screens/chat/utils.ts:8-16 | never empty; `main` for a missing or blank key; otherwise exactly the trimmed last `:` segment when it is not blank, else the whole trimmed key; a result other than the trimmed key holds no colon |
| ChatUtils.DeriveFriendlyIdIdempotent | apps/webclaw/src/screens/chat/utils.ts:8-16 | deriving a friendly id from a derived friendly id gives it back unchanged |
| ChatUtils.JoinedTextOnlyText | apps/webclaw/src/screens/chat/utils.ts:18-24 | the joined text of a content list equals that of its text parts alone: every other part is ignored |
| ChatUtils.TextFromMessage | apps/webclaw/src/screens/chat/utils.ts:18-24 | exactly the trimmed concatenation of the text parts' texts; no leading or trailing white space; empty when the content has no text part |
| ChatUtils.NoTextJoinsEmpty | apps/webclaw/src/screens/chat/utils.ts:18-24 | a content list without text parts joins to the empty string |
| ChatUtils.TextFromMessageIgnoresOtherParts | apps/webclaw/src/screens/chat/utils.ts:18-24 | two messages whose text parts are the same, in the same order, have the same text, whatever their other parts |
| ChatUtils.ToolCallsOf | apps/webclaw/src/screens/chat/utils.ts:26-33 | a call is returned exactly when it is a `toolCall` part of the content; no longer than the content |
| ChatUtils.ToolCallsAppend | apps/webclaw/src/screens/chat/utils.ts:26-33 | the filter preserves order: the calls of a concatenation are the calls of each half, in order |
| ChatUtils.NormalizeTimestamp | apps/webclaw/src/screens/chat/utils.ts:44-54 | a missing value gives none; a number below 10^12 gives exactly that number times 1000, one at or above 10^12 gives itself; a date string gives its parse |
| ChatUtils.MessageTimestamp | apps/webclaw/src/screens/chat/utils.ts:56-71 | the normalised value of the first of createdAt, created_at, timestamp, time, ts that normalises to a non-zero value; `now` when none does |
| ChatUtils.SecondsAndMillisAgree | apps/webclaw/src/screens/chat/utils.ts:44-54 | a time given in seconds and the same time given in milliseconds normalise to the same value |
| ChatUtils.FirstStamp | apps/webclaw/src/screens/chat/utils.ts:56-71 | the value of the first candidate (createdAt, created_at, timestamp, time, ts) that normalises to a non-zero value, else `now` |
| ChatUtils.NormalizeSession | apps/webclaw/src/screens/chat/utils.ts:73-110 | key and friendlyId are never empty; a non-blank key is trimmed, a blank one derived from friendlyId (else key); a non-blank friendlyId is trimmed, a blank one derived from the key; title, derivedTitle, label, updatedAt, lastMessage, totalTokens and contextTokens pass through when present (`label` is the field `labelText`, `label` being a reserved word in Dafny) |
| ChatUtils.NormalizeSessions | apps/webclaw/src/screens/chat/utils.ts:73-110 | a non-array gives `[]`; otherwise one normalised session per row, same length and order, each with a non-empty key and friendlyId |
| ChatUtils.MissingAuthMessageRecognised | apps/webclaw/src/screens/chat/utils.ts:127-132 | the missing-auth error text is recognised by the missing-auth substring test |
| ChatUtils.MissingGatewayAuthIffEmbedded | apps/webclaw/src/screens/chat/utils.ts:130-132 | a message is a missing-auth error exactly when the missing-auth text occurs in it at some offset |
| ChatUtils.ContainsIffInfix | apps/webclaw/src/screens/chat/utils.ts:130-132 | `includes` holds exactly when the searched string occurs at some offset |
| ChatUtils.IsSessionNotFound | apps/webclaw/src/screens/chat/utils.ts:134-144 | false on the empty message; a match always mentions `not found` or `unknown session` in the lower-cased message |
| ChatUtils.SessionNotFoundIgnoresCase | apps/webclaw/src/screens/chat/utils.ts:134-144 | the test gives the same answer on a message and on its lower-cased form |
| ChatQueries.UpdateHistoryMessages | apps/webclaw/src/screens/chat/chat-queries.ts:59-76 | only the addressed history changes (session list and other entries kept); its messages become the updater applied to the old list (`[]` when absent); its sessionKey is kept, else set from the argument |
| ChatQueries.AppendHistoryMessage | apps/webclaw/src/screens/chat/chat-queries.ts:78-92 | the addressed list becomes the old list followed by exactly the new message; the session list and every other history entry (keys, session ids, messages) are unchanged |
| ChatQueries.MapMatching | apps/webclaw/src/screens/chat/chat-queries.ts:108-112 | same length; the updater is applied exactly at the messages matching the client id and nowhere else |
| ChatQueries.UpdateHistoryMessageByClientId | apps/webclaw/src/screens/chat/chat-queries.ts:94-119 | length and order kept; matching messages (clientId equal, or `__optimisticId` equal to the id or to `opt-` + id) updated, the rest untouched; the session list and every other history entry are unchanged |
| ChatQueries.Survivors | apps/webclaw/src/screens/chat/chat-queries.ts:133-139 | no survivor matches the ids; every message that does not match survives; survivors come from the list |
| ChatQueries.RemoveHistoryMessageByClientId | apps/webclaw/src/screens/chat/chat-queries.ts:121-142 | the addressed list becomes the survivors of the removal filter; the session list and every other history entry are unchanged |
| ChatQueries.SurvivorsAppend | apps/webclaw/src/screens/chat/chat-queries.ts:133-139 | the removal filter keeps order: removing from a concatenation removes from each half |
| ChatQueries.RemoveIdempotent | apps/webclaw/src/screens/chat/chat-queries.ts:121-142 | removing twice leaves the same list as removing once |
| ChatQueries.SurvivorsOfUntouched | apps/webclaw/src/screens/chat/chat-queries.ts:133-139 | a list with no matching message is kept whole, in order |
| ChatQueries.AppendThenRemoveRestores | apps/webclaw/src/screens/chat/chat-queries.ts:78-142 | appending a matching message to a list without one and then removing by its ids restores the list |
| ChatQueries.ClearHistoryMessages | apps/webclaw/src/screens/chat/chat-queries.ts:144-154 | the addressed entry becomes exactly `{sessionKey, messages: []}` with no session id; the session list and every other history entry are unchanged |
| ChatQueries.MoveHistoryMessages | apps/webclaw/src/screens/chat/chat-queries.ts:156-174 | no-op when the source entry is absent; otherwise the source key is gone and the target entry is exactly the target session key, the source session id (undefined when absent) and the source messages; the session list and every other entry are unchanged |
| ChatQueries.MoveOntoItselfDropsEntry | apps/webclaw/src/screens/chat/chat-queries.ts:156-174 | moving an entry onto its own key deletes it, because the delete runs after the write |
| ChatQueries.StampLastMessage | apps/webclaw/src/screens/chat/chat-queries.ts:186-194 | same length; `lastMessage` set exactly on sessions whose key or friendlyId matches |
| ChatQueries.UpdateSessionLastMessage | apps/webclaw/src/screens/chat/chat-queries.ts:176-197 | histories unchanged; non-array session data is unchanged; otherwise each session whose key or friendlyId matches gets `lastMessage` set to the message and every other session is unchanged |
| ChatQueries.KeepSessions | apps/webclaw/src/screens/chat/chat-queries.ts:208-210 | keeps exactly the sessions whose key and friendlyId both differ, drawn from the list |
| ChatQueries.RemoveSessionFromCache | apps/webclaw/src/screens/chat/chat-queries.ts:199-224 | the session list is filtered as above; exactly the histories of the removed session are deleted and the rest are unchanged |
| ChatQueries.RemovedSessionIsGone | apps/webclaw/src/screens/chat/chat-queries.ts:199-224 | afterwards no listed session and no history entry refers to the removed session |
| StreamMerge.PartIdentity | apps/webclaw/src/screens/chat/hooks/use-chat-stream.ts:394-411 | every text part shares one identity, every thinking part another, images and unknown types collapse to `unknown`; a tool call with a non-blank id or name is keyed by trimmed id, `:`, trimmed name; one with neither is keyed by the part itself |
| StreamMerge.MergePartsIsMerged | apps/webclaw/src/screens/chat/hooks/use-chat-stream.ts:367-392 | the merge holds one part per identity, in first-appearance order, each slot holding the last part seen with its identity, and covers every identity in the input |
| StreamMerge.MergedHasOneTextAndOneThinking | apps/webclaw/src/screens/chat/hooks/use-chat-stream.ts:394-411 | a merged content list never holds two text parts or two thinking parts |
| StreamMerge.UpsertPart | apps/webclaw/src/screens/chat/hooks/use-chat-stream.ts:374-380 | the ordered keys and the map by identity keep tracking the merged slots after one part is placed |
| StreamMerge.UpsertParts | apps/webclaw/src/screens/chat/hooks/use-chat-stream.ts:382-387 | after the loop over a list, keys and map track the merge of everything seen |
| StreamMerge.MergeMessageContent | apps/webclaw/src/screens/chat/hooks/use-chat-stream.ts:367-392 | the result is the identity merge of the previous parts followed by the next ones |
| StreamMerge.MergeStreamMessage | apps/webclaw/src/screens/chat/hooks/use-chat-stream.ts:343-365 | with no previous content the update is returned as is; otherwise every key the update carries wins and every other key is kept, and the result has content unless the update carries an empty or undefined content key |
| StreamMerge.MergeStreamMessageContent | apps/webclaw/src/screens/chat/hooks/use-chat-stream.ts:343-365 | with both contents non-empty, every other property is the spread of next over previous and the content is the identity merge |
| StreamMerge.EmptyUpdateReplacesContent | apps/webclaw/src/screens/chat/hooks/use-chat-stream.ts:343-365 | an update whose content is an empty array empties the content |
| StreamMerge.LastRoleIndex | apps/webclaw/src/screens/chat/hooks/use-chat-stream.ts:220-224 | the index of the last message with the role, or -1 when there is none |
| StreamMerge.FindStreamMessageIndex | apps/webclaw/src/screens/chat/hooks/use-chat-stream.ts:444-469 | the first message with the same non-empty id if one exists; otherwise the last run-tagged match (same tag, role and toolCallId), or -1 |
| StreamMerge.UpsertTarget | apps/webclaw/src/screens/chat/hooks/use-chat-stream.ts:219-264 | a merge target is always after the last user message; a run-tagged match is used exactly when after it; without one, an assistant update lands on the latest assistant message exactly when that is after the last user message and within 15000 ms, and is appended otherwise |
| StreamMerge.Upsert | apps/webclaw/src/screens/chat/hooks/use-chat-stream.ts:219-264 | the list keeps its length exactly when `UpsertTarget` finds a slot, and then that slot is merged with the update and no other changes; otherwise the update is appended; nothing up to the last user turn changes |
| StreamMerge.UpsertAfterUserTurnAppends | apps/webclaw/src/screens/chat/hooks/use-chat-stream.ts:219-264 | when the list ends with a user message, the update is appended |
| StreamMerge.UpsertKeepsLastUserTurn | apps/webclaw/src/screens/chat/hooks/use-chat-stream.ts:219-264 | an upsert never moves the last user turn earlier |
| ChatStream.ExtractChatPayloads | apps/webclaw/src/screens/chat/hooks/use-chat-stream.ts:496-636 | at most one payload, none for a non-object; blank assistant/thinking text, non-`end` lifecycle phases and non-tool streams give none; `end` gives one `final` payload without a message; every payload carries the normalised runId, sessionKey and seq; an `assistant` delta is exactly an assistant message whose one text part is the trimmed `text`, or `delta` when `text` is blank; a `thinking` delta is exactly an assistant message whose one thinking part is `thinking`, or `text` when `thinking` is blank; a tool-call stream always gives an assistant message whose one tool-call part has the id (`toolCallId`, `id`, `callId`, first non-blank), the name (`toolName`, `name`), the partial JSON and the input (`input`, else `arguments`); a tool-result stream always gives a tool-result message with that id and name (unset when blank), the object output as details, and one text part holding the error text, else a string output, else '' |
| ChatStream.ToolResultErrorIffNonBlank | apps/webclaw/src/screens/chat/hooks/use-chat-stream.ts:603-630 | a tool-result stream gives one tool-result message, marked as an error exactly when the error text is not blank |
| ChatStream.DuplicateCheck | apps/webclaw/src/screens/chat/hooks/use-chat-stream.ts:479-494 | without a run id or a seq: false and the set unchanged; otherwise true iff the key is present; a new key is added, or the set is cleared when full; never above 4000 |
| ChatStream.DuplicateReplaySkipped | apps/webclaw/src/screens/chat/hooks/use-chat-stream.ts:479-494 | the same event seen twice is skipped the second time |
| ChatStream.StaleCheck | apps/webclaw/src/screens/chat/hooks/use-chat-stream.ts:413-442 | an empty run id is never stale; a seq at or below the stored one is stale and changes nothing; otherwise the seq is recorded before a stateVersion strictly below the stored one is rejected; other runs untouched |
| ChatStream.SeqOnlyStep | apps/webclaw/src/screens/chat/hooks/use-chat-stream.ts:413-442 | without state versions an event passes iff its seq exceeds the stored one, and a passing seq is stored |
| ChatStream.PassingSeqsAbove | apps/webclaw/src/screens/chat/hooks/use-chat-stream.ts:413-442 | every seq that passes exceeds the seq stored before |
| ChatStream.PassingSeqsIncrease | apps/webclaw/src/screens/chat/hooks/use-chat-stream.ts:413-442 | the seqs that pass, over any sequence of events for one run, strictly increase |
| ChatStream.ReplayedSeqsDropped | apps/webclaw/src/screens/chat/hooks/use-chat-stream.ts:413-442 | events with seqs a, b, b, a, c (a < b < c) pass as a, b, c |
| ChatStream.FilterPayload | apps/webclaw/src/screens/chat/hooks/use-chat-stream.ts:130-182 | the filters change the bookkeeping of the payload's run only, and keep the seen set within 4000 keys |
| ChatStream.PayloadStep | apps/webclaw/src/screens/chat/hooks/use-chat-stream.ts:124-193 | a payload is delivered only when present, and only a delivered payload changes the cache |
| ChatStream.PayloadStepFates | apps/webclaw/src/screens/chat/hooks/use-chat-stream.ts:124-193 | a missing payload changes nothing; a payload is dropped exactly when a filter rejects it, and then only the filters' bookkeeping changes; it is delivered exactly when every filter passes |
| ChatStream.FiltersInOrder | apps/webclaw/src/screens/chat/hooks/use-chat-stream.ts:130-182 | a payload is dropped for ownership, else as a duplicate, else as stale, else passes, each exactly when its own test holds |
| ChatStream.SourcePrecedence | apps/webclaw/src/screens/chat/hooks/use-chat-stream.ts:130-153 | a chat delta on a run owned by agent is dropped with nothing changed; agent always claims the run; chat claims only an unowned run |
| ChatStream.ForgetRun | apps/webclaw/src/screens/chat/hooks/use-chat-stream.ts:214-216 | the run's seq, version and source entries go; nothing else changes |
| ChatStream.PlaceStreamMessage | apps/webclaw/src/screens/chat/hooks/use-chat-stream.ts:266-287 | the on-screen history and, for another named session, that session's history are upserted; other histories unchanged; sessions unchanged when no session key is given |
| ChatStream.DeliveryPlacesMessage | apps/webclaw/src/screens/chat/hooks/use-chat-stream.ts:194-287 | a message is placed iff present and not from a foreign session; only then does the cache change; a placed terminal payload with a run id forgets its run, and otherwise the bookkeeping is unchanged |
| ChatStream.TerminalRunForgotten | apps/webclaw/src/screens/chat/hooks/use-chat-stream.ts:124-217 | dropped payloads leave the cache; a placed terminal payload removes the run's entries; otherwise the run stays owned |
| ChatStream.OtherRunsUntouched | apps/webclaw/src/screens/chat/hooks/use-chat-stream.ts:124-217 | a payload changes no other run's seq, version or source, and the seen set stays within 4000 keys |
| ChatStream.AgentThenChatDeltaDropped | apps/webclaw/src/screens/chat/hooks/use-chat-stream.ts:130-142 | once an agent payload for a run is handled and the run is not forgotten, a chat delta for it is dropped |
| ChatStream.ReplaceHistory | apps/webclaw/src/screens/chat/hooks/use-chat-stream.ts:99-112 | a history frame sets the on-screen history to its messages under the on-screen key, leaving other histories and the sessions alone |
| ChatStream.PayloadsFromShape | apps/webclaw/src/screens/chat/hooks/use-chat-stream.ts:124-193 | the loop keeps the payloads delivered so far as a prefix, adds only payloads of the frame, at most one per payload, and at most one refresh per delivery |
| ChatStream.FrameStep | apps/webclaw/src/screens/chat/hooks/use-chat-stream.ts:91-193 | an ignored frame changes nothing; a history frame replaces the on-screen history (when its messages are a list) and delivers nothing; a chat frame delivers at most its payload; an agent frame only its extracted payloads; never more refreshes than deliveries |
| ChatStream.RefreshesCountTerminalDeliveries | apps/webclaw/src/screens/chat/hooks/use-chat-stream.ts:184-193 | along the payload loop, the refreshes asked for equal the delivered payloads in a terminal state |
| ChatStream.FrameRefreshes | apps/webclaw/src/screens/chat/hooks/use-chat-stream.ts:91-193 | every frame asks for one history refresh per delivered payload in state final, error or aborted, and for no other |
| ChatStream.ReconnectBackoff | apps/webclaw/src/screens/chat/hooks/use-chat-stream.ts:313 | one second per failed attempt, capped at eight seconds |
| ChatStream.StreamRuns.constructor | apps/webclaw/src/screens/chat/hooks/use-chat-stream.ts:68-71 | the bookkeeping starts empty |
| ChatStream.StreamRuns.ShouldSkipDuplicateEvent | apps/webclaw/src/screens/chat/hooks/use-chat-stream.ts:479-494 | answer and new seen set are those of the duplicate check on the old set |
| ChatStream.StreamRuns.ShouldSkipStaleRunEvent | apps/webclaw/src/screens/chat/hooks/use-chat-stream.ts:413-442 | answer and new maps are those of the staleness check on the old maps |
| ChatStream.StreamRuns.AdmitPayload | apps/webclaw/src/screens/chat/hooks/use-chat-stream.ts:130-182 | drop reason and new bookkeeping are those of the filter function |
| ChatStream.StreamRuns.DeliverPayload | apps/webclaw/src/screens/chat/hooks/use-chat-stream.ts:184-287 | fate, cache and bookkeeping are those of the delivery function |
| ChatStream.StreamRuns.HandlePayload | apps/webclaw/src/screens/chat/hooks/use-chat-stream.ts:124-289 | one loop iteration equals the payload step function |
| ChatStream.StreamRuns.HandlePayloads | apps/webclaw/src/screens/chat/hooks/use-chat-stream.ts:124-289 | the loop over a frame's payloads equals the fold of payload steps |
| ChatStream.StreamRuns.HandleStreamEvent | apps/webclaw/src/screens/chat/hooks/use-chat-stream.ts:91-298 | one frame equals the frame step function |
| ChatStream.StreamRuns.StopStream | apps/webclaw/src/screens/chat/hooks/use-chat-stream.ts:59-72 | all run maps and the seen set are cleared |
| ChatHistory.SessionKeyForHistory | apps/webclaw/src/screens/chat/hooks/use-chat-history.ts:30-31 | forced, else active session key, else friendly id; empty only when all three are |
| ChatHistory.ResolvedSessionKey | apps/webclaw/src/screens/chat/hooks/use-chat-history.ts:107-112 | forced, else the trimmed server key when not blank, else the active key |
| ChatHistory.ActiveCanonicalKey | apps/webclaw/src/screens/chat/hooks/use-chat-history.ts:113-115 | `new` for a new chat, else the resolved key or the friendly id |
| ChatHistory.OptimisticMerge | apps/webclaw/src/screens/chat/hooks/use-chat-history.ts:166-206 | the server list unchanged, followed exactly by the optimistic messages without a server match, in their order (the `Filter` of the optimistic list) |
| ChatHistory.MergeOptimisticHistoryMessages | apps/webclaw/src/screens/chat/hooks/use-chat-history.ts:166-206 | the loop computes the optimistic merge |
| ChatHistory.EmptyTextMatchesOnlyById | apps/webclaw/src/screens/chat/hooks/use-chat-history.ts:174-198 | an optimistic message without text matches only by clientId or `__optimisticId` |
| ChatHistory.UnmatchedCopiesBothKept | apps/webclaw/src/screens/chat/hooks/use-chat-history.ts:172-203 | optimistic messages are compared with the server list only, so two unmatched copies are both kept |
| ChatHistory.StreamingMergeShape | apps/webclaw/src/screens/chat/hooks/use-chat-history.ts:128-164 | the server list stays as a prefix; each appended message is run-tagged, comes from the streaming list, and matches nothing before it |
| ChatHistory.StreamingMergeKeepsUnmatched | apps/webclaw/src/screens/chat/hooks/use-chat-history.ts:128-164 | a run-tagged streamed message matching nothing in the list built from the messages before it is appended right after that list |
| ChatHistory.StreamingMergeKeepsNew | apps/webclaw/src/screens/chat/hooks/use-chat-history.ts:128-164 | a run-tagged streamed message matching no server message and no earlier streamed message is in the result |
| ChatHistory.MergeStreamingHistoryMessages | apps/webclaw/src/screens/chat/hooks/use-chat-history.ts:128-164 | the loop computes the streaming merge |
| ChatHistory.StreamingMergeKeepsRunsDistinct | apps/webclaw/src/screens/chat/hooks/use-chat-history.ts:128-164 | from a server list with distinct run tags, the merge never holds two messages with one run tag |
| ChatHistory.FetchHistoryForSession | apps/webclaw/src/screens/chat/hooks/use-chat-history.ts:38-74 | with no optimistic or run-tagged cached message, the server data unchanged; otherwise fails exactly when the server sent no message array, and else returns the server data with messages `StreamingMerge(OptimisticMerge(server, optimistic), streaming)` |
| ChatHistory.ServerAnswerKeptWithoutLocalMessages | apps/webclaw/src/screens/chat/hooks/use-chat-history.ts:43-59 | without optimistic or streaming cached messages the refetch returns the server data |
| OptimisticSend.ImagePartsFollowAttachments | apps/webclaw/src/screens/chat/chat-screen-utils.ts:24-37 | one image part per attachment with data, in attachment order |
| OptimisticSend.CollectImages | apps/webclaw/src/screens/chat/chat-screen-utils.ts:24-37 | the attachment loop produces the image parts |
| OptimisticSend.CreateOptimisticMessage | apps/webclaw/src/screens/chat/chat-screen-utils.ts:10-55 | optimistic id is `opt-` + client id; the message has role `user`, status `sending`, both ids, the timestamp and the built content |
| OptimisticSend.OptimisticContentShape | apps/webclaw/src/screens/chat/chat-screen-utils.ts:39-43 | images first; then the untrimmed body iff it has a non-space character, else one empty text when there are attachments, else nothing |
| OptimisticSend.ImagesBeforeText | apps/webclaw/src/screens/chat/chat-screen-utils.ts:24-43 | no image part follows a text part |
| MessageItem.ToolResultText | apps/webclaw/src/screens/chat/components/message-item.tsx:70-77 | empty for no result, otherwise the message text, never with surrounding white space |
| MessageItem.CardOutputOf | apps/webclaw/src/screens/chat/components/message-item.tsx:53-58 | the details object if present, else the text when not empty, else nothing |
| MessageItem.ErrorTextOf | apps/webclaw/src/screens/chat/components/message-item.tsx:47-51 | never empty; the result text when it has one, else `Unknown error` |
| MessageItem.MapToolCallToToolPart | apps/webclaw/src/screens/chat/components/message-item.tsx:29-68 | input-available iff no result, output-error iff an error result; errorText only on errors; output from details or text; type falls back to `unknown` |
| MessageItem.StandaloneToolPart | apps/webclaw/src/screens/chat/components/message-item.tsx:79-100 | never input-available; error state and errorText iff an error; output as for calls; type is the tool name unless blank, then `tool` |
| MessageItem.StandaloneAgreesWithAnsweredCall | apps/webclaw/src/screens/chat/components/message-item.tsx:29-100 | a standalone card agrees with the card of a call answered by the same result on state, output and error text |
| MessageItem.TextOnlyResultCard | apps/webclaw/src/screens/chat/components/message-item.test.ts:34-52 | a non-error result with one trimmed text part becomes a text card under the tool's name, whatever that name |
| MessageItem.AssistantPartRenderOrder | apps/webclaw/src/screens/chat/components/message-item.tsx:102-129 | the loop yields the blocks of each part, in content order |
| MessageItem.RenderOrderAppend | apps/webclaw/src/screens/chat/components/message-item.tsx:102-129 | the order of a concatenation is the concatenation of the orders: content order is kept |
| MessageItem.RenderOrderNoLonger | apps/webclaw/src/screens/chat/components/message-item.tsx:102-129 | the order is never longer than the content |
| MessageItem.RenderOrderRespectsSettings | apps/webclaw/src/screens/chat/components/message-item.tsx:102-129 | no thinking block unless reasoning is shown, no tool block unless tool messages are shown |
| MessageItem.NonBlankTextRendered | apps/webclaw/src/screens/chat/components/message-item.tsx:102-129 | every non-blank text part yields a text block, whatever the settings |
| MessageItem.KeepsContentOrder | apps/webclaw/src/screens/chat/components/message-item.test.ts:8-31 | thinking, text, tool call, text render in that order when everything is shown |
| MessageList.LinkedToolCallIds | apps/webclaw/src/screens/chat/components/chat-message-list.tsx:49-62 | the loop collects the linked ids |
| MessageList.LinkedIdsExactly | apps/webclaw/src/screens/chat/components/chat-message-list.tsx:49-62 | an id is linked iff it is the non-empty trimmed id of a tool call in an assistant message |
| MessageList.DisplayMessages | apps/webclaw/src/screens/chat/components/chat-message-list.tsx:65-74 | the displayed list is no longer than the input, holds only input messages, and keeps every message that is not a tool result |
| MessageList.DisplayedIff | apps/webclaw/src/screens/chat/components/chat-message-list.tsx:65-74 | a message is displayed iff it is not a tool result with a non-empty, linked, trimmed call id while tool messages are shown |
| MessageList.HiddenToolsKeepAll | apps/webclaw/src/screens/chat/components/chat-message-list.tsx:65-74 | with tool messages hidden the list is displayed unchanged |
| MessageList.ToolResultsByCallId | apps/webclaw/src/screens/chat/components/chat-message-list.tsx:76-86 | the loop builds the index of results by call id |
| MessageList.LastResultWins | apps/webclaw/src/screens/chat/components/chat-message-list.tsx:76-86 | an id is a key iff some result carries it, and it maps to the last such result |
| MessageList.ResultKeyIff | apps/webclaw/src/screens/chat/components/chat-message-list.tsx:76-86 | a message is filed under an id iff it is a tool result whose call id is that non-blank string |
| MessageList.ShowTypingIndicator | apps/webclaw/src/screens/chat/components/chat-message-list.tsx:88-102 | shown only while waiting; shown for an empty list or one ending with a user message; hidden when a user message exists but the last message is not the user's |
| MessageList.TypingIndicatorIff | apps/webclaw/src/screens/chat/components/chat-message-list.tsx:88-102 | shown iff waiting and the list is empty, has no user message, or ends with one |
| MessageList.HasGroup | apps/webclaw/src/screens/chat/components/chat-message-list.tsx:104-105 | a group only when pinning is on and something is displayed; always one when pinning is on and the list ends with a user message |
| MessageList.HasGroupIff | apps/webclaw/src/screens/chat/components/chat-message-list.tsx:88-105 | a pinned group exists iff pinning is on and a user message is displayed |
| ChatScreen.StartRunTracks | apps/webclaw/src/screens/chat/chat-screen.tsx:186-208 | an empty id changes nothing; otherwise the run is pending with the new timer and the screen waits |
| ChatScreen.FinishRunClears | apps/webclaw/src/screens/chat/chat-screen.tsx:169-184 | an empty id changes nothing; otherwise the run and its timer go and waiting stays only while runs remain |
| ChatScreen.FinishAllEmpties | apps/webclaw/src/screens/chat/chat-screen.tsx:210-218 | no pending run, no timer, not waiting |
| ChatScreen.TimeoutRefreshes | apps/webclaw/src/screens/chat/chat-screen.tsx:194-202 | the timed-out run and timer go, one refresh is asked for, waiting stays only while runs remain |
| ChatScreen.RunOperationsKeepConsistent | apps/webclaw/src/screens/chat/chat-screen.tsx:169-218 | every operation keeps each pending run paired with one timer and the screen waiting while any run is pending |
| ChatScreen.ChatEventDispatch | apps/webclaw/src/screens/chat/chat-screen.tsx:481-509 | foreign events are ignored; a delta with a run id starts it; a terminal state finishes its run, or every run when there is no id; anything else changes nothing |
| ChatScreen.OwnSessionEventsHandled | apps/webclaw/src/screens/chat/chat-screen.tsx:481-509 | events for the resolved or on-screen session, or naming no session, are never ignored |
| ChatScreen.RunTracker.constructor | apps/webclaw/src/screens/chat/chat-screen.tsx:169-218 | nothing pending, not waiting |
| ChatScreen.RunTracker.StartRun | apps/webclaw/src/screens/chat/chat-screen.tsx:186-208 | the new state is that of `startRun` |
| ChatScreen.RunTracker.FinishRun | apps/webclaw/src/screens/chat/chat-screen.tsx:169-184 | the new state is that of `finishRun` |
| ChatScreen.RunTracker.FinishAllRuns | apps/webclaw/src/screens/chat/chat-screen.tsx:210-218 | the new state is that of `finishAllRuns` |
| ChatScreen.RunTracker.FireTimeout | apps/webclaw/src/screens/chat/chat-screen.tsx:194-202 | the new state is that of the watchdog callback |
| ChatScreen.RunTracker.OnChatEvent | apps/webclaw/src/screens/chat/chat-screen.tsx:481-509 | the new state is that of the dispatch |
| ChatScreen.SessionKeyForSend | apps/webclaw/src/screens/chat/chat-screen.tsx:406-407 | forced, else resolved, else active; empty only when all three are |
| ChatScreen.ShouldSend | apps/webclaw/src/screens/chat/chat-screen.tsx:353-354 | a send goes ahead iff the body is non-empty or there is an attachment |
| ChatScreen.WhitespaceBodyPassesGuard | apps/webclaw/src/screens/chat/chat-screen.tsx:353-354 | the guard tests the untrimmed length, so a whitespace body passes and its optimistic message has no content |
| Gateway.GetGatewayConfig | apps/webclaw/src/server/gateway.ts:80-93 | a configuration has a non-empty URL, the trimmed token and password, and the trimmed URL when one is set |
| Gateway.ConfigFailsIffNoCredentials | apps/webclaw/src/server/gateway.ts:80-93 | fails iff both token and password are unset or blank; a blank URL falls back to the local default |
| Gateway.Correlate | apps/webclaw/src/server/gateway.ts:156-173 | a response for a pending id removes and settles that waiter; any other frame changes nothing; no waiter is both pending and settled |
| Gateway.SettlesAtMostOnce | apps/webclaw/src/server/gateway.ts:156-173 | a response settles an unsettled waiter, and a second response for the same id changes nothing |
| Gateway.RejectedAll | apps/webclaw/src/server/gateway.ts:149-154 | no waiter pending; each formerly pending one rejected with the message; earlier outcomes kept |
| Gateway.ResponseWaiter.WaitForRes | apps/webclaw/src/server/gateway.ts:412-416 | the id becomes pending |
| Gateway.ResponseWaiter.HandleMessage | apps/webclaw/src/server/gateway.ts:418-431 | the waiters become their correlation with the frame |
| Gateway.ReceivedKeepsValid | apps/webclaw/src/server/gateway.ts:156-173 | receiving a frame keeps the client invariant: disjoint waiters, none pending once closed, connected only after a resolved handshake |
| Gateway.ClosingKeepsValid | apps/webclaw/src/server/gateway.ts:175-238 | socket close, explicit close and socket errors keep the client invariant |
| Gateway.SendingKeepsValid | apps/webclaw/src/server/gateway.ts:193-228 | sending a request or a handshake with a fresh id keeps the client invariant |
| Gateway.OnlyKnownResponsesSettle | apps/webclaw/src/server/gateway.ts:156-173 | a response for an unknown id, and every non-response frame, leave the waiters and the connected flag alone; only events are delivered |
| Gateway.KnownResponseSettles | apps/webclaw/src/server/gateway.ts:165-169 | a response for a pending id settles a waiter not settled before, removed from the pending set, with the response's outcome |
| Gateway.CloseRejectsEveryWaiter | apps/webclaw/src/server/gateway.ts:183-238 | closing rejects every pending waiter with the closed message and keeps earlier outcomes; both close paths are idempotent and each is a no-op after the other |
| Gateway.SendRegistersOneWaiter | apps/webclaw/src/server/gateway.ts:212-228 | a closed client rejects at once and registers nothing; an open one registers exactly one waiter under the id and sends one request |
| Gateway.ConnectOnlyOnce | apps/webclaw/src/server/gateway.ts:193-210 | a no-op when connected or closed; starting a handshake never sets `connected` |
| Gateway.GatewayClient.constructor | apps/webclaw/src/server/gateway.ts:134-191 | open, not connected, listening, no waiters, no handlers |
| Gateway.GatewayClient.RejectAll | apps/webclaw/src/server/gateway.ts:149-154 | the loop rejects each pending waiter once and clears the pending set |
| Gateway.GatewayClient.HandleMessage | apps/webclaw/src/server/gateway.ts:156-173 | the new state is the received-frame function |
| Gateway.GatewayClient.HandleError | apps/webclaw/src/server/gateway.ts:175-181 | an error is reported to the error handler, if any, while listening |
| Gateway.GatewayClient.HandleClose | apps/webclaw/src/server/gateway.ts:183-187 | the new state is the transport-closed function |
| Gateway.GatewayClient.Connect | apps/webclaw/src/server/gateway.ts:193-210 | the new state is the handshake-started function |
| Gateway.GatewayClient.SendReq | apps/webclaw/src/server/gateway.ts:212-228 | reply and new state are those of the send function |
| Gateway.GatewayClient.Close | apps/webclaw/src/server/gateway.ts:230-238 | the new state is the closed function |
| Gateway.GatewayClient.SetOnEvent | apps/webclaw/src/server/gateway.ts:240-242 | the event handler is replaced |
| Gateway.GatewayClient.SetOnError | apps/webclaw/src/server/gateway.ts:244-246 | the error handler is replaced |
| Gateway.PoolKeepsPositive | apps/webclaw/src/server/gateway.ts:255-295 | acquire and release keep every pooled entry at one reference or more |
| Gateway.AcquireThenRelease | apps/webclaw/src/server/gateway.ts:255-295 | releasing a reused entry restores the counts; releasing a fresh entry once removes it |
| Gateway.ReleasesBeforeLast | apps/webclaw/src/server/gateway.ts:288-295 | an entry with n + 1 references survives a release with n, and goes when n is 0 |
| Gateway.OpenClient | apps/webclaw/src/server/gateway.ts:275-278 | a new client with the handlers given and exactly one handshake request sent and pending |
| Gateway.WithHandlers | apps/webclaw/src/server/gateway.ts:265-266 | each handler given replaces the old one, a missing one keeps it, nothing else changes, and validity is kept |
| Gateway.GatewayPool.constructor | apps/webclaw/src/server/gateway.ts:78 | the pool starts empty |
| Gateway.GatewayPool.Acquire | apps/webclaw/src/server/gateway.ts:255-286 | an open entry gains a reference and its client is returned with only the given handlers replaced; otherwise, when the configuration fails (no token and no password), nothing is returned and the pool and any closed client under the key are unchanged; else a new client (handlers, one pending handshake, valid) is installed with one reference, replacing a closed entry whose client is left as it was; other entries and their clients unchanged; each key keeps its own client |
| Gateway.GatewayPool.Reuse | apps/webclaw/src/server/gateway.ts:262-273 | the open entry gains one reference, keeps its client, and the client's handlers are replaced where given, nothing else about it changing |
| Gateway.GatewayPool.Install | apps/webclaw/src/server/gateway.ts:279 | the new client is entered under the key with one reference, replacing what was there; every key still holds its own client |
| Gateway.GatewayPool.Release | apps/webclaw/src/server/gateway.ts:288-295 | absent keys are ignored; otherwise the count drops, and at zero the client is closed and the entry deleted; every remaining entry keeps its client, in the same state |

## Left out

- Parsing: JSON parsing of frames is not modelled, and neither are the EventSource lifecycle and the window and reconnect timers. A frame arrives already parsed, with unparsable data as an ignored frame, and timer handles are parameters.
- Gateway plumbing: `buildConnectParams`, `wsOpen`/`wsClose`, `connectGateway`, `gatewayRpc`, `gatewayConnectCheck` and `gatewayEventStream` are socket plumbing and are not part of this model.
- React machinery: the React refs, effects and memo, the history signature cache, the `enabled` flag of the history query, scrolling and rendering are left out. The composer is not part of this model.
- I/O helpers: `readError`, the `fetch*` query functions and `findToolResultForCall` are HTTP I/O or unused by the modelled core.
- Numbers: seq, stateVersion and timestamps are unbounded integers, so the `Number.isFinite` checks on floats become "present or not".
- Clock: one `now` parameter stands for every `Date.now()` call made while handling one event.
- Duplicate keys: the key is kept as a tuple (source, runId, state, seq) rather than the joined `source:runId:state:seq` string. Two events whose joined strings collide are therefore distinct here.
- Payload state: a payload `state` that is not a string is read as the empty string. Only the duplicate key differs, because there the source would print such a value.
- Optional values: `null` and `undefined` are not distinguished in the role comparison of the streaming match.
- Lower-casing: `ToLower` folds ASCII letters only.
- ChatUtils.IsSessionNotFound: the contract states one direction (a match mentions "not found" or "unknown session"), not the full list of accepted wordings.
- ChatStream.PassingSeqs: the monotonicity lemmas feed seqs without state versions; a stale version can still drop a fresh seq, which `StaleCheck` states.
- ChatHistory.FetchHistoryForSession: returns None where the source throws (a merge over a non-array), instead of a rejected promise.
- ChatQueries.MoveHistoryMessages: moving an entry onto its own key deletes it, as the code does (`MoveOntoItselfDropsEntry`).
- StreamMerge.MergeStreamMessage: an update whose content is an empty array replaces the content, as the code does (`EmptyUpdateReplacesContent`).
- Gateway.GatewayClient.SendReq: request ids are fresh parameters. The overwrite of a waiter under a repeated `randomUUID` id is not modelled; the same holds for Connect and ResponseWaiter.WaitForRes.
- Gateway.GatewayClient.Connect: `connected` is set when the handshake response is received, which is where the awaiting continuation runs. The awaited `wsOpen` is not modelled.
- Gateway.GatewayPool.Acquire: the entry is installed as soon as the handshake is sent, whereas the source awaits the handshake first. A failed handshake (which leaves no entry) and concurrent acquires of one key are not modelled.
- Handlers: handlers are identified by numbers, and `clearTimeout` is modelled as removing the timer's map entry.
