/** Reconciling a refetched history with what the client already holds:
    optimistic messages not yet confirmed by the server and streamed
    messages not yet in the server's list, plus the session keys the
    history is fetched and shown under. */
module ChatHistory {
  import opened Base
  import opened Messages
  import opened ChatUtils
  import opened ChatQueries

  // ---------------------------------------------------------------------
  // session keys

  /** `sessionKeyForHistory`: forced, else active, else the friendly id
      (an absent key is the empty string). */
  function SessionKeyForHistory(forcedSessionKey: string, activeSessionKey: string, activeFriendlyId: string): (r: string)
    ensures forcedSessionKey != "" ==> r == forcedSessionKey
    ensures forcedSessionKey == "" && activeSessionKey != "" ==> r == activeSessionKey
    ensures forcedSessionKey == "" && activeSessionKey == "" ==> r == activeFriendlyId
    ensures r == "" <==> forcedSessionKey == "" && activeSessionKey == "" && activeFriendlyId == ""
  {
    if forcedSessionKey != "" then forcedSessionKey
    else if activeSessionKey != "" then activeSessionKey
    else activeFriendlyId
  }

  /** `resolvedSessionKey`: forced, else the trimmed key the history
      response carries when it is not blank, else the active key. */
  function ResolvedSessionKey(forcedSessionKey: string, dataSessionKey: Field<string>, activeSessionKey: string): (r: string)
    ensures forcedSessionKey != "" ==> r == forcedSessionKey
    ensures forcedSessionKey == "" && dataSessionKey.Has? && !AllSpace(dataSessionKey.value) ==>
              r == Trim(dataSessionKey.value) && r != ""
    ensures forcedSessionKey == "" && (!dataSessionKey.Has? || AllSpace(dataSessionKey.value)) ==> r == activeSessionKey
  {
    TrimEmptyIffBlank(Text(dataSessionKey));
    if forcedSessionKey != "" then forcedSessionKey
    else if Norm(dataSessionKey) != "" then Norm(dataSessionKey)
    else activeSessionKey
  }

  /** `activeCanonicalKey` */
  function ActiveCanonicalKey(isNewChat: bool, resolvedSessionKey: string, activeFriendlyId: string): (r: string)
    ensures isNewChat ==> r == "new"
    ensures !isNewChat ==> r == (if resolvedSessionKey != "" then resolvedSessionKey else activeFriendlyId)
    ensures !isNewChat && (resolvedSessionKey != "" || activeFriendlyId != "") ==> r != ""
  {
    if isNewChat then "new" else if resolvedSessionKey != "" then resolvedSessionKey else activeFriendlyId
  }

  // ---------------------------------------------------------------------
  // the cached messages a refetch must keep

  /** A cached message the server may not know yet. */
  predicate IsOptimistic(m: Message) {
    m.status == Has("sending") || Truthy(m.optimisticId) || Truthy(m.clientId)
  }

  /** A cached message that arrived on the live stream. */
  predicate IsStreaming(m: Message) {
    Norm(m.streamRunId) != ""
  }

  // ---------------------------------------------------------------------
  // optimistic messages

  /** An optimistic message and a server message are the same message:
      shared client id, shared optimistic id, or (roles agreeing when both
      are set) the same non-empty text within ten seconds. */
  predicate OptimisticMatch(o: Message, s: Message, now: int) {
    (Truthy(o.clientId) && Truthy(s.clientId) && o.clientId == s.clientId)
    || (Truthy(o.optimisticId) && Truthy(s.optimisticId) && o.optimisticId == s.optimisticId)
    || ((!(Truthy(o.role) && Truthy(s.role)) || o.role == s.role)
        && TextFromMessage(o) != ""
        && TextFromMessage(o) == TextFromMessage(s)
        && Abs(MessageTimestamp(o, now) - MessageTimestamp(s, now)) <= 10000)
  }

  predicate HasServerMatch(o: Message, server: seq<Message>, now: int) {
    exists j :: 0 <= j < |server| && OptimisticMatch(o, server[j], now)
  }

  /** The optimistic messages a merge against `server` keeps. */
  function Unmatched(server: seq<Message>, now: int): Message -> bool {
    (o: Message) => !HasServerMatch(o, server, now)
  }

  /** The result `mergeOptimisticHistoryMessages` promises: the server
      list unchanged, then the optimistic messages with no server match,
      in their order. */
  function OptimisticMerge(server: seq<Message>, optimistic: seq<Message>, now: int): (r: seq<Message>)
    ensures |server| <= |r| <= |server| + |optimistic|
    ensures r[..|server|] == server
    ensures forall i :: |server| <= i < |r| ==> r[i] in optimistic && !HasServerMatch(r[i], server, now)
    ensures forall i :: 0 <= i < |optimistic| && !HasServerMatch(optimistic[i], server, now) ==>
              optimistic[i] in r[|server|..]
    ensures r[|server|..] == Filter(optimistic, Unmatched(server, now))
  {
    var kept := Filter(optimistic, Unmatched(server, now));
    assert (server + kept)[|server|..] == kept;
    server + kept
  }

  /** `mergeOptimisticHistoryMessages`, with Date.now() passed in as `now`. */
  method MergeOptimisticHistoryMessages(serverMessages: seq<Message>, optimisticMessages: seq<Message>, now: int)
    returns (merged: seq<Message>)
    ensures merged == OptimisticMerge(serverMessages, optimisticMessages, now)
  {
    if |optimisticMessages| == 0 {
      return serverMessages;
    }
    merged := serverMessages;
    var i := 0;
    while i < |optimisticMessages|
      invariant 0 <= i <= |optimisticMessages|
      invariant merged == serverMessages + Filter(optimisticMessages[..i], Unmatched(serverMessages, now))
    {
      var optimisticMessage := optimisticMessages[i];
      var hasMatch := HasServerMatch(optimisticMessage, serverMessages, now);
      FilterSnoc(optimisticMessages, i, Unmatched(serverMessages, now));
      assert Unmatched(serverMessages, now)(optimisticMessage) == !hasMatch;
      if !hasMatch {
        merged := merged + [optimisticMessage];
      }
      i := i + 1;
    }
    assert optimisticMessages[..i] == optimisticMessages;
  }

  /** A message with no text matches only through its client id or its
      optimistic id. */
  lemma EmptyTextMatchesOnlyById(o: Message, s: Message, now: int)
    requires TextFromMessage(o) == ""
    ensures OptimisticMatch(o, s, now) <==>
              (Truthy(o.clientId) && o.clientId == s.clientId) || (Truthy(o.optimisticId) && o.optimisticId == s.optimisticId)
  {
  }

  /** Optimistic messages are compared with the server list only: two
      copies of an unmatched message are both kept. */
  lemma UnmatchedCopiesBothKept(server: seq<Message>, o: Message, now: int)
    requires !HasServerMatch(o, server, now)
    ensures OptimisticMerge(server, [o, o], now) == server + [o, o]
  {
    var p := Unmatched(server, now);
    assert [o, o][1..] == [o];
    assert Filter([o], p) == [o];
    assert Filter([o, o], p) == [o, o];
  }

  // ---------------------------------------------------------------------
  // streamed messages

  /** A streamed message is already in the list: some element carries
      its run tag, or has its role, its non-empty text and a timestamp
      within fifteen seconds. */
  predicate StreamingMatch(m: Message, s: Message, now: int) {
    (Norm(s.streamRunId) != "" && s.streamRunId == m.streamRunId)
    || (AsOption(s.role) == AsOption(m.role)
        && TextFromMessage(m) != ""
        && TextFromMessage(m) == TextFromMessage(s)
        && Abs(MessageTimestamp(m, now) - MessageTimestamp(s, now)) <= 15000)
  }

  predicate HasStreamingMatch(m: Message, merged: seq<Message>, now: int) {
    exists j :: 0 <= j < |merged| && StreamingMatch(m, merged[j], now)
  }

  /** The streamed message is appended to the list built so far. */
  predicate Appends(m: Message, merged: seq<Message>, now: int) {
    IsStreaming(m) && !HasStreamingMatch(m, merged, now)
  }

  /** The result `mergeStreamingHistoryMessages` promises from position i
      of the streamed messages on, given the list built so far. Every
      appended message is run-tagged, comes from the streamed messages,
      and matches nothing before it. */
  function Appender(now: int): (Message, seq<Message>) -> bool {
    (m: Message, merged: seq<Message>) => Appends(m, merged, now)
  }

  function StreamingMergeFrom(merged: seq<Message>, streaming: seq<Message>, i: nat, now: int): seq<Message>
    requires i <= |streaming|
  {
    AppendWhere(merged, streaming, i, Appender(now))
  }

  lemma StreamingMergeShape(merged: seq<Message>, streaming: seq<Message>, now: int)
    ensures var r := StreamingMerge(merged, streaming, now);
            |merged| <= |r| && r[..|merged|] == merged
            && forall j :: |merged| <= j < |r| ==>
                 r[j] in streaming && IsStreaming(r[j]) && !HasStreamingMatch(r[j], r[..j], now)
  {
    var r := StreamingMerge(merged, streaming, now);
    AppendWhereShape(merged, streaming, 0, Appender(now));
    assert streaming[0..] == streaming;
    forall j | |merged| <= j < |r|
      ensures r[j] in streaming && IsStreaming(r[j]) && !HasStreamingMatch(r[j], r[..j], now)
    {
      assert Appender(now)(r[j], r[..j]);
    }
  }

  function StreamingMerge(server: seq<Message>, streaming: seq<Message>, now: int): seq<Message> {
    StreamingMergeFrom(server, streaming, 0, now)
  }

  /** The converse of the shape: a run-tagged streamed message that
      matches nothing in the list built from the messages before it is
      appended, right after that list. */
  lemma StreamingMergeKeepsUnmatched(server: seq<Message>, streaming: seq<Message>, k: nat, now: int)
    requires k < |streaming| && IsStreaming(streaming[k])
    requires !HasStreamingMatch(streaming[k], StreamingMerge(server, streaming[..k], now), now)
    ensures var before := StreamingMerge(server, streaming[..k], now);
            var r := StreamingMerge(server, streaming, now);
            |before| < |r| && r[..|before|] == before && r[|before|] == streaming[k]
  {
    assert Appender(now)(streaming[k], AppendWhere(server, streaming[..k], 0, Appender(now)));
    AppendWhereKeeps(server, streaming, 0, k, Appender(now));
  }

  /** In terms of the inputs alone: a run-tagged streamed message that
      matches no server message and no earlier streamed message is in
      the result. */
  lemma StreamingMergeKeepsNew(server: seq<Message>, streaming: seq<Message>, k: nat, now: int)
    requires k < |streaming| && IsStreaming(streaming[k])
    requires !HasStreamingMatch(streaming[k], server, now)
    requires forall j :: 0 <= j < k ==> !StreamingMatch(streaming[k], streaming[j], now)
    ensures streaming[k] in StreamingMerge(server, streaming, now)
  {
    var before := StreamingMerge(server, streaming[..k], now);
    StreamingMergeShape(server, streaming[..k], now);
    forall j | 0 <= j < |before| ensures !StreamingMatch(streaming[k], before[j], now) {
      if j < |server| {
        assert before[j] == server[j];
      } else {
        assert before[j] in streaming[..k];
      }
    }
    StreamingMergeKeepsUnmatched(server, streaming, k, now);
  }

  /** `mergeStreamingHistoryMessages`, with Date.now() passed in as `now`. */
  method MergeStreamingHistoryMessages(serverMessages: seq<Message>, streamingMessages: seq<Message>, now: int)
    returns (merged: seq<Message>)
    ensures merged == StreamingMerge(serverMessages, streamingMessages, now)
  {
    if |streamingMessages| == 0 {
      return serverMessages;
    }
    merged := serverMessages;
    var i := 0;
    while i < |streamingMessages|
      invariant 0 <= i <= |streamingMessages|
      invariant StreamingMergeFrom(merged, streamingMessages, i, now) == StreamingMerge(serverMessages, streamingMessages, now)
    {
      var streamingMessage := streamingMessages[i];
      if IsStreaming(streamingMessage) {
        var hasMatch := HasStreamingMatch(streamingMessage, merged, now);
        if !hasMatch {
          merged := merged + [streamingMessage];
        }
      }
      i := i + 1;
    }
  }

  /** No two run-tagged messages share a tag. */
  predicate DistinctRunTags(ms: seq<Message>) {
    forall a, b :: 0 <= a < b < |ms| && IsStreaming(ms[b]) ==> ms[a].streamRunId != ms[b].streamRunId
  }

  /** The streaming merge never adds a second copy of a run. */
  lemma StreamingMergeKeepsRunsDistinct(server: seq<Message>, streaming: seq<Message>, now: int)
    requires DistinctRunTags(server)
    ensures DistinctRunTags(StreamingMerge(server, streaming, now))
  {
    var r := StreamingMerge(server, streaming, now);
    StreamingMergeShape(server, streaming, now);
    forall a, b | 0 <= a < b < |r| && IsStreaming(r[b]) ensures r[a].streamRunId != r[b].streamRunId {
      if b < |server| {
        assert r[a] == server[a] && r[b] == server[b];
      } else {
        assert r[..b][a] == r[a];
        assert !StreamingMatch(r[b], r[a], now);
      }
    }
  }

  // ---------------------------------------------------------------------
  // the refetch

  /** `fetchHistoryForSession` after the server answered. The cached
      messages are those under the history key before the fetch. None
      stands for the exception the merge throws when the server sent no
      message array and the cache holds messages to keep. */
  function FetchHistoryForSession(cachedMessages: seq<Message>, server: HistoryData, now: int): (r: Option<HistoryData>)
    ensures Filter(cachedMessages, IsOptimistic) == [] && Filter(cachedMessages, IsStreaming) == [] ==> r == Some(server)
    ensures r.None? <==>
              (Filter(cachedMessages, IsOptimistic) != [] || Filter(cachedMessages, IsStreaming) != []) && !server.messages.Has?
    ensures r.Some? ==> r.value.sessionKey == server.sessionKey && r.value.sessionId == server.sessionId
    ensures r.Some? && server.messages.Has? ==>
              r.value.messages.Has?
              && |server.messages.value| <= |r.value.messages.value|
              && r.value.messages.value[..|server.messages.value|] == server.messages.value
    ensures (Filter(cachedMessages, IsOptimistic) != [] || Filter(cachedMessages, IsStreaming) != [])
            && server.messages.Has? ==>
              r == Some(server.(messages := Has(StreamingMerge(
                OptimisticMerge(server.messages.value, Filter(cachedMessages, IsOptimistic), now),
                Filter(cachedMessages, IsStreaming), now))))
  {
    var optimistic := Filter(cachedMessages, IsOptimistic);
    var streaming := Filter(cachedMessages, IsStreaming);
    if optimistic == [] && streaming == [] then Some(server)
    else if !server.messages.Has? then None
    else
      var withOptimistic := OptimisticMerge(server.messages.value, optimistic, now);
      var merged := StreamingMerge(withOptimistic, streaming, now);
      StreamingMergeShape(withOptimistic, streaming, now);
      assert merged[..|server.messages.value|] == withOptimistic[..|server.messages.value|];
      Some(server.(messages := Has(merged)))
  }

  /** With no optimistic and no streamed message in the cache, the
      refetch returns the server's answer as it is. */
  lemma ServerAnswerKeptWithoutLocalMessages(cachedMessages: seq<Message>, server: HistoryData, now: int)
    requires forall i :: 0 <= i < |cachedMessages| ==> !IsOptimistic(cachedMessages[i]) && !IsStreaming(cachedMessages[i])
    ensures FetchHistoryForSession(cachedMessages, server, now) == Some(server)
  {
    FilterNone(cachedMessages, IsOptimistic);
    FilterNone(cachedMessages, IsStreaming);
  }
}
