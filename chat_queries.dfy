/** The client's query cache for chat data and the list transforms the
    chat screen applies to it: per-session message histories keyed by
    (friendlyId, sessionKey) and the session list. A cache write becomes
    a function from the old cache to the new one. */
module ChatQueries {
  import opened Base
  import opened Messages
  import opened ChatUtils

  /** `chatQueryKeys.history(friendlyId, sessionKey)` */
  datatype HistoryKey = HistoryKey(friendlyId: string, sessionKey: string)

  /** A cached history response. */
  datatype HistoryData = HistoryData(sessionKey: Field<string>, sessionId: Field<string>, messages: Field<seq<Message>>)

  /** The value cached under `chatQueryKeys.sessions`: nothing yet, some
      value that is not an array, or the session list. */
  datatype SessionsEntry = NoSessions | NotAList | SessionList(sessions: seq<SessionMeta>)

  datatype QueryCache = QueryCache(histories: map<HistoryKey, HistoryData>, sessions: SessionsEntry)

  /** `Array.isArray(current?.messages) ? current.messages : []` */
  function MessagesAt(cache: QueryCache, key: HistoryKey): seq<Message> {
    if key in cache.histories && cache.histories[key].messages.Has? then cache.histories[key].messages.value
    else []
  }

  /** `r` differs from `cache` at most in the history entry under `key`,
      which it holds: the session list and every other entry are kept. */
  predicate TouchesOnly(cache: QueryCache, r: QueryCache, key: HistoryKey) {
    r.sessions == cache.sessions
    && r.histories.Keys == cache.histories.Keys + {key}
    && forall k :: k in cache.histories && k != key ==> r.histories[k] == cache.histories[k]
  }

  /** `updateHistoryMessages`: rewrite one history entry's message list,
      creating the entry when it is absent. */
  function UpdateHistoryMessages(cache: QueryCache, friendlyId: string, sessionKey: string,
                                 updater: seq<Message> -> seq<Message>): (r: QueryCache)
    ensures TouchesOnly(cache, r, HistoryKey(friendlyId, sessionKey))
    ensures MessagesAt(r, HistoryKey(friendlyId, sessionKey))
            == updater(MessagesAt(cache, HistoryKey(friendlyId, sessionKey)))
    ensures var key := HistoryKey(friendlyId, sessionKey);
            r.histories[key].sessionKey ==
              if key in cache.histories && cache.histories[key].sessionKey.Has?
              then cache.histories[key].sessionKey else Has(sessionKey)
  {
    var key := HistoryKey(friendlyId, sessionKey);
    var current := if key in cache.histories then Some(cache.histories[key]) else None;
    var keptKey := if current.Some? && current.value.sessionKey.Has? then current.value.sessionKey else Has(sessionKey);
    var keptId := if current.Some? then Copied(current.value.sessionId) else Unset;
    cache.(histories := cache.histories[key := HistoryData(keptKey, keptId, Has(updater(MessagesAt(cache, key))))])
  }

  /** `appendHistoryMessage` */
  function AppendHistoryMessage(cache: QueryCache, friendlyId: string, sessionKey: string, message: Message): (r: QueryCache)
    ensures MessagesAt(r, HistoryKey(friendlyId, sessionKey)) == MessagesAt(cache, HistoryKey(friendlyId, sessionKey)) + [message]
    ensures forall k :: k != HistoryKey(friendlyId, sessionKey) ==> MessagesAt(r, k) == MessagesAt(cache, k)
    ensures TouchesOnly(cache, r, HistoryKey(friendlyId, sessionKey))
  {
    UpdateHistoryMessages(cache, friendlyId, sessionKey, (ms: seq<Message>) => ms + [message])
  }

  /** The messages `updateHistoryMessageByClientId` hands to its updater. */
  predicate MatchesClientId(m: Message, clientId: string) {
    m.clientId == Has(clientId) || m.optimisticId == Has(clientId) || m.optimisticId == Has("opt-" + clientId)
  }

  function MapMatching(ms: seq<Message>, clientId: string, updater: Message -> Message): (r: seq<Message>)
    ensures |r| == |ms|
    ensures forall i :: 0 <= i < |ms| ==>
              r[i] == if MatchesClientId(ms[i], clientId) then updater(ms[i]) else ms[i]
  {
    if ms == [] then []
    else [if MatchesClientId(ms[0], clientId) then updater(ms[0]) else ms[0]]
         + MapMatching(ms[1..], clientId, updater)
  }

  /** `updateHistoryMessageByClientId` */
  function UpdateHistoryMessageByClientId(cache: QueryCache, friendlyId: string, sessionKey: string,
                                          clientId: string, updater: Message -> Message): (r: QueryCache)
    ensures var before := MessagesAt(cache, HistoryKey(friendlyId, sessionKey));
            var after := MessagesAt(r, HistoryKey(friendlyId, sessionKey));
            |after| == |before| &&
            forall i :: 0 <= i < |before| ==>
              after[i] == if MatchesClientId(before[i], clientId) then updater(before[i]) else before[i]
    ensures TouchesOnly(cache, r, HistoryKey(friendlyId, sessionKey))
  {
    UpdateHistoryMessages(cache, friendlyId, sessionKey, (ms: seq<Message>) => MapMatching(ms, clientId, updater))
  }

  /** The messages `removeHistoryMessageByClientId` drops; an empty
      optimisticId stands for the omitted argument. */
  predicate RemovedBy(m: Message, clientId: string, optimisticId: string) {
    m.clientId == Has(clientId) || m.optimisticId == Has(clientId)
    || (optimisticId != "" && m.optimisticId == Has(optimisticId))
  }

  function Survivors(ms: seq<Message>, clientId: string, optimisticId: string): (r: seq<Message>)
    ensures |r| <= |ms|
    ensures forall i :: 0 <= i < |r| ==> !RemovedBy(r[i], clientId, optimisticId) && r[i] in ms
    ensures forall i :: 0 <= i < |ms| && !RemovedBy(ms[i], clientId, optimisticId) ==> ms[i] in r
  {
    Filter(ms, (m: Message) => !RemovedBy(m, clientId, optimisticId))
  }

  /** `removeHistoryMessageByClientId` */
  function RemoveHistoryMessageByClientId(cache: QueryCache, friendlyId: string, sessionKey: string,
                                          clientId: string, optimisticId: string): (r: QueryCache)
    ensures MessagesAt(r, HistoryKey(friendlyId, sessionKey))
            == Survivors(MessagesAt(cache, HistoryKey(friendlyId, sessionKey)), clientId, optimisticId)
    ensures TouchesOnly(cache, r, HistoryKey(friendlyId, sessionKey))
  {
    UpdateHistoryMessages(cache, friendlyId, sessionKey, (ms: seq<Message>) => Survivors(ms, clientId, optimisticId))
  }

  /** Removing the same client's messages twice removes nothing more. */
  lemma RemoveIdempotent(cache: QueryCache, friendlyId: string, sessionKey: string, clientId: string, optimisticId: string)
    ensures var once := RemoveHistoryMessageByClientId(cache, friendlyId, sessionKey, clientId, optimisticId);
            MessagesAt(RemoveHistoryMessageByClientId(once, friendlyId, sessionKey, clientId, optimisticId),
                       HistoryKey(friendlyId, sessionKey))
            == MessagesAt(once, HistoryKey(friendlyId, sessionKey))
  {
    FilterIdempotent(MessagesAt(cache, HistoryKey(friendlyId, sessionKey)),
                     (m: Message) => !RemovedBy(m, clientId, optimisticId));
  }

  /** Removal keeps the surviving messages in their order: removing from
      a concatenation removes from each part. */
  lemma SurvivorsAppend(a: seq<Message>, b: seq<Message>, clientId: string, optimisticId: string)
    ensures Survivors(a + b, clientId, optimisticId) == Survivors(a, clientId, optimisticId) + Survivors(b, clientId, optimisticId)
  {
    FilterAppend(a, b, (m: Message) => !RemovedBy(m, clientId, optimisticId));
  }

  lemma {:induction false} SurvivorsOfUntouched(ms: seq<Message>, clientId: string, optimisticId: string)
    requires forall i :: 0 <= i < |ms| ==> !RemovedBy(ms[i], clientId, optimisticId)
    ensures Survivors(ms, clientId, optimisticId) == ms
  {
    if ms != [] {
      SurvivorsOfUntouched(ms[1..], clientId, optimisticId);
    }
  }

  /** The send path's rollback: appending an optimistic message and then
      removing it by its client id restores the history, provided no
      earlier message carried that id. */
  lemma AppendThenRemoveRestores(cache: QueryCache, friendlyId: string, sessionKey: string, message: Message,
                                 clientId: string, optimisticId: string)
    requires RemovedBy(message, clientId, optimisticId)
    requires forall m :: m in MessagesAt(cache, HistoryKey(friendlyId, sessionKey)) ==> !RemovedBy(m, clientId, optimisticId)
    ensures MessagesAt(RemoveHistoryMessageByClientId(AppendHistoryMessage(cache, friendlyId, sessionKey, message),
                                                      friendlyId, sessionKey, clientId, optimisticId),
                       HistoryKey(friendlyId, sessionKey))
            == MessagesAt(cache, HistoryKey(friendlyId, sessionKey))
  {
    var before := MessagesAt(cache, HistoryKey(friendlyId, sessionKey));
    SurvivorsAppend(before, [message], clientId, optimisticId);
    SurvivorsOfUntouched(before, clientId, optimisticId);
  }

  /** `clearHistoryMessages`: the entry becomes `{sessionKey, messages: []}`. */
  function ClearHistoryMessages(cache: QueryCache, friendlyId: string, sessionKey: string): (r: QueryCache)
    ensures MessagesAt(r, HistoryKey(friendlyId, sessionKey)) == []
    ensures HistoryKey(friendlyId, sessionKey) in r.histories
            && r.histories[HistoryKey(friendlyId, sessionKey)].sessionKey == Has(sessionKey)
    ensures forall k :: k != HistoryKey(friendlyId, sessionKey) ==> MessagesAt(r, k) == MessagesAt(cache, k)
    ensures TouchesOnly(cache, r, HistoryKey(friendlyId, sessionKey))
    ensures r.histories[HistoryKey(friendlyId, sessionKey)] == HistoryData(Has(sessionKey), Missing, Has([]))
  {
    cache.(histories := cache.histories[HistoryKey(friendlyId, sessionKey) := HistoryData(Has(sessionKey), Missing, Has([]))])
  }

  /** `moveHistoryMessages`: copy the source entry to the target key, then
      drop the source entry. */
  function MoveHistoryMessages(cache: QueryCache, fromFriendlyId: string, fromSessionKey: string,
                               toFriendlyId: string, toSessionKey: string): (r: QueryCache)
    ensures HistoryKey(fromFriendlyId, fromSessionKey) !in cache.histories ==> r == cache
    ensures HistoryKey(fromFriendlyId, fromSessionKey) in cache.histories ==>
              HistoryKey(fromFriendlyId, fromSessionKey) !in r.histories
    ensures HistoryKey(fromFriendlyId, fromSessionKey) in cache.histories
            && HistoryKey(fromFriendlyId, fromSessionKey) != HistoryKey(toFriendlyId, toSessionKey) ==>
              MessagesAt(r, HistoryKey(toFriendlyId, toSessionKey)) == MessagesAt(cache, HistoryKey(fromFriendlyId, fromSessionKey))
              && HistoryKey(toFriendlyId, toSessionKey) in r.histories
              && r.histories[HistoryKey(toFriendlyId, toSessionKey)].sessionKey == Has(toSessionKey)
    ensures forall k :: k != HistoryKey(fromFriendlyId, fromSessionKey) && k != HistoryKey(toFriendlyId, toSessionKey) ==>
              (k in r.histories <==> k in cache.histories) && MessagesAt(r, k) == MessagesAt(cache, k)
    ensures r.sessions == cache.sessions
    ensures forall k :: (k in cache.histories && k != HistoryKey(fromFriendlyId, fromSessionKey)
                         && k != HistoryKey(toFriendlyId, toSessionKey)) ==> r.histories[k] == cache.histories[k]
    ensures var fromKey := HistoryKey(fromFriendlyId, fromSessionKey);
            var toKey := HistoryKey(toFriendlyId, toSessionKey);
            fromKey in cache.histories && fromKey != toKey ==>
              r.histories.Keys == cache.histories.Keys + {toKey} - {fromKey}
              && r.histories[toKey]
                 == HistoryData(Has(toSessionKey), Copied(cache.histories[fromKey].sessionId),
                                Has(MessagesAt(cache, fromKey)))
  {
    var fromKey := HistoryKey(fromFriendlyId, fromSessionKey);
    var toKey := HistoryKey(toFriendlyId, toSessionKey);
    if fromKey !in cache.histories then cache
    else
      var fromData := cache.histories[fromKey];
      var moved := HistoryData(Has(toSessionKey), Copied(fromData.sessionId), Has(MessagesAt(cache, fromKey)));
      cache.(histories := cache.histories[toKey := moved] - {fromKey})
  }

  /** Moving an entry onto its own key removes it: the write lands first
      and the removal of the source key then erases it. */
  lemma MoveOntoItselfDropsEntry(cache: QueryCache, friendlyId: string, sessionKey: string)
    ensures HistoryKey(friendlyId, sessionKey) !in MoveHistoryMessages(cache, friendlyId, sessionKey, friendlyId, sessionKey).histories
  {
  }

  /** A session `updateSessionLastMessage` rewrites. */
  predicate SessionMatches(s: SessionMeta, sessionKey: string, friendlyId: string) {
    s.key == sessionKey || s.friendlyId == friendlyId
  }

  function StampLastMessage(ss: seq<SessionMeta>, sessionKey: string, friendlyId: string, message: Message): (r: seq<SessionMeta>)
    ensures |r| == |ss|
    ensures forall i :: 0 <= i < |ss| ==>
              r[i] == if SessionMatches(ss[i], sessionKey, friendlyId) then ss[i].(lastMessage := Some(message)) else ss[i]
  {
    if ss == [] then []
    else [if SessionMatches(ss[0], sessionKey, friendlyId) then ss[0].(lastMessage := Some(message)) else ss[0]]
         + StampLastMessage(ss[1..], sessionKey, friendlyId, message)
  }

  /** `updateSessionLastMessage`: non-array data is left as it is. */
  function UpdateSessionLastMessage(cache: QueryCache, sessionKey: string, friendlyId: string, message: Message): (r: QueryCache)
    ensures r.histories == cache.histories
    ensures !cache.sessions.SessionList? ==> r == cache
    ensures cache.sessions.SessionList? ==>
              r.sessions.SessionList? && |r.sessions.sessions| == |cache.sessions.sessions|
              && forall i :: 0 <= i < |r.sessions.sessions| ==>
                   var before := cache.sessions.sessions[i];
                   var after := r.sessions.sessions[i];
                   after == if SessionMatches(before, sessionKey, friendlyId) then before.(lastMessage := Some(message))
                            else before
  {
    if cache.sessions.SessionList? then
      cache.(sessions := SessionList(StampLastMessage(cache.sessions.sessions, sessionKey, friendlyId, message)))
    else cache
  }

  /** The history keys `removeSessionFromCache` drops: the prefix
      `['chat', 'history', friendlyId]`, and `['chat', 'history', sessionKey]`
      when the session key is non-empty and differs from the friendly id.
      Both prefixes match on the friendlyId position of the key. */
  predicate DroppedHistory(k: HistoryKey, sessionKey: string, friendlyId: string) {
    k.friendlyId == friendlyId || (sessionKey != "" && sessionKey != friendlyId && k.friendlyId == sessionKey)
  }

  function KeepSessions(ss: seq<SessionMeta>, sessionKey: string, friendlyId: string): (r: seq<SessionMeta>)
    ensures |r| <= |ss|
    ensures forall i :: 0 <= i < |r| ==> r[i] in ss && r[i].key != sessionKey && r[i].friendlyId != friendlyId
    ensures forall i :: 0 <= i < |ss| && ss[i].key != sessionKey && ss[i].friendlyId != friendlyId ==> ss[i] in r
  {
    Filter(ss, (s: SessionMeta) => s.key != sessionKey && s.friendlyId != friendlyId)
  }

  /** `removeSessionFromCache` */
  function RemoveSessionFromCache(cache: QueryCache, sessionKey: string, friendlyId: string): (r: QueryCache)
    ensures !cache.sessions.SessionList? ==> r.sessions == cache.sessions
    ensures cache.sessions.SessionList? ==>
              r.sessions == SessionList(KeepSessions(cache.sessions.sessions, sessionKey, friendlyId))
    ensures forall k :: k in r.histories <==> k in cache.histories && !DroppedHistory(k, sessionKey, friendlyId)
    ensures forall k :: k in r.histories ==> r.histories[k] == cache.histories[k]
  {
    var sessions :=
      if cache.sessions.SessionList? then SessionList(KeepSessions(cache.sessions.sessions, sessionKey, friendlyId))
      else cache.sessions;
    var histories := map k | k in cache.histories && !DroppedHistory(k, sessionKey, friendlyId) :: cache.histories[k];
    QueryCache(histories, sessions)
  }

  /** Once a session is removed no cached session carries its key or
      friendly id, and no history remains under its friendly id. */
  lemma RemovedSessionIsGone(cache: QueryCache, sessionKey: string, friendlyId: string)
    requires cache.sessions.SessionList?
    ensures var r := RemoveSessionFromCache(cache, sessionKey, friendlyId);
            r.sessions.SessionList?
            && (forall s :: s in r.sessions.sessions ==> s.key != sessionKey && s.friendlyId != friendlyId)
            && (forall k :: k in r.histories ==> k.friendlyId != friendlyId)
  {
    var r := RemoveSessionFromCache(cache, sessionKey, friendlyId);
    forall s | s in r.sessions.sessions ensures s.key != sessionKey && s.friendlyId != friendlyId {
      var i :| 0 <= i < |r.sessions.sessions| && r.sessions.sessions[i] == s;
    }
  }
}
