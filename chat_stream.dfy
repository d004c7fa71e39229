/** The live-event pipeline of the chat stream: agent events normalised
    into chat payloads, the per-run ownership, duplicate and staleness
    filters, and the placement of each accepted streamed message in the
    query cache. The run bookkeeping is a class whose maps and set the
    handler updates in place; each of its methods is proved against a
    function on the bookkeeping's value. */
module ChatStream {
  import opened Base
  import opened Messages
  import opened ChatUtils
  import opened ChatQueries
  import opened StreamMerge

  // ---------------------------------------------------------------------
  // payloads

  /** `StreamChatPayload`. A chat frame whose payload is an object of some
      other shape reads as a payload whose fields are all Missing. */
  datatype ChatPayload = ChatPayload(runId: Field<string>, sessionKey: Field<string>, state: Field<string>,
                                     message: Field<Message>, seqNum: Option<int>)

  /** The `output` of a tool-result agent event. */
  datatype ToolOutput = NoOutput | OutputObject(obj: ObjectValue) | OutputText(text: string) | OutputOther

  /** The `data` object of an agent event. A `data` that is not an object
      reads as NoData. For `input` and `arguments`, Missing means the
      value is not of type object and Unset means it is null. */
  datatype AgentData = AgentData(
    text: Field<string>, delta: Field<string>, thinking: Field<string>, phase: Field<string>,
    toolCallId: Field<string>, id: Field<string>, callId: Field<string>,
    toolName: Field<string>, name: Field<string>, partialJson: Field<string>, error: Field<string>,
    input: Field<ObjectValue>, arguments: Field<ObjectValue>, output: ToolOutput)

  const NoData: AgentData :=
    AgentData(Missing, Missing, Missing, Missing, Missing, Missing, Missing,
              Missing, Missing, Missing, Missing, Missing, Missing, NoOutput)

  /** The payload of an `agent` frame that is an object. */
  datatype AgentPayload = AgentPayload(runId: Field<string>, sessionKey: Field<string>, stream: Field<string>,
                                       seqNum: Option<int>, data: AgentData)

  /** `a || b` on strings. */
  function Either(a: string, b: string): string {
    if a != "" then a else b
  }

  /** `s || undefined` as a property value. */
  function OrUnset(s: string): Field<string> {
    if s != "" then Has(s) else Unset
  }

  function AssistantText(d: AgentData): string {
    Either(Norm(d.text), Norm(d.delta))
  }

  function ThinkingText(d: AgentData): string {
    Either(Norm(d.thinking), Norm(d.text))
  }

  function ToolCallIdOf(d: AgentData): string {
    Either(Norm(d.toolCallId), Either(Norm(d.id), Norm(d.callId)))
  }

  function ToolNameOf(d: AgentData): string {
    Either(Norm(d.toolName), Norm(d.name))
  }

  /** `typeof data.input === 'object' ? data.input : typeof data.arguments === 'object' ? data.arguments : undefined`,
      where a null input wins over the arguments. */
  function ToolInput(d: AgentData): Option<ObjectValue> {
    if !d.input.Missing? then AsOption(d.input) else AsOption(d.arguments)
  }

  /** The message a tool-result agent event becomes. */
  function ToolResultMessage(d: AgentData): Message {
    var errorText := Norm(d.error);
    EmptyMessage.(
      role := Has("toolResult"),
      toolCallId := OrUnset(ToolCallIdOf(d)),
      toolName := OrUnset(ToolNameOf(d)),
      details := if d.output.OutputObject? then Has(d.output.obj) else Unset,
      isError := Has(errorText != ""),
      content := Has([TextPart(if errorText != "" then errorText
                               else if d.output.OutputText? then d.output.text else "")]))
  }

  /** A `delta` payload carrying the given message. */
  function DeltaOf(v: AgentPayload, message: Message): ChatPayload {
    ChatPayload(Has(Norm(v.runId)), Has(Norm(v.sessionKey)), Has("delta"), Has(message), v.seqNum)
  }

  predicate IsToolStream(stream: string) {
    Contains(stream, "tool")
    && (Contains(stream, "call") || Contains(stream, "result") || Contains(stream, "output"))
  }

  /** `extractChatPayloadsFromAgentPayload`. None stands for a payload that
      is not an object. */
  function ExtractChatPayloads(payload: Option<AgentPayload>): (r: seq<ChatPayload>)
    ensures |r| <= 1
    ensures payload.None? ==> r == []
    ensures r != [] ==>
              var v := payload.value;
              r[0].runId == Has(Norm(v.runId)) && r[0].sessionKey == Has(Norm(v.sessionKey)) && r[0].seqNum == v.seqNum
              && (r[0].state == Has("final") || r[0].state == Has("delta"))
              && (r[0].state == Has("final") <==> Norm(v.stream) == "lifecycle")
              && (r[0].message.Missing? <==> r[0].state == Has("final"))
    ensures payload.Some? && Norm(payload.value.stream) == "lifecycle" ==>
              (r != [] <==> Norm(payload.value.data.phase) == "end")
    ensures payload.Some? && Norm(payload.value.stream) == "assistant" ==>
              (r == [] <==> Norm(payload.value.data.text) == "" && Norm(payload.value.data.delta) == "")
    ensures payload.Some? && Norm(payload.value.stream) == "thinking" ==>
              (r == [] <==> Norm(payload.value.data.thinking) == "" && Norm(payload.value.data.text) == "")
    ensures payload.Some? && Norm(payload.value.stream) != "assistant" && Norm(payload.value.stream) != "thinking"
            && Norm(payload.value.stream) != "lifecycle" ==>
              (r != [] <==> IsToolStream(Norm(payload.value.stream)))
    ensures r != [] && r[0].message.Has? ==>
              var m := r[0].message.value;
              |ContentOf(m)| == 1
              && (HasRole(m, "assistant") || HasRole(m, "toolResult"))
              && (HasRole(m, "toolResult") ==>
                    m.isError == Has(Norm(payload.value.data.error) != "") && ContentOf(m)[0].TextPart?)
              && (HasRole(m, "assistant") && ContentOf(m)[0].TextPart? ==> ContentOf(m)[0].text != "")
    // the message each stream builds: text wins over delta, thinking over text
    ensures payload.Some? && Norm(payload.value.stream) == "assistant" && r != [] ==>
              var d := payload.value.data;
              r[0].message == Has(EmptyMessage.(role := Has("assistant"), content := Has([
                TextPart(if Norm(d.text) != "" then Norm(d.text) else Norm(d.delta))])))
    ensures payload.Some? && Norm(payload.value.stream) == "thinking" && r != [] ==>
              var d := payload.value.data;
              r[0].message == Has(EmptyMessage.(role := Has("assistant"), content := Has([
                ThinkingPart(if Norm(d.thinking) != "" then Norm(d.thinking) else Norm(d.text))])))
    ensures payload.Some? && IsToolStream(Norm(payload.value.stream)) && Contains(Norm(payload.value.stream), "call")
            && Norm(payload.value.stream) != "assistant" && Norm(payload.value.stream) != "thinking"
            && Norm(payload.value.stream) != "lifecycle" ==>
              var d := payload.value.data;
              r != [] && r[0].message == Has(EmptyMessage.(role := Has("assistant"), content := Has([
                ToolCallPart(ToolCall(ToolCallIdOf(d), ToolNameOf(d), Norm(d.partialJson), ToolInput(d)))])))
    ensures payload.Some? && IsToolStream(Norm(payload.value.stream)) && !Contains(Norm(payload.value.stream), "call")
            && Norm(payload.value.stream) != "assistant" && Norm(payload.value.stream) != "thinking"
            && Norm(payload.value.stream) != "lifecycle" ==>
              var d := payload.value.data;
              var errorText := Norm(d.error);
              r != [] && r[0].message.Has? && HasRole(r[0].message.value, "toolResult")
              && r[0].message.value.toolCallId == OrUnset(ToolCallIdOf(d))
              && r[0].message.value.toolName == OrUnset(ToolNameOf(d))
              && r[0].message.value.details == (if d.output.OutputObject? then Has(d.output.obj) else Unset)
              && ContentOf(r[0].message.value)
                 == [TextPart(if errorText != "" then errorText else if d.output.OutputText? then d.output.text else "")]
  {
    if payload.None? then []
    else
      var v := payload.value;
      var d := v.data;
      var stream := Norm(v.stream);
      if stream == "assistant" then
        var text := AssistantText(d);
        if text == "" then []
        else [DeltaOf(v, EmptyMessage.(role := Has("assistant"), content := Has([TextPart(text)])))]
      else if stream == "thinking" then
        var thinking := ThinkingText(d);
        if thinking == "" then []
        else [DeltaOf(v, EmptyMessage.(role := Has("assistant"), content := Has([ThinkingPart(thinking)])))]
      else if stream == "lifecycle" then
        if Norm(d.phase) == "end" then [ChatPayload(Has(Norm(v.runId)), Has(Norm(v.sessionKey)), Has("final"), Missing, v.seqNum)]
        else []
      else if Contains(stream, "tool") then
        if Contains(stream, "call") then
          var call := ToolCall(ToolCallIdOf(d), ToolNameOf(d), Norm(d.partialJson), ToolInput(d));
          [DeltaOf(v, EmptyMessage.(role := Has("assistant"), content := Has([ToolCallPart(call)])))]
        else if Contains(stream, "result") || Contains(stream, "output") then
          [DeltaOf(v, ToolResultMessage(d))]
        else []
      else []
  }

  /** A tool result is an error exactly when its error text has a
      character that is not whitespace. */
  lemma ToolResultErrorIffNonBlank(v: AgentPayload)
    requires Norm(v.stream) != "assistant" && Norm(v.stream) != "thinking" && Norm(v.stream) != "lifecycle"
    requires Contains(Norm(v.stream), "tool") && !Contains(Norm(v.stream), "call")
    requires Contains(Norm(v.stream), "result") || Contains(Norm(v.stream), "output")
    ensures var r := ExtractChatPayloads(Some(v));
            |r| == 1 && r[0].message.Has? && HasRole(r[0].message.value, "toolResult")
            && (r[0].message.value.isError == Has(true) <==> v.data.error.Has? && !AllSpace(v.data.error.value))
  {
    if v.data.error.Has? {
      TrimEmptyIffBlank(v.data.error.value);
    }
  }

  // ---------------------------------------------------------------------
  // the duplicate-event filter

  datatype Source = Agent | Chat

  /** The duplicate key `source:runId:state:seq`, kept as a tuple. */
  datatype EventKey = EventKey(source: Source, runId: string, state: string, seqNum: int)

  const MaxSeenEventKeys := 4000

  /** `shouldSkipDuplicateEvent` on the value of the seen set: the verdict
      and the set afterwards. A missing state contributes ''. */
  function DuplicateCheck(seen: set<EventKey>, source: Source, runId: string, state: Field<string>, seqNum: Option<int>)
    : (r: (bool, set<EventKey>))
    ensures runId == "" || seqNum.None? ==> r == (false, seen)
    ensures runId != "" && seqNum.Some? ==> (r.0 <==> EventKey(source, runId, Text(state), seqNum.value) in seen)
    ensures r.0 ==> r.1 == seen
    ensures !r.0 && runId != "" && seqNum.Some? ==>
              r.1 == seen + {EventKey(source, runId, Text(state), seqNum.value)} || r.1 == {}
    ensures |seen| <= MaxSeenEventKeys ==> |r.1| <= MaxSeenEventKeys
  {
    if runId == "" || seqNum.None? then (false, seen)
    else
      var key := EventKey(source, runId, Text(state), seqNum.value);
      if key in seen then (true, seen)
      else if |seen + {key}| > MaxSeenEventKeys then (false, {})
      else (false, seen + {key})
  }

  /** While the set has room, an event that passes is skipped when it
      arrives a second time. */
  lemma DuplicateReplaySkipped(seen: set<EventKey>, source: Source, runId: string, state: Field<string>, seqNum: Option<int>)
    requires |seen| < MaxSeenEventKeys && runId != "" && seqNum.Some?
    ensures var first := DuplicateCheck(seen, source, runId, state, seqNum);
            DuplicateCheck(first.1, source, runId, state, seqNum).0
  {
    var key := EventKey(source, runId, Text(state), seqNum.value);
    if key !in seen {
      assert |seen + {key}| == |seen| + 1;
    }
  }

  // ---------------------------------------------------------------------
  // the staleness filter

  /** The seq is at or below the one stored for the run. */
  predicate SeqStale(runSeq: map<string, int>, runId: string, seqNum: Option<int>) {
    seqNum.Some? && runId in runSeq && seqNum.value <= runSeq[runId]
  }

  /** The state version is strictly below the one stored for the run. */
  predicate VersionStale(runStateVersion: map<string, int>, runId: string, stateVersion: Option<int>) {
    stateVersion.Some? && runId in runStateVersion && stateVersion.value < runStateVersion[runId]
  }

  /** The map after a value is stored for the run, when there is one. */
  function Record(m: map<string, int>, runId: string, value: Option<int>): map<string, int> {
    if value.Some? then m[runId := value.value] else m
  }

  /** `shouldSkipStaleRunEvent` on the values of the two maps: the verdict
      and both maps afterwards. */
  function StaleCheck(runSeq: map<string, int>, runStateVersion: map<string, int>, runId: string,
                      seqNum: Option<int>, stateVersion: Option<int>): (r: (bool, map<string, int>, map<string, int>))
    ensures r.0 <==> runId != "" && (SeqStale(runSeq, runId, seqNum) || VersionStale(runStateVersion, runId, stateVersion))
    ensures runId == "" || SeqStale(runSeq, runId, seqNum) ==> r.1 == runSeq && r.2 == runStateVersion
    ensures runId != "" && !SeqStale(runSeq, runId, seqNum) ==> r.1 == Record(runSeq, runId, seqNum)
    ensures runId != "" && !SeqStale(runSeq, runId, seqNum) && VersionStale(runStateVersion, runId, stateVersion) ==>
              r.2 == runStateVersion
    ensures runId != "" && !SeqStale(runSeq, runId, seqNum) && !VersionStale(runStateVersion, runId, stateVersion) ==>
              r.2 == Record(runStateVersion, runId, stateVersion)
    ensures r.1 - {runId} == runSeq - {runId} && r.2 - {runId} == runStateVersion - {runId}
  {
    if runId == "" then (false, runSeq, runStateVersion)
    else if SeqStale(runSeq, runId, seqNum) then (true, runSeq, runStateVersion)
    else
      var seqs := Record(runSeq, runId, seqNum);
      if VersionStale(runStateVersion, runId, stateVersion) then (true, seqs, runStateVersion)
      else (false, seqs, Record(runStateVersion, runId, stateVersion))
  }

  /** One seq fed to the check without a state version: it is stale
      exactly when at or below the seq stored for the run, and otherwise it
      becomes the stored seq. */
  lemma SeqOnlyStep(runSeq: map<string, int>, runId: string, x: int)
    requires runId != ""
    ensures var r := StaleCheck(runSeq, map[], runId, Some(x), None);
            (r.0 <==> runId in runSeq && x <= runSeq[runId])
            && r.1 == (if r.0 then runSeq else runSeq[runId := x])
  {
  }

  /** The seqs of one run that pass the staleness check when fed one after
      another without state versions, each step as `SeqOnlyStep` states it. */
  function PassingSeqs(runSeq: map<string, int>, runId: string, seqs: seq<int>): seq<int>
    requires runId != ""
    decreases |seqs|
  {
    if seqs == [] then []
    else if runId in runSeq && seqs[0] <= runSeq[runId] then PassingSeqs(runSeq, runId, seqs[1..])
    else [seqs[0]] + PassingSeqs(runSeq[runId := seqs[0]], runId, seqs[1..])
  }

  predicate StrictlyIncreasing(s: seq<int>) {
    forall i, j :: 0 <= i < j < |s| ==> s[i] < s[j]
  }

  /** Every seq a run lets through lies above the seq stored when
      feeding began. */
  lemma {:induction false} PassingSeqsAbove(runSeq: map<string, int>, runId: string, seqs: seq<int>)
    requires runId != "" && runId in runSeq
    ensures forall i :: 0 <= i < |PassingSeqs(runSeq, runId, seqs)| ==> PassingSeqs(runSeq, runId, seqs)[i] > runSeq[runId]
    decreases |seqs|
  {
    if seqs != [] {
      var x := seqs[0];
      if runId in runSeq && x <= runSeq[runId] {
        PassingSeqsAbove(runSeq, runId, seqs[1..]);
      } else {
        PassingSeqsAbove(runSeq[runId := x], runId, seqs[1..]);
      }
    }
  }

  /** The seqs a run lets through strictly increase. */
  lemma {:induction false} PassingSeqsIncrease(runSeq: map<string, int>, runId: string, seqs: seq<int>)
    requires runId != ""
    ensures StrictlyIncreasing(PassingSeqs(runSeq, runId, seqs))
    decreases |seqs|
  {
    if seqs != [] {
      var x := seqs[0];
      if runId in runSeq && x <= runSeq[runId] {
        PassingSeqsIncrease(runSeq, runId, seqs[1..]);
      } else {
        var next := runSeq[runId := x];
        PassingSeqsIncrease(next, runId, seqs[1..]);
        PassingSeqsAbove(next, runId, seqs[1..]);
        ConsIncreasing(x, PassingSeqs(next, runId, seqs[1..]));
      }
    }
  }

  lemma ConsIncreasing(x: int, rest: seq<int>)
    requires StrictlyIncreasing(rest) && forall i :: 0 <= i < |rest| ==> rest[i] > x
    ensures StrictlyIncreasing([x] + rest)
  {
    var out := [x] + rest;
    forall i, j | 0 <= i < j < |out| ensures out[i] < out[j] {
      assert out[j] == rest[j - 1];
      if i > 0 {
        assert out[i] == rest[i - 1];
      }
    }
  }

  /** Feeding a run the seqs a, b, b, a, c, for any a < b < c, lets
      through a, b, c: the replayed b and the late a are dropped. */
  lemma ReplayedSeqsDropped(runId: string, a: int, b: int, c: int)
    requires runId != "" && a < b < c
    ensures PassingSeqs(map[], runId, [a, b, b, a, c]) == [a, b, c]
  {
    var ma := map[runId := a];
    var mb := map[runId := b];
    var mc := map[runId := c];
    assert mb[runId := c] == mc && ma[runId := b] == mb && map[][runId := a] == ma;
    assert [a, b, b, a, c][1..] == [b, b, a, c];
    assert [b, b, a, c][1..] == [b, a, c];
    assert [b, a, c][1..] == [a, c];
    assert [a, c][1..] == [c];
    assert [c][1..] == [];
    assert PassingSeqs(mb, runId, [c]) == [c] + PassingSeqs(mc, runId, []) == [c];
    assert PassingSeqs(mb, runId, [a, c]) == [c];
    assert PassingSeqs(mb, runId, [b, a, c]) == [c];
    assert PassingSeqs(ma, runId, [b, b, a, c]) == [b] + [c];
  }

  // ---------------------------------------------------------------------
  // one payload

  /** The four structures the stream handler keeps across events. */
  datatype RunBook = RunBook(runSeq: map<string, int>, runStateVersion: map<string, int>,
                             runSource: map<string, Source>, seen: set<EventKey>)

  const EmptyBook := RunBook(map[], map[], map[], {})

  /** The handler's inputs from the chat screen. */
  datatype View = View(activeFriendlyId: string, resolvedSessionKey: string, sessionKeyForHistory: string)

  /** What became of a payload that passed every filter. */
  datatype Delivery = NoMessage | OtherSession | Placed

  /** Why a payload was dropped before reaching the chat screen. */
  datatype Drop = OwnedByAgent | DuplicateEvent | StaleEvent

  /** What became of one payload. */
  datatype Fate = NotAPayload | Dropped(drop: Drop) | Delivered(delivery: Delivery)

  datatype StepResult = StepResult(book: RunBook, fate: Fate, cache: QueryCache)

  predicate IsTerminal(state: string) {
    state == "final" || state == "error" || state == "aborted"
  }

  /** A chat delta for a run the agent stream owns. */
  predicate OwnedByOther(runSource: map<string, Source>, source: Source, runId: string, state: Field<string>) {
    runId != "" && source == Chat && runId in runSource && runSource[runId] == Agent && state == Has("delta")
  }

  /** The source map after a payload claims its run. */
  function ClaimRun(runSource: map<string, Source>, source: Source, runId: string): map<string, Source> {
    if runId != "" && (source == Agent || runId !in runSource) then runSource[runId := source] else runSource
  }

  /** The seq the filters use: the payload's own seq for agent events,
      the frame's seq for chat events. */
  function EventSeq(source: Source, payload: ChatPayload, frameSeq: Option<int>): Option<int> {
    if source == Agent then payload.seqNum else frameSeq
  }

  /** A payload for a session other than the one on screen. */
  predicate ForeignSession(payloadSessionKey: string, view: View) {
    payloadSessionKey != "" && view.resolvedSessionKey != ""
    && payloadSessionKey != view.resolvedSessionKey && payloadSessionKey != view.sessionKeyForHistory
  }

  /** The bookkeeping after the filters, and why the payload was dropped
      if it was. */
  datatype Gate = Gate(book: RunBook, drop: Option<Drop>)

  /** The filters of one payload, in order: run ownership, duplicate key,
      staleness. */
  function FilterPayload(book: RunBook, source: Source, p: ChatPayload, frameSeq: Option<int>,
                         frameVersion: Option<int>): (g: Gate)
    ensures g.book.runSeq - {Text(p.runId)} == book.runSeq - {Text(p.runId)}
    ensures g.book.runStateVersion - {Text(p.runId)} == book.runStateVersion - {Text(p.runId)}
    ensures g.book.runSource - {Text(p.runId)} == book.runSource - {Text(p.runId)}
    ensures |book.seen| <= MaxSeenEventKeys ==> |g.book.seen| <= MaxSeenEventKeys
  {
    var runId := Text(p.runId);
    if OwnedByOther(book.runSource, source, runId, p.state) then Gate(book, Some(OwnedByAgent))
    else
      var runSource := ClaimRun(book.runSource, source, runId);
      var seqNum := EventSeq(source, p, frameSeq);
      var dup := DuplicateCheck(book.seen, source, runId, p.state, seqNum);
      if dup.0 then Gate(RunBook(book.runSeq, book.runStateVersion, runSource, dup.1), Some(DuplicateEvent))
      else
        var stale := StaleCheck(book.runSeq, book.runStateVersion, runId, seqNum, frameVersion);
        Gate(RunBook(stale.1, stale.2, runSource, dup.1), if stale.0 then Some(StaleEvent) else None)
  }

  /** The bookkeeping without any entry for the run. */
  function ForgetRun(book: RunBook, runId: string): (r: RunBook)
    ensures runId !in r.runSeq && runId !in r.runStateVersion && runId !in r.runSource && r.seen == book.seen
    ensures r.runSeq - {runId} == book.runSeq - {runId} && r.runStateVersion - {runId} == book.runStateVersion - {runId}
            && r.runSource - {runId} == book.runSource - {runId}
  {
    RunBook(book.runSeq - {runId}, book.runStateVersion - {runId}, book.runSource - {runId}, book.seen)
  }

  /** The three cache writes for an accepted message: upsert into the
      history on screen, upsert into the payload session's history when
      that is another key, and stamp the session list. */
  function PlaceStreamMessage(cache: QueryCache, view: View, payloadSessionKey: string, next: Message,
                              streamRunId: string, now: int): (r: QueryCache)
    ensures var key := HistoryKey(view.activeFriendlyId, view.sessionKeyForHistory);
            MessagesAt(r, key) == Upsert(MessagesAt(cache, key), next, streamRunId, now)
    ensures payloadSessionKey != "" && payloadSessionKey != view.sessionKeyForHistory ==>
              var key := HistoryKey(view.activeFriendlyId, payloadSessionKey);
              MessagesAt(r, key) == Upsert(MessagesAt(cache, key), next, streamRunId, now)
    ensures forall k :: k in cache.histories && k != HistoryKey(view.activeFriendlyId, view.sessionKeyForHistory)
                        && k != HistoryKey(view.activeFriendlyId, payloadSessionKey) ==>
                          k in r.histories && r.histories[k] == cache.histories[k]
    ensures payloadSessionKey == "" ==> r.sessions == cache.sessions
  {
    var upsert := (ms: seq<Message>) => Upsert(ms, next, streamRunId, now);
    var first := UpdateHistoryMessages(cache, view.activeFriendlyId, view.sessionKeyForHistory, upsert);
    var second :=
      if payloadSessionKey != "" && payloadSessionKey != view.sessionKeyForHistory
      then UpdateHistoryMessages(first, view.activeFriendlyId, payloadSessionKey, upsert)
      else first;
    if payloadSessionKey != "" then UpdateSessionLastMessage(second, payloadSessionKey, view.activeFriendlyId, next)
    else second
  }

  /** The message as it is stored: tagged with its run, or with the tag
      present but undefined when there is no run. */
  function Tagged(p: ChatPayload): Message
    requires p.message.Has?
  {
    p.message.value.(streamRunId := OrUnset(Text(p.runId)))
  }

  /** What happens to a payload that passed the filters. */
  function Deliver(book: RunBook, p: ChatPayload, view: View, cache: QueryCache, now: int): (r: StepResult)
    ensures r.fate.Delivered?
    ensures r.book.seen == book.seen
  {
    var runId := Text(p.runId);
    if !p.message.Has? then StepResult(book, Delivered(NoMessage), cache)
    else if ForeignSession(Text(p.sessionKey), view) then StepResult(book, Delivered(OtherSession), cache)
    else
      var finished := if runId != "" && IsTerminal(Text(p.state)) then ForgetRun(book, runId) else book;
      StepResult(finished, Delivered(Placed), PlaceStreamMessage(cache, view, Text(p.sessionKey), Tagged(p), runId, now))
  }

  /** One iteration of the per-payload loop of `handleStreamEvent`. */
  function PayloadStep(book: RunBook, source: Source, payload: Option<ChatPayload>, frameSeq: Option<int>,
                       frameVersion: Option<int>, view: View, cache: QueryCache, now: int): (r: StepResult)
    ensures r.fate.Delivered? ==> payload.Some?
    ensures !r.fate.Delivered? ==> r.cache == cache
  {
    if payload.None? then StepResult(book, NotAPayload, cache)
    else
      var g := FilterPayload(book, source, payload.value, frameSeq, frameVersion);
      if g.drop.Some? then StepResult(g.book, Dropped(g.drop.value), cache)
      else Deliver(g.book, payload.value, view, cache, now)
  }

  /** What one payload comes to: nothing for a missing payload; a drop
      exactly when a filter rejects it, keeping the filters' bookkeeping
      and the cache; a delivery exactly when every filter passes. */
  lemma PayloadStepFates(book: RunBook, source: Source, payload: Option<ChatPayload>, frameSeq: Option<int>,
                         frameVersion: Option<int>, view: View, cache: QueryCache, now: int)
    ensures var r := PayloadStep(book, source, payload, frameSeq, frameVersion, view, cache, now);
            (payload.None? ==> r == StepResult(book, NotAPayload, cache))
            && (payload.Some? ==>
                  var g := FilterPayload(book, source, payload.value, frameSeq, frameVersion);
                  (r.fate.Dropped? <==> g.drop.Some?)
                  && (r.fate.Dropped? ==> r == StepResult(g.book, Dropped(g.drop.value), cache))
                  && (r.fate.Delivered? <==> g.drop.None?))
  {
    if payload.Some? {
      var g := FilterPayload(book, source, payload.value, frameSeq, frameVersion);
      if g.drop.None? {
        assert Deliver(g.book, payload.value, view, cache, now).fate.Delivered?;
      }
    }
  }

  /** The filters run in order and each drops exactly the payloads its
      check rejects among those the earlier ones let through. */
  lemma FiltersInOrder(book: RunBook, source: Source, p: ChatPayload, frameSeq: Option<int>, frameVersion: Option<int>)
    ensures var g := FilterPayload(book, source, p, frameSeq, frameVersion);
            var runId := Text(p.runId);
            var seqNum := EventSeq(source, p, frameSeq);
            var owned := OwnedByOther(book.runSource, source, runId, p.state);
            var dup := DuplicateCheck(book.seen, source, runId, p.state, seqNum).0;
            var stale := StaleCheck(book.runSeq, book.runStateVersion, runId, seqNum, frameVersion).0;
            (g.drop == Some(OwnedByAgent) <==> owned)
            && (g.drop == Some(DuplicateEvent) <==> !owned && dup)
            && (g.drop == Some(StaleEvent) <==> !owned && !dup && stale)
            && (g.drop == None <==> !owned && !dup && !stale)
  {
  }

  /** Source precedence: a chat delta for an agent-owned run is dropped
      and changes nothing; otherwise an agent payload always claims the
      run and a chat payload claims only an unowned run. */
  lemma SourcePrecedence(book: RunBook, source: Source, p: ChatPayload, frameSeq: Option<int>, frameVersion: Option<int>)
    requires Text(p.runId) != ""
    ensures var g := FilterPayload(book, source, p, frameSeq, frameVersion);
            var runId := Text(p.runId);
            (g.drop == Some(OwnedByAgent) <==>
               source == Chat && runId in book.runSource && book.runSource[runId] == Agent && p.state == Has("delta"))
            && (g.drop == Some(OwnedByAgent) ==> g.book == book)
            && (g.drop != Some(OwnedByAgent) ==>
                  runId in g.book.runSource
                  && g.book.runSource[runId] == if runId in book.runSource && source == Chat then book.runSource[runId] else source)
  {
  }

  /** A delivered payload changes the cache only when it carries a
      message for the session on screen; then the history on screen gets
      the upsert of the run-tagged message, and a terminal state drops the
      run's entries. */
  lemma DeliveryPlacesMessage(book: RunBook, p: ChatPayload, view: View, cache: QueryCache, now: int)
    ensures var r := Deliver(book, p, view, cache, now);
            var key := HistoryKey(view.activeFriendlyId, view.sessionKeyForHistory);
            (r.fate == Delivered(Placed) <==> p.message.Has? && !ForeignSession(Text(p.sessionKey), view))
            && (r.fate != Delivered(Placed) ==> r.cache == cache && r.book == book)
            && (r.fate == Delivered(Placed) ==>
                  MessagesAt(r.cache, key) == Upsert(MessagesAt(cache, key), Tagged(p), Text(p.runId), now))
            && (r.fate == Delivered(Placed) && Text(p.runId) != "" && IsTerminal(Text(p.state)) ==>
                  r.book == ForgetRun(book, Text(p.runId)))
            && (!(r.fate == Delivered(Placed) && Text(p.runId) != "" && IsTerminal(Text(p.state))) ==> r.book == book)
  {
  }

  /** A run's seq, version and source entries survive every payload of
      that run except a terminal one that places its message; dropped
      payloads leave the cache alone. */
  lemma TerminalRunForgotten(book: RunBook, source: Source, p: ChatPayload, frameSeq: Option<int>,
                             frameVersion: Option<int>, view: View, cache: QueryCache, now: int)
    requires Text(p.runId) != ""
    ensures var r := PayloadStep(book, source, Some(p), frameSeq, frameVersion, view, cache, now);
            var runId := Text(p.runId);
            (r.fate.Dropped? ==> r.cache == cache)
            && (r.fate == Delivered(Placed) && IsTerminal(Text(p.state)) ==>
                  runId !in r.book.runSeq && runId !in r.book.runStateVersion && runId !in r.book.runSource)
            && (r.fate != Dropped(OwnedByAgent) && !(r.fate == Delivered(Placed) && IsTerminal(Text(p.state))) ==>
                  runId in r.book.runSource)
  {
    SourcePrecedence(book, source, p, frameSeq, frameVersion);
    var g := FilterPayload(book, source, p, frameSeq, frameVersion);
    if g.drop.None? {
      DeliveryPlacesMessage(g.book, p, view, cache, now);
    }
  }

  /** A payload never touches the bookkeeping of another run, and keeps
      the seen set within its bound. */
  lemma OtherRunsUntouched(book: RunBook, source: Source, payload: Option<ChatPayload>, frameSeq: Option<int>,
                           frameVersion: Option<int>, view: View, cache: QueryCache, now: int, other: string)
    requires payload.Some? ==> other != Text(payload.value.runId)
    ensures var r := PayloadStep(book, source, payload, frameSeq, frameVersion, view, cache, now);
            (other in r.book.runSeq <==> other in book.runSeq)
            && (other in book.runSeq ==> r.book.runSeq[other] == book.runSeq[other])
            && (other in r.book.runStateVersion <==> other in book.runStateVersion)
            && (other in book.runStateVersion ==> r.book.runStateVersion[other] == book.runStateVersion[other])
            && (other in r.book.runSource <==> other in book.runSource)
            && (other in book.runSource ==> r.book.runSource[other] == book.runSource[other])
            && (|book.seen| <= MaxSeenEventKeys ==> |r.book.seen| <= MaxSeenEventKeys)
  {
    if payload.Some? {
      var p := payload.value;
      var g := FilterPayload(book, source, p, frameSeq, frameVersion);
      var runId := Text(p.runId);
      assert other in g.book.runSeq - {runId} <==> other in book.runSeq - {runId};
      assert other in g.book.runStateVersion - {runId} <==> other in book.runStateVersion - {runId};
      assert other in g.book.runSource - {runId} <==> other in book.runSource - {runId};
      if g.drop.None? {
        DeliveryPlacesMessage(g.book, p, view, cache, now);
        var f := ForgetRun(g.book, runId);
        assert other in f.runSeq - {runId} <==> other in g.book.runSeq - {runId};
        assert other in f.runStateVersion - {runId} <==> other in g.book.runStateVersion - {runId};
        assert other in f.runSource - {runId} <==> other in g.book.runSource - {runId};
      }
    }
  }

  /** Once an agent payload has claimed a run, a chat delta for that run
      is dropped, unless the agent payload finished the run. */
  lemma AgentThenChatDeltaDropped(book: RunBook, a: ChatPayload, c: ChatPayload, frameSeq: Option<int>,
                                  frameVersion: Option<int>, view: View, cache: QueryCache, now: int,
                                  chatSeq: Option<int>, chatVersion: Option<int>)
    requires Text(a.runId) != "" && c.runId == a.runId && c.state == Has("delta")
    ensures var first := PayloadStep(book, Agent, Some(a), frameSeq, frameVersion, view, cache, now);
            !(first.fate == Delivered(Placed) && IsTerminal(Text(a.state))) ==>
              PayloadStep(first.book, Chat, Some(c), chatSeq, chatVersion, view, first.cache, now).fate
              == Dropped(OwnedByAgent)
  {
    var first := PayloadStep(book, Agent, Some(a), frameSeq, frameVersion, view, cache, now);
    SourcePrecedence(book, Agent, a, frameSeq, frameVersion);
    TerminalRunForgotten(book, Agent, a, frameSeq, frameVersion, view, cache, now);
    var g := FilterPayload(book, Agent, a, frameSeq, frameVersion);
    if g.drop.None? {
      DeliveryPlacesMessage(g.book, a, view, cache, now);
    }
    if !(first.fate == Delivered(Placed) && IsTerminal(Text(a.state))) {
      assert first.book.runSource[Text(a.runId)] == Agent;
      SourcePrecedence(first.book, Chat, c, chatSeq, chatVersion);
    }
  }

  // ---------------------------------------------------------------------
  // one frame

  /** A server-sent event as `handleStreamEvent` reads it. IgnoredFrame
      covers data that does not parse, a missing event name and every
      other event. A history payload of the wrong shape is None. */
  datatype StreamFrame =
    | HistoryFrame(messages: Option<seq<Message>>)
    | ChatFrame(payload: Option<ChatPayload>, seqNum: Option<int>, stateVersion: Option<int>)
    | AgentFrame(agentPayload: Option<AgentPayload>, seqNum: Option<int>, stateVersion: Option<int>)
    | IgnoredFrame

  /** The bookkeeping and cache after a frame, the payloads handed to
      `onChatEvent` in order, and how many history refreshes it asked for. */
  datatype FrameResult = FrameResult(book: RunBook, cache: QueryCache, delivered: seq<ChatPayload>, refreshes: nat)

  /** A history frame replaces the history on screen. */
  function ReplaceHistory(cache: QueryCache, view: View, messages: seq<Message>): (r: QueryCache)
    ensures var key := HistoryKey(view.activeFriendlyId, view.sessionKeyForHistory);
            MessagesAt(r, key) == messages && key in r.histories && r.histories[key].sessionKey == Has(view.sessionKeyForHistory)
    ensures forall k :: k in cache.histories && k != HistoryKey(view.activeFriendlyId, view.sessionKeyForHistory) ==>
              k in r.histories && r.histories[k] == cache.histories[k]
    ensures r.sessions == cache.sessions
  {
    var key := HistoryKey(view.activeFriendlyId, view.sessionKeyForHistory);
    cache.(histories := cache.histories[key := HistoryData(Has(view.sessionKeyForHistory), Missing, Has(messages))])
  }

  predicate Refreshes(p: ChatPayload) {
    IsTerminal(Text(p.state))
  }

  /** The per-payload loop over a frame's payloads from position i on,
      with the payloads delivered so far and the refreshes asked for so
      far. */
  function PayloadsFrom(book: RunBook, source: Source, payloads: seq<Option<ChatPayload>>, i: nat,
                        frameSeq: Option<int>, frameVersion: Option<int>, view: View, cache: QueryCache, now: int,
                        delivered: seq<ChatPayload>, refreshes: nat): FrameResult
    requires i <= |payloads|
    decreases |payloads| - i
  {
    if i == |payloads| then FrameResult(book, cache, delivered, refreshes)
    else
      var s := PayloadStep(book, source, payloads[i], frameSeq, frameVersion, view, cache, now);
      PayloadsFrom(s.book, source, payloads, i + 1, frameSeq, frameVersion, view, s.cache, now,
                   if s.fate.Delivered? then delivered + [payloads[i].value] else delivered,
                   if s.fate.Delivered? && Refreshes(payloads[i].value) then refreshes + 1 else refreshes)
  }

  /** The loop keeps what was delivered before position i as a prefix,
      adds only payloads from position i on, at most one per payload,
      and at most one refresh per delivery. */
  lemma {:induction false} PayloadsFromShape(book: RunBook, source: Source, payloads: seq<Option<ChatPayload>>, i: nat,
                                             frameSeq: Option<int>, frameVersion: Option<int>, view: View,
                                             cache: QueryCache, now: int, delivered: seq<ChatPayload>, refreshes: nat)
    requires i <= |payloads|
    ensures var r := PayloadsFrom(book, source, payloads, i, frameSeq, frameVersion, view, cache, now, delivered, refreshes);
            DeliveredShape(r, payloads[i..], delivered, refreshes)
    decreases |payloads| - i
  {
    if i < |payloads| {
      var s := PayloadStep(book, source, payloads[i], frameSeq, frameVersion, view, cache, now);
      if s.fate.Delivered? {
        var d := delivered + [payloads[i].value];
        var n := if Refreshes(payloads[i].value) then refreshes + 1 else refreshes;
        PayloadsFromShape(s.book, source, payloads, i + 1, frameSeq, frameVersion, view, s.cache, now, d, n);
        ShapeStep(PayloadsFrom(s.book, source, payloads, i + 1, frameSeq, frameVersion, view, s.cache, now, d, n),
                  payloads[i..], delivered, refreshes, true, n - refreshes);
      } else {
        PayloadsFromShape(s.book, source, payloads, i + 1, frameSeq, frameVersion, view, s.cache, now,
                          delivered, refreshes);
        ShapeStep(PayloadsFrom(s.book, source, payloads, i + 1, frameSeq, frameVersion, view, s.cache, now,
                               delivered, refreshes),
                  payloads[i..], delivered, refreshes, false, 0);
      }
    }
  }

  /** What the loop adds to the deliveries it started with, over the
      payloads it still had to go through. */
  predicate DeliveredShape(r: FrameResult, rest: seq<Option<ChatPayload>>, delivered: seq<ChatPayload>, refreshes: nat) {
    |delivered| <= |r.delivered| <= |delivered| + |rest|
    && r.delivered[..|delivered|] == delivered
    && (forall j :: |delivered| <= j < |r.delivered| ==> Some(r.delivered[j]) in rest)
    && refreshes <= r.refreshes <= refreshes + (|r.delivered| - |delivered|)
  }

  /** The shape carries back over one payload, delivered or not. */
  lemma ShapeStep(r: FrameResult, rest: seq<Option<ChatPayload>>, delivered: seq<ChatPayload>, refreshes: nat,
                  took: bool, extra: nat)
    requires rest != [] && extra <= 1 && (!took ==> extra == 0)
    requires took ==> rest[0].Some?
    requires DeliveredShape(r, rest[1..], if took then delivered + [rest[0].value] else delivered, refreshes + extra)
    ensures DeliveredShape(r, rest, delivered, refreshes)
  {
    var d := if took then delivered + [rest[0].value] else delivered;
    assert r.delivered[..|delivered|] == r.delivered[..|d|][..|delivered|];
    forall j | |delivered| <= j < |r.delivered| ensures Some(r.delivered[j]) in rest {
      if j < |d| {
        assert r.delivered[j] == d[j];
      } else {
        assert Some(r.delivered[j]) in rest[1..];
      }
    }
  }

  /** One turn of the per-payload loop. */
  lemma PayloadsFromStep(book: RunBook, source: Source, payloads: seq<Option<ChatPayload>>, i: nat,
                         frameSeq: Option<int>, frameVersion: Option<int>, view: View, cache: QueryCache, now: int,
                         delivered: seq<ChatPayload>, refreshes: nat)
    requires i < |payloads|
    ensures var s := PayloadStep(book, source, payloads[i], frameSeq, frameVersion, view, cache, now);
            PayloadsFrom(book, source, payloads, i, frameSeq, frameVersion, view, cache, now, delivered, refreshes)
            == PayloadsFrom(s.book, source, payloads, i + 1, frameSeq, frameVersion, view, s.cache, now,
                            if s.fate.Delivered? then delivered + [payloads[i].value] else delivered,
                            if s.fate.Delivered? && Refreshes(payloads[i].value) then refreshes + 1 else refreshes)
  {
  }

  function Lift(payloads: seq<ChatPayload>): (r: seq<Option<ChatPayload>>)
    ensures |r| == |payloads| && forall i :: 0 <= i < |r| ==> r[i] == Some(payloads[i])
  {
    if payloads == [] then [] else [Some(payloads[0])] + Lift(payloads[1..])
  }

  /** `handleStreamEvent` on one frame. */
  function FrameStep(book: RunBook, frame: StreamFrame, view: View, cache: QueryCache, now: int): (r: FrameResult)
    ensures frame.IgnoredFrame? ==> r == FrameResult(book, cache, [], 0)
    ensures frame.HistoryFrame? ==>
              r.book == book && r.delivered == [] && r.refreshes == 0
              && (frame.messages.None? ==> r.cache == cache)
              && (frame.messages.Some? ==> r.cache == ReplaceHistory(cache, view, frame.messages.value))
    ensures frame.ChatFrame? ==> r.delivered == [] || (frame.payload.Some? && r.delivered == [frame.payload.value])
    ensures frame.AgentFrame? ==>
              |r.delivered| <= |ExtractChatPayloads(frame.agentPayload)|
              && forall j :: 0 <= j < |r.delivered| ==> r.delivered[j] in ExtractChatPayloads(frame.agentPayload)
    ensures r.refreshes <= |r.delivered|
  {
    match frame
    case HistoryFrame(messages) =>
      FrameResult(book, if messages.Some? then ReplaceHistory(cache, view, messages.value) else cache, [], 0)
    case ChatFrame(payload, seqNum, stateVersion) =>
      var r := PayloadsFrom(book, Chat, [payload], 0, seqNum, stateVersion, view, cache, now, [], 0);
      PayloadsFromShape(book, Chat, [payload], 0, seqNum, stateVersion, view, cache, now, [], 0);
      assert [payload][0..] == [payload];
      assert r.delivered != [] ==> Some(r.delivered[0]) in [payload] && r.delivered == [r.delivered[0]];
      r
    case AgentFrame(payload, seqNum, stateVersion) =>
      var lifted := Lift(ExtractChatPayloads(payload));
      var r := PayloadsFrom(book, Agent, lifted, 0, seqNum, stateVersion, view, cache, now, [], 0);
      PayloadsFromShape(book, Agent, lifted, 0, seqNum, stateVersion, view, cache, now, [], 0);
      assert lifted[0..] == lifted;
      assert forall j :: 0 <= j < |r.delivered| ==> Some(r.delivered[j]) in lifted;
      r
    case IgnoredFrame => FrameResult(book, cache, [], 0)
  }

  /** Every delivered payload in a terminal state asks for exactly one
      history refresh, and nothing else does. */
  lemma {:induction false} RefreshesCountTerminalDeliveries(
    book: RunBook, source: Source, payloads: seq<Option<ChatPayload>>, i: nat, frameSeq: Option<int>,
    frameVersion: Option<int>, view: View, cache: QueryCache, now: int, delivered: seq<ChatPayload>, refreshes: nat)
    requires i <= |payloads|
    requires refreshes == |Filter(delivered, Refreshes)|
    ensures var r := PayloadsFrom(book, source, payloads, i, frameSeq, frameVersion, view, cache, now, delivered, refreshes);
            r.refreshes == |Filter(r.delivered, Refreshes)|
    decreases |payloads| - i
  {
    if i < |payloads| {
      var s := PayloadStep(book, source, payloads[i], frameSeq, frameVersion, view, cache, now);
      if s.fate.Delivered? {
        FilterAppend(delivered, [payloads[i].value], Refreshes);
        RefreshesCountTerminalDeliveries(s.book, source, payloads, i + 1, frameSeq, frameVersion, view, s.cache, now,
                                         delivered + [payloads[i].value],
                                         if Refreshes(payloads[i].value) then refreshes + 1 else refreshes);
      } else {
        RefreshesCountTerminalDeliveries(s.book, source, payloads, i + 1, frameSeq, frameVersion, view, s.cache, now,
                                         delivered, refreshes);
      }
    }
  }

  /** A frame asks for one refresh per delivered payload in a terminal state. */
  lemma FrameRefreshes(book: RunBook, frame: StreamFrame, view: View, cache: QueryCache, now: int)
    ensures var r := FrameStep(book, frame, view, cache, now);
            r.refreshes == |Filter(r.delivered, Refreshes)|
  {
    match frame {
      case ChatFrame(payload, seqNum, stateVersion) =>
        RefreshesCountTerminalDeliveries(book, Chat, [payload], 0, seqNum, stateVersion, view, cache, now, [], 0);
      case AgentFrame(payload, seqNum, stateVersion) =>
        RefreshesCountTerminalDeliveries(book, Agent, Lift(ExtractChatPayloads(payload)), 0, seqNum, stateVersion,
                                         view, cache, now, [], 0);
      case HistoryFrame(_) =>
      case IgnoredFrame =>
    }
  }

  /** The reconnect delay after the given number of consecutive failures:
      one second per attempt, capped at eight. */
  function ReconnectBackoff(attempt: nat): (delay: nat)
    ensures delay <= 8000
    ensures attempt <= 8 ==> delay == 1000 * attempt
    ensures attempt >= 8 ==> delay == 8000
  {
    if 1000 * attempt < 8000 then 1000 * attempt else 8000
  }

  // ---------------------------------------------------------------------
  // the handler's state

  /** The run bookkeeping of one stream subscription. */
  class StreamRuns {
    var runSeq: map<string, int>
    var runStateVersion: map<string, int>
    var runSource: map<string, Source>
    var seenEventKeys: set<EventKey>

    ghost predicate Valid()
      reads this
    {
      |seenEventKeys| <= MaxSeenEventKeys
    }

    function Snapshot(): RunBook
      reads this
    {
      RunBook(runSeq, runStateVersion, runSource, seenEventKeys)
    }

    constructor()
      ensures Valid() && Snapshot() == EmptyBook
    {
      runSeq := map[];
      runStateVersion := map[];
      runSource := map[];
      seenEventKeys := {};
    }

    /** `shouldSkipDuplicateEvent` on the seen set. */
    method ShouldSkipDuplicateEvent(source: Source, runId: string, state: Field<string>, seqNum: Option<int>)
      returns (skip: bool)
      requires Valid()
      modifies this`seenEventKeys
      ensures Valid()
      ensures (skip, seenEventKeys) == DuplicateCheck(old(seenEventKeys), source, runId, state, seqNum)
    {
      if runId == "" || seqNum.None? {
        return false;
      }
      var key := EventKey(source, runId, Text(state), seqNum.value);
      if key in seenEventKeys {
        return true;
      }
      seenEventKeys := seenEventKeys + {key};
      if |seenEventKeys| > MaxSeenEventKeys {
        seenEventKeys := {};
      }
      return false;
    }

    /** `shouldSkipStaleRunEvent` on the seq and version maps. */
    method ShouldSkipStaleRunEvent(runId: string, seqNum: Option<int>, stateVersion: Option<int>) returns (skip: bool)
      modifies this`runSeq, this`runStateVersion
      ensures (skip, runSeq, runStateVersion) == StaleCheck(old(runSeq), old(runStateVersion), runId, seqNum, stateVersion)
    {
      if runId == "" {
        return false;
      }
      if seqNum.Some? {
        if runId in runSeq && seqNum.value <= runSeq[runId] {
          return true;
        }
        runSeq := runSeq[runId := seqNum.value];
      }
      if stateVersion.Some? {
        if runId in runStateVersion && stateVersion.value < runStateVersion[runId] {
          return true;
        }
        runStateVersion := runStateVersion[runId := stateVersion.value];
      }
      return false;
    }

    /** The ownership, duplicate and staleness filters of one payload. */
    method AdmitPayload(source: Source, p: ChatPayload, frameSeq: Option<int>, frameVersion: Option<int>)
      returns (drop: Option<Drop>)
      requires Valid()
      modifies this
      ensures Valid()
      ensures Gate(Snapshot(), drop) == FilterPayload(old(Snapshot()), source, p, frameSeq, frameVersion)
    {
      var runId := Text(p.runId);
      if runId != "" {
        if source == Chat && runId in runSource && runSource[runId] == Agent && p.state == Has("delta") {
          return Some(OwnedByAgent);
        }
        if source == Agent || runId !in runSource {
          runSource := runSource[runId := source];
        }
      }
      var seqNum := if source == Agent then p.seqNum else frameSeq;
      var duplicate := ShouldSkipDuplicateEvent(source, runId, p.state, seqNum);
      if duplicate {
        return Some(DuplicateEvent);
      }
      var stale := ShouldSkipStaleRunEvent(runId, seqNum, frameVersion);
      drop := if stale then Some(StaleEvent) else None;
    }

    /** The rest of the loop body for a payload that passed the filters. */
    method DeliverPayload(p: ChatPayload, view: View, cache: QueryCache, now: int)
      returns (fate: Fate, result: QueryCache)
      modifies this
      ensures StepResult(Snapshot(), fate, result) == Deliver(old(Snapshot()), p, view, cache, now)
    {
      if !p.message.Has? {
        return Delivered(NoMessage), cache;
      }
      var payloadSessionKey := Text(p.sessionKey);
      if payloadSessionKey != "" && view.resolvedSessionKey != ""
         && payloadSessionKey != view.resolvedSessionKey && payloadSessionKey != view.sessionKeyForHistory {
        return Delivered(OtherSession), cache;
      }
      var runId := Text(p.runId);
      var next := p.message.value.(streamRunId := OrUnset(runId));
      if runId != "" && IsTerminal(Text(p.state)) {
        runSeq := runSeq - {runId};
        runStateVersion := runStateVersion - {runId};
        runSource := runSource - {runId};
      }
      fate := Delivered(Placed);
      result := PlaceStreamMessage(cache, view, payloadSessionKey, next, runId, now);
    }

    /** One iteration of the per-payload loop. */
    method HandlePayload(source: Source, payload: Option<ChatPayload>, frameSeq: Option<int>, frameVersion: Option<int>,
                         view: View, cache: QueryCache, now: int) returns (fate: Fate, result: QueryCache)
      requires Valid()
      modifies this
      ensures Valid()
      ensures StepResult(Snapshot(), fate, result)
              == PayloadStep(old(Snapshot()), source, payload, frameSeq, frameVersion, view, cache, now)
    {
      if payload.None? {
        return NotAPayload, cache;
      }
      var drop := AdmitPayload(source, payload.value, frameSeq, frameVersion);
      if drop.Some? {
        return Dropped(drop.value), cache;
      }
      fate, result := DeliverPayload(payload.value, view, cache, now);
    }

    /** The per-payload loop of `handleStreamEvent`. */
    method HandlePayloads(source: Source, payloads: seq<Option<ChatPayload>>, frameSeq: Option<int>,
                          frameVersion: Option<int>, view: View, cache: QueryCache, now: int)
      returns (result: QueryCache, delivered: seq<ChatPayload>, refreshes: nat)
      requires Valid()
      modifies this
      ensures Valid()
      ensures FrameResult(Snapshot(), result, delivered, refreshes)
              == PayloadsFrom(old(Snapshot()), source, payloads, 0, frameSeq, frameVersion, view, cache, now, [], 0)
    {
      result, delivered, refreshes := cache, [], 0;
      var i := 0;
      while i < |payloads|
        invariant 0 <= i <= |payloads|
        invariant Valid()
        invariant PayloadsFrom(Snapshot(), source, payloads, i, frameSeq, frameVersion, view, result, now, delivered, refreshes)
                  == PayloadsFrom(old(Snapshot()), source, payloads, 0, frameSeq, frameVersion, view, cache, now, [], 0)
      {
        ghost var before := Snapshot();
        var fate, after := HandlePayload(source, payloads[i], frameSeq, frameVersion, view, result, now);
        PayloadsFromStep(before, source, payloads, i, frameSeq, frameVersion, view, result, now, delivered, refreshes);
        if fate.Delivered? {
          delivered := delivered + [payloads[i].value];
          if Refreshes(payloads[i].value) {
            refreshes := refreshes + 1;
          }
        }
        result := after;
        i := i + 1;
      }
    }

    /** `handleStreamEvent` */
    method HandleStreamEvent(frame: StreamFrame, view: View, cache: QueryCache, now: int)
      returns (result: QueryCache, delivered: seq<ChatPayload>, refreshes: nat)
      requires Valid()
      modifies this
      ensures Valid()
      ensures FrameResult(Snapshot(), result, delivered, refreshes) == FrameStep(old(Snapshot()), frame, view, cache, now)
    {
      result, delivered, refreshes := cache, [], 0;
      match frame {
        case HistoryFrame(messages) =>
          if messages.Some? {
            result := ReplaceHistory(cache, view, messages.value);
          }
        case ChatFrame(payload, seqNum, stateVersion) =>
          result, delivered, refreshes := HandlePayloads(Chat, [payload], seqNum, stateVersion, view, cache, now);
        case AgentFrame(agentPayload, seqNum, stateVersion) =>
          var payloads := ExtractChatPayloads(agentPayload);
          if |payloads| == 0 {
            return;
          }
          result, delivered, refreshes := HandlePayloads(Agent, Lift(payloads), seqNum, stateVersion, view, cache, now);
        case IgnoredFrame =>
      }
    }

    /** `stopStream`: forget every run and every seen event. */
    method StopStream()
      modifies this
      ensures Valid() && Snapshot() == EmptyBook
    {
      runSeq := map[];
      runStateVersion := map[];
      runSource := map[];
      seenEventKeys := {};
    }
  }
}
