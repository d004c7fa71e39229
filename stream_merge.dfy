/** How a streamed message is folded into a cached message list: content
    parts merge by identity, and an update lands either on one message
    after the newest user turn or at the end of the list. */
module StreamMerge {
  import opened Base
  import opened Messages
  import opened ChatUtils
  import opened KeyedMerge

  // ---------------------------------------------------------------------
  // Part identity

  /** `partIdentity`. A named tool call is keyed by the string
      `trimmedId:trimmedName` (so, as in the client, two different
      id/name splits of the same string share a key); a tool call with
      neither is keyed by the whole part, standing in for its JSON text. */
  datatype PartKey = TextKey | ThinkingKey | ToolKey(joined: string) | AnonymousToolKey(call: ToolCall) | UnknownKey

  function PartIdentity(p: Part): (k: PartKey)
    ensures p.TextPart? <==> k == TextKey
    ensures p.ThinkingPart? <==> k == ThinkingKey
    ensures (p.ImagePart? || p.OtherPart?) <==> k == UnknownKey
    ensures k.AnonymousToolKey? ==> p == ToolCallPart(k.call)
    ensures p.ToolCallPart? && (Trim(p.call.id) != "" || Trim(p.call.name) != "") ==>
              k == ToolKey(Trim(p.call.id) + ":" + Trim(p.call.name))
    ensures p.ToolCallPart? && Trim(p.call.id) == "" && Trim(p.call.name) == "" ==> k == AnonymousToolKey(p.call)
  {
    match p
    case TextPart(_) => TextKey
    case ThinkingPart(_) => ThinkingKey
    case ToolCallPart(call) =>
      var id := Trim(call.id);
      var name := Trim(call.name);
      if id != "" || name != "" then ToolKey(id + ":" + name) else AnonymousToolKey(call)
    case _ => UnknownKey
  }

  /** The merged content of `parts` taken in order: `upsertPart` applied
      to each part. */
  function MergeParts(parts: seq<Part>): (r: seq<Part>)
    ensures |r| <= |parts|
  {
    MergeBy(parts, PartIdentity)
  }

  /** At most one part per identity, in first-appearance order, each slot
      holding the last part seen with its identity. */
  lemma MergePartsIsMerged(parts: seq<Part>)
    ensures MergedFrom(MergeParts(parts), parts, PartIdentity)
  {
    MergeByIsMerged(parts, PartIdentity);
  }

  /** In particular the merged content holds at most one text part and at
      most one thinking part. */
  lemma MergedHasOneTextAndOneThinking(parts: seq<Part>, i: int, j: int)
    requires 0 <= i < j < |MergeParts(parts)|
    ensures !(MergeParts(parts)[i].TextPart? && MergeParts(parts)[j].TextPart?)
    ensures !(MergeParts(parts)[i].ThinkingPart? && MergeParts(parts)[j].ThinkingPart?)
  {
    MergePartsIsMerged(parts);
    assert PartIdentity(MergeParts(parts)[i]) != PartIdentity(MergeParts(parts)[j]);
  }

  // ---------------------------------------------------------------------
  // Content merge: the client's loops

  lemma MergePartsStep(done: seq<Part>, parts: seq<Part>, n: nat)
    requires n < |parts|
    ensures MergeParts(done + parts[..n + 1]) == Place(MergeParts(done + parts[..n]), PartIdentity, parts[n])
  {
    assert (done + parts[..n + 1])[..|done + parts[..n + 1]| - 1] == done + parts[..n];
  }

  /** `upsertPart`: record a new identity at the end of the key list and
      point the identity at the part. */
  method UpsertPart(orderedKeys: seq<PartKey>, mergedByIdentity: map<PartKey, Part>, part: Part, ghost slots: seq<Part>)
    returns (keys: seq<PartKey>, byIdentity: map<PartKey, Part>)
    requires Tracks(orderedKeys, mergedByIdentity, slots, PartIdentity)
    ensures Tracks(keys, byIdentity, Place(slots, PartIdentity, part), PartIdentity)
  {
    var identity := PartIdentity(part);
    TracksPlace(orderedKeys, mergedByIdentity, slots, PartIdentity, part);
    keys := orderedKeys;
    if identity !in mergedByIdentity {
      keys := keys + [identity];
    }
    byIdentity := mergedByIdentity[identity := part];
  }

  /** The `for` loop of `upsertPart` calls over `parts`, continuing from
      the slots already built for `done`. */
  method UpsertParts(orderedKeys: seq<PartKey>, mergedByIdentity: map<PartKey, Part>, parts: seq<Part>, ghost done: seq<Part>)
    returns (keys: seq<PartKey>, byIdentity: map<PartKey, Part>)
    requires Tracks(orderedKeys, mergedByIdentity, MergeParts(done), PartIdentity)
    ensures Tracks(keys, byIdentity, MergeParts(done + parts), PartIdentity)
  {
    keys, byIdentity := orderedKeys, mergedByIdentity;
    var n := 0;
    assert done + parts[..0] == done;
    while n < |parts|
      invariant 0 <= n <= |parts|
      invariant Tracks(keys, byIdentity, MergeParts(done + parts[..n]), PartIdentity)
    {
      MergePartsStep(done, parts, n);
      keys, byIdentity := UpsertPart(keys, byIdentity, parts[n], MergeParts(done + parts[..n]));
      n := n + 1;
    }
    assert parts[..n] == parts;
  }

  /** `mergeMessageContent`: upsert every previous part, then every next
      part, and read the slots back in key order. */
  method MergeMessageContent(previousContent: seq<Part>, nextContent: seq<Part>) returns (merged: seq<Part>)
    ensures merged == MergeParts(previousContent + nextContent)
    ensures MergedFrom(merged, previousContent + nextContent, PartIdentity)
  {
    var orderedKeys: seq<PartKey> := [];
    var mergedByIdentity: map<PartKey, Part> := map[];
    assert [] + previousContent == previousContent;
    orderedKeys, mergedByIdentity := UpsertParts(orderedKeys, mergedByIdentity, previousContent, []);
    orderedKeys, mergedByIdentity := UpsertParts(orderedKeys, mergedByIdentity, nextContent, previousContent);
    ghost var slots := MergeParts(previousContent + nextContent);
    merged := [];
    var i := 0;
    while i < |orderedKeys|
      invariant 0 <= i <= |orderedKeys|
      invariant merged == slots[..i]
    {
      merged := merged + [mergedByIdentity[orderedKeys[i]]];
      i := i + 1;
    }
    assert slots[..i] == slots;
    MergePartsIsMerged(previousContent + nextContent);
  }

  // ---------------------------------------------------------------------
  // Message merge

  /** `mergeStreamMessage`: with no previous content the update replaces
      the message; otherwise the update's keys win and, when both carry
      content, the content is merged by identity. */
  function MergeStreamMessage(previous: Message, next: Message): (r: Message)
    ensures ContentOf(previous) == [] ==> r == next
    // every key the update carries wins, every other key is kept
    ensures ContentOf(previous) != [] ==> r.(content := Missing) == Spread(previous, next).(content := Missing)
    // previous content survives unless the update carries an empty or undefined content key
    ensures ContentOf(previous) != [] ==> (ContentOf(r) == [] <==> next.content == Unset || next.content == Has([]))
  {
    var previousContent := ContentOf(previous);
    var nextContent := ContentOf(next);
    if previousContent == [] then next
    else if nextContent == [] then Spread(previous, next)
    else
      var items := previousContent + nextContent;
      MergePartsIsMerged(items);
      assert Covers(MergeParts(items), items, PartIdentity);
      assert FirstWith(MergeParts(items), PartIdentity, PartIdentity(items[0])) >= 0;
      Spread(previous, next).(content := Has(MergeParts(previousContent + nextContent)))
  }

  /** When both messages carry content, the merged message keeps every
      other key as the spread does, has one part per identity, keeps
      every identity of both, and holds the newest part of each. */
  lemma MergeStreamMessageContent(previous: Message, next: Message)
    requires ContentOf(previous) != [] && ContentOf(next) != []
    ensures var r := MergeStreamMessage(previous, next);
            r.(content := Missing) == Spread(previous, next).(content := Missing)
            && r.content.Has?
            && MergedFrom(ContentOf(r), ContentOf(previous) + ContentOf(next), PartIdentity)
  {
    MergePartsIsMerged(ContentOf(previous) + ContentOf(next));
  }

  /** An update with an empty content list wipes the previous content:
      the spread lets the present empty array win. */
  lemma EmptyUpdateReplacesContent(previous: Message, next: Message)
    requires ContentOf(previous) != [] && next.content == Has([])
    ensures ContentOf(MergeStreamMessage(previous, next)) == []
  {
  }

  // ---------------------------------------------------------------------
  // Locating the message an update belongs to

  /** The last message carrying role `role`, or -1. */
  function LastRoleIndex(ms: seq<Message>, role: string): (r: int)
    ensures -1 <= r < |ms|
    ensures r >= 0 ==> HasRole(ms[r], role) && forall j :: r < j < |ms| ==> !HasRole(ms[j], role)
    ensures r < 0 ==> forall j :: 0 <= j < |ms| ==> !HasRole(ms[j], role)
  {
    if ms == [] then -1
    else if HasRole(ms[|ms| - 1], role) then |ms| - 1
    else LastRoleIndex(ms[..|ms| - 1], role)
  }

  function FirstWithId(ms: seq<Message>, id: string): (r: int)
    ensures -1 <= r < |ms|
    ensures r >= 0 ==> Norm(ms[r].id) == id && forall j :: 0 <= j < r ==> Norm(ms[j].id) != id
    ensures r < 0 ==> forall j :: 0 <= j < |ms| ==> Norm(ms[j].id) != id
  {
    if ms == [] then -1
    else if Norm(ms[0].id) == id then 0
    else
      var i := FirstWithId(ms[1..], id);
      if i < 0 then -1 else i + 1
  }

  /** A message of the same run, role and tool call as the update. The
      run id is compared untrimmed against the message's trimmed tag. */
  predicate RunMatch(m: Message, target: Message, streamRunId: string) {
    var runId := Norm(m.streamRunId);
    runId != "" && runId == streamRunId
    && Norm(m.role) == Norm(target.role)
    && Norm(m.toolCallId) == Norm(target.toolCallId)
  }

  /** The last index below `n` holding a run match, or -1. */
  function LastRunMatch(ms: seq<Message>, target: Message, streamRunId: string, n: nat): (r: int)
    requires n <= |ms|
    ensures -1 <= r < n
    ensures r >= 0 ==> RunMatch(ms[r], target, streamRunId)
                       && forall j :: r < j < n ==> !RunMatch(ms[j], target, streamRunId)
    ensures r < 0 ==> forall j :: 0 <= j < n ==> !RunMatch(ms[j], target, streamRunId)
  {
    if n == 0 then -1
    else if RunMatch(ms[n - 1], target, streamRunId) then n - 1
    else LastRunMatch(ms, target, streamRunId, n - 1)
  }

  /** `findStreamMessageIndex` */
  function FindStreamMessageIndex(ms: seq<Message>, target: Message, streamRunId: string): (r: int)
    ensures -1 <= r < |ms|
    ensures Norm(target.id) != "" && (exists i :: 0 <= i < |ms| && Norm(ms[i].id) == Norm(target.id)) ==>
              r >= 0 && Norm(ms[r].id) == Norm(target.id) && forall j :: 0 <= j < r ==> Norm(ms[j].id) != Norm(target.id)
    ensures !(Norm(target.id) != "" && exists i :: 0 <= i < |ms| && Norm(ms[i].id) == Norm(target.id)) ==>
              (r >= 0 ==> RunMatch(ms[r], target, streamRunId) && forall j :: r < j < |ms| ==> !RunMatch(ms[j], target, streamRunId))
              && (r < 0 ==> forall j :: 0 <= j < |ms| ==> !RunMatch(ms[j], target, streamRunId))
  {
    var targetId := Norm(target.id);
    var byId := if targetId != "" then FirstWithId(ms, targetId) else -1;
    if byId >= 0 then byId else LastRunMatch(ms, target, streamRunId, |ms|)
  }

  // ---------------------------------------------------------------------
  // upsert

  /** Where `upsert` puts the update: the index of the message it merges
      into, or -1 for an append. */
  function UpsertTarget(ms: seq<Message>, next: Message, streamRunId: string, now: int): (r: int)
    ensures r == -1 || LastRoleIndex(ms, "user") < r < |ms|
    ensures streamRunId != "" && FindStreamMessageIndex(ms, next, streamRunId) >= 0 ==>
              r == (if FindStreamMessageIndex(ms, next, streamRunId) > LastRoleIndex(ms, "user")
                    then FindStreamMessageIndex(ms, next, streamRunId) else -1)
    ensures r >= 0 && !(streamRunId != "" && FindStreamMessageIndex(ms, next, streamRunId) >= 0) ==>
              HasRole(next, "assistant") && r == LastRoleIndex(ms, "assistant")
              && Abs(MessageTimestamp(next, now) - MessageTimestamp(ms[r], now)) <= 15000
    ensures !(streamRunId != "" && FindStreamMessageIndex(ms, next, streamRunId) >= 0)
            && HasRole(next, "assistant") && LastRoleIndex(ms, "assistant") > LastRoleIndex(ms, "user")
            && Abs(MessageTimestamp(next, now) - MessageTimestamp(ms[LastRoleIndex(ms, "assistant")], now)) <= 15000
            ==> r == LastRoleIndex(ms, "assistant")
  {
    var lastUser := LastRoleIndex(ms, "user");
    var byRun := if streamRunId != "" then FindStreamMessageIndex(ms, next, streamRunId) else -1;
    if byRun >= 0 then
      if byRun > lastUser then byRun else -1
    else if HasRole(next, "assistant") then
      var target := LastRoleIndex(ms, "assistant");
      if target >= 0 && target > lastUser
         && Abs(MessageTimestamp(next, now) - MessageTimestamp(ms[target], now)) <= 15000
      then target
      else -1
    else -1
  }

  /** `upsert`, the closure that places a streamed message in a history
      list, with Date.now() passed in as `now`. */
  function Upsert(ms: seq<Message>, next: Message, streamRunId: string, now: int): (r: seq<Message>)
    ensures |r| == |ms| || r == ms + [next]
    ensures |r| == |ms| ==>
              var k := UpsertTarget(ms, next, streamRunId, now);
              LastRoleIndex(ms, "user") < k < |ms|
              && r[k] == MergeStreamMessage(ms[k], next)
              && forall i :: 0 <= i < |ms| && i != k ==> r[i] == ms[i]
    ensures forall i :: 0 <= i <= LastRoleIndex(ms, "user") ==> r[i] == ms[i]
    ensures |r| == |ms| <==> UpsertTarget(ms, next, streamRunId, now) >= 0
  {
    var k := UpsertTarget(ms, next, streamRunId, now);
    if k >= 0 then ms[k := MergeStreamMessage(ms[k], next)] else ms + [next]
  }

  /** When the newest message is a user turn, every update is appended,
      however it matches older messages by id or run. */
  lemma UpsertAfterUserTurnAppends(ms: seq<Message>, user: Message, next: Message, streamRunId: string, now: int)
    requires HasRole(user, "user")
    ensures Upsert(ms + [user], next, streamRunId, now) == ms + [user] + [next]
  {
    assert LastRoleIndex(ms + [user], "user") == |ms|;
  }

  /** The newest user turn never moves towards the front of the list. */
  lemma UpsertKeepsLastUserTurn(ms: seq<Message>, next: Message, streamRunId: string, now: int)
    ensures LastRoleIndex(Upsert(ms, next, streamRunId, now), "user") >= LastRoleIndex(ms, "user")
  {
    var r := Upsert(ms, next, streamRunId, now);
    var u := LastRoleIndex(ms, "user");
    if u >= 0 {
      assert r[u] == ms[u];
      assert HasRole(r[u], "user");
    }
  }
}
