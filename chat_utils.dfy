/** Message and session helpers of the chat screen: friendly ids,
    message text, tool calls, timestamps, session rows and error tests. */
module ChatUtils {
  import opened Base
  import opened Messages

  // ---------------------------------------------------------------------
  // Friendly ids

  /** The part of s after its last ':' (all of s when it has none). */
  function AfterLastColon(s: string): (r: string)
    ensures |r| <= |s| && r == s[|s| - |r|..]
    ensures ':' !in r
    ensures |r| < |s| ==> s[|s| - |r| - 1] == ':'
  {
    if s == [] then []
    else if s[|s| - 1] == ':' then []
    else AfterLastColon(s[..|s| - 1]) + [s[|s| - 1]]
  }

  /** `deriveFriendlyIdFromKey`: 'main' for a missing or blank key,
      otherwise the trimmed last ':'-segment, or the whole trimmed key
      when that segment is blank. */
  function DeriveFriendlyIdFromKey(key: Option<string>): (r: string)
    ensures r != ""
    ensures key.None? || Trim(key.value) == "" ==> r == "main"
    ensures key.Some? && Trim(key.value) != "" ==>
              var tail := Trim(AfterLastColon(Trim(key.value)));
              r == (if tail != "" then tail else Trim(key.value))
    ensures key.Some? && Trim(key.value) != "" && r != Trim(key.value) ==> ':' !in r
  {
    if key.None? || key.value == "" then "main"
    else
      var trimmed := Trim(key.value);
      if |trimmed| == 0 then "main"
      else
        var tailTrimmed := Trim(AfterLastColon(trimmed));
        TrimKeepsOut(AfterLastColon(trimmed), ':');
        if |tailTrimmed| > 0 then tailTrimmed else trimmed
  }

  /** Trimming never introduces a character. */
  lemma TrimKeepsOut(s: string, c: char)
    requires c !in s
    ensures c !in Trim(s)
  {
    var k := TrimIsInfix(s);
    assert forall i :: 0 <= i < |Trim(s)| ==> Trim(s)[i] == s[k + i];
  }

  /** A friendly id derives to itself, so deriving is idempotent. */
  lemma DeriveFriendlyIdIdempotent(key: Option<string>)
    ensures DeriveFriendlyIdFromKey(Some(DeriveFriendlyIdFromKey(key))) == DeriveFriendlyIdFromKey(key)
  {
    if key.None? || Trim(key.value) == "" {
      MainDerivesToItself();
    } else {
      DerivedKeyIsFixed(key.value);
    }
  }

  lemma DerivedKeyIsFixed(k: string)
    requires Trim(k) != ""
    ensures DeriveFriendlyIdFromKey(Some(DeriveFriendlyIdFromKey(Some(k)))) == DeriveFriendlyIdFromKey(Some(k))
  {
    var r := DeriveFriendlyIdFromKey(Some(k));
    var tail := AfterLastColon(Trim(k));
    if Trim(tail) != "" {
      assert r == Trim(tail);
      TrimIdempotent(tail);
      TrimKeepsOut(tail, ':');
      NoColonTail(r);
      assert Trim(r) == r;
      assert AfterLastColon(Trim(r)) == r;
    } else {
      assert r == Trim(k);
      TrimIdempotent(k);
      assert Trim(r) == r;
      assert AfterLastColon(Trim(r)) == tail;
    }
  }

  lemma MainDerivesToItself()
    ensures DeriveFriendlyIdFromKey(Some("main")) == "main"
  {
    MainIsTrimmed();
    MainIsItsOwnTail();
  }

  lemma MainIsItsOwnTail()
    ensures AfterLastColon("main") == "main"
  {
    var m := "main";
    assert m[0] == 'm' && m[1] == 'a' && m[2] == 'i' && m[3] == 'n';
    assert ':' !in m;
    NoColonTail(m);
  }

  lemma MainIsTrimmed()
    ensures Trim("main") == "main"
  {
    assert TrimStart("main") == "main";
  }

  lemma NoColonTail(s: string)
    requires ':' !in s
    ensures AfterLastColon(s) == s
  {
  }

  // ---------------------------------------------------------------------
  // Message text and tool calls

  /** The text of the `text` parts, concatenated, everything else skipped. */
  function JoinedText(parts: seq<Part>): string {
    if parts == [] then ""
    else (if parts[0].TextPart? then parts[0].text else "") + JoinedText(parts[1..])
  }

  lemma {:induction false} JoinedTextAppend(a: seq<Part>, b: seq<Part>)
    ensures JoinedText(a + b) == JoinedText(a) + JoinedText(b)
  {
    if a == [] {
      assert a + b == b;
    } else {
      assert (a + b)[0] == a[0];
      assert (a + b)[1..] == a[1..] + b;
      JoinedTextAppend(a[1..], b);
    }
  }

  /** Parts other than text contribute nothing to the joined text. */
  lemma {:induction false} JoinedTextOnlyText(parts: seq<Part>)
    ensures JoinedText(parts) == JoinedText(Filter(parts, (p: Part) => p.TextPart?))
  {
    if parts != [] {
      JoinedTextOnlyText(parts[1..]);
      if parts[0].TextPart? {
        assert Filter(parts, (p: Part) => p.TextPart?)
            == [parts[0]] + Filter(parts[1..], (p: Part) => p.TextPart?);
        JoinedTextAppend([parts[0]], Filter(parts[1..], (p: Part) => p.TextPart?));
      }
    }
  }

  /** `textFromMessage`: the trimmed concatenation of the text parts. */
  function TextFromMessage(m: Message): (r: string)
    ensures r == Trim(JoinedText(ContentOf(m)))
    ensures r == [] || (!IsSpace(r[0]) && !IsSpace(r[|r| - 1]))
    ensures (forall i :: 0 <= i < |ContentOf(m)| ==> !ContentOf(m)[i].TextPart?) ==> r == ""
  {
    NoTextJoinsEmpty(ContentOf(m));
    Trim(JoinedText(ContentOf(m)))
  }

  lemma {:induction false} NoTextJoinsEmpty(parts: seq<Part>)
    ensures (forall i :: 0 <= i < |parts| ==> !parts[i].TextPart?) ==> JoinedText(parts) == ""
  {
    if parts != [] {
      NoTextJoinsEmpty(parts[1..]);
      assert forall i :: 0 <= i < |parts| - 1 ==> parts[1..][i] == parts[i + 1];
    }
  }

  /** Two messages whose text parts agree have the same text, whatever
      other parts either carries. */
  lemma TextFromMessageIgnoresOtherParts(m: Message, n: Message)
    requires Filter(ContentOf(m), (p: Part) => p.TextPart?) == Filter(ContentOf(n), (p: Part) => p.TextPart?)
    ensures TextFromMessage(m) == TextFromMessage(n)
  {
    JoinedTextOnlyText(ContentOf(m));
    JoinedTextOnlyText(ContentOf(n));
  }

  /** `getToolCallsFromMessage` on the content list: the tool-call parts in order. */
  function ToolCallsOf(parts: seq<Part>): (r: seq<ToolCall>)
    ensures |r| <= |parts|
    ensures forall c :: c in r <==> ToolCallPart(c) in parts
  {
    if parts == [] then []
    else
      var rest := ToolCallsOf(parts[1..]);
      assert forall p :: p in parts <==> p == parts[0] || p in parts[1..];
      if parts[0].ToolCallPart? then [parts[0].call] + rest else rest
  }

  function ToolCallsFromMessage(m: Message): seq<ToolCall> {
    ToolCallsOf(ContentOf(m))
  }

  /** The tool calls of a concatenation are those of each part, in order. */
  lemma {:induction false} ToolCallsAppend(a: seq<Part>, b: seq<Part>)
    ensures ToolCallsOf(a + b) == ToolCallsOf(a) + ToolCallsOf(b)
  {
    if a == [] {
      assert a + b == b;
    } else {
      assert (a + b)[0] == a[0];
      assert (a + b)[1..] == a[1..] + b;
      ToolCallsAppend(a[1..], b);
    }
  }

  // ---------------------------------------------------------------------
  // Timestamps

  const MillisThreshold := 1_000_000_000_000

  /** `normalizeTimestamp`: numbers below 1e12 are taken as seconds and
      scaled to milliseconds; a parsable date string gives its parse;
      anything else gives null. */
  function NormalizeTimestamp(v: Field<Stamp>): (r: Option<int>)
    ensures !v.Has? ==> r.None?
    ensures v.Has? && v.value.Number? && v.value.n < MillisThreshold ==> r == Some(v.value.n * 1000)
    ensures v.Has? && v.value.Number? && v.value.n >= MillisThreshold ==> r == Some(v.value.n)
    ensures v.Has? && v.value.DateText? ==> r == v.value.parsed
  {
    match v
    case Has(Number(n)) => Some(if n < MillisThreshold then n * 1000 else n)
    case Has(DateText(parsed)) => parsed
    case _ => None
  }

  /** A time in seconds and the same time in milliseconds normalise alike. */
  lemma SecondsAndMillisAgree(s: int)
    requires 1_000_000_000 <= s < MillisThreshold
    ensures NormalizeTimestamp(Has(Number(s))) == NormalizeTimestamp(Has(Number(s * 1000)))
  {
  }

  /** The timestamp candidates, in the order the client tries them. */
  function Candidates(m: Message): seq<Field<Stamp>> {
    [m.createdAt, m.createdAtSnake, m.timestamp, m.time, m.ts]
  }

  predicate Usable(v: Field<Stamp>) {
    var t := NormalizeTimestamp(v); t.Some? && t.value != 0
  }

  /** The first candidate from position i on that normalises to a
      non-zero value, or `now`. */
  function FirstStamp(cands: seq<Field<Stamp>>, i: nat, now: int): (r: int)
    requires i <= |cands|
    ensures (forall j :: i <= j < |cands| ==> !Usable(cands[j])) ==> r == now
    ensures forall j :: i <= j < |cands| && Usable(cands[j]) && (forall l :: i <= l < j ==> !Usable(cands[l]))
              ==> r == NormalizeTimestamp(cands[j]).value
    decreases |cands| - i
  {
    if i == |cands| then now
    else if Usable(cands[i]) then NormalizeTimestamp(cands[i]).value
    else FirstStamp(cands, i + 1, now)
  }

  /** `getMessageTimestamp`, with Date.now() passed in as `now`. */
  function MessageTimestamp(m: Message, now: int): (r: int)
    ensures (forall i :: 0 <= i < 5 ==> !Usable(Candidates(m)[i])) ==> r == now
    ensures Usable(m.createdAt) ==> r == NormalizeTimestamp(m.createdAt).value
    ensures !Usable(m.createdAt) && Usable(m.createdAtSnake) ==> r == NormalizeTimestamp(m.createdAtSnake).value
    ensures (!Usable(m.createdAt) && !Usable(m.createdAtSnake) && Usable(m.timestamp))
              ==> r == NormalizeTimestamp(m.timestamp).value
    ensures (!Usable(m.createdAt) && !Usable(m.createdAtSnake) && !Usable(m.timestamp) && Usable(m.time))
              ==> r == NormalizeTimestamp(m.time).value
    ensures (!Usable(m.createdAt) && !Usable(m.createdAtSnake) && !Usable(m.timestamp) && !Usable(m.time)
               && Usable(m.ts))
              ==> r == NormalizeTimestamp(m.ts).value
  {
    var c := Candidates(m);
    assert c[0] == m.createdAt && c[1] == m.createdAtSnake && c[2] == m.timestamp && c[3] == m.time && c[4] == m.ts;
    FirstStamp(Candidates(m), 0, now)
  }

  // ---------------------------------------------------------------------
  // Session rows

  /** A session row as the gateway lists it. */
  datatype SessionRow = SessionRow(
    key: Field<string>, friendlyId: Field<string>,
    title: Field<string>, derivedTitle: Field<string>, labelText: Field<string>,
    updatedAt: Field<int>, lastMessage: Field<Message>,
    totalTokens: Field<int>, contextTokens: Field<int>)

  /** A session as the client keeps it. */
  datatype SessionMeta = SessionMeta(
    key: string, friendlyId: string,
    title: Option<string>, derivedTitle: Option<string>, labelText: Option<string>,
    updatedAt: Option<int>, lastMessage: Option<Message>,
    totalTokens: Option<int>, contextTokens: Option<int>)

  /** One row of `normalizeSessions`. */
  function NormalizeSession(row: SessionRow): (r: SessionMeta)
    ensures r.key != "" && r.friendlyId != ""
    ensures row.key.Has? && Trim(row.key.value) != "" ==> r.key == Trim(row.key.value)
    ensures row.friendlyId.Has? && Trim(row.friendlyId.value) != "" ==> r.friendlyId == Trim(row.friendlyId.value)
    ensures !(row.friendlyId.Has? && Trim(row.friendlyId.value) != "") ==> r.friendlyId == DeriveFriendlyIdFromKey(Some(r.key))
    ensures !(row.key.Has? && Trim(row.key.value) != "") ==>
              r.key == DeriveFriendlyIdFromKey(AsOption(if row.friendlyId.Has? then row.friendlyId else row.key))
    ensures r.title == AsOption(row.title) && r.derivedTitle == AsOption(row.derivedTitle)
    ensures r.labelText == AsOption(row.labelText) && r.updatedAt == AsOption(row.updatedAt)
    ensures r.lastMessage == AsOption(row.lastMessage)
    ensures r.totalTokens == AsOption(row.totalTokens) && r.contextTokens == AsOption(row.contextTokens)
  {
    var key :=
      if row.key.Has? && |Trim(row.key.value)| > 0 then Trim(row.key.value)
      else DeriveFriendlyIdFromKey(AsOption(if row.friendlyId.Has? then row.friendlyId else row.key));
    var friendlyId :=
      if row.friendlyId.Has? && |Trim(row.friendlyId.value)| > 0 then Trim(row.friendlyId.value)
      else DeriveFriendlyIdFromKey(Some(key));
    SessionMeta(key, friendlyId, AsOption(row.title), AsOption(row.derivedTitle), AsOption(row.labelText),
                AsOption(row.updatedAt), AsOption(row.lastMessage), AsOption(row.totalTokens),
                AsOption(row.contextTokens))
  }

  /** `normalizeSessions`: [] for a non-array, otherwise one entry per row. */
  function NormalizeSessions(rows: Option<seq<SessionRow>>): (r: seq<SessionMeta>)
    ensures rows.None? ==> r == []
    ensures rows.Some? ==> |r| == |rows.value|
    ensures rows.Some? ==> forall i :: 0 <= i < |r| ==> r[i] == NormalizeSession(rows.value[i])
    ensures forall i :: 0 <= i < |r| ==> r[i].key != "" && r[i].friendlyId != ""
  {
    if rows.None? then []
    else seq(|rows.value|, i requires 0 <= i < |rows.value| => NormalizeSession(rows.value[i]))
  }

  // ---------------------------------------------------------------------
  // Error classification

  const MissingGatewayAuthMessage: string :=
    "Missing gateway auth. Set CLAWDBOT_GATEWAY_TOKEN (recommended) or CLAWDBOT_GATEWAY_PASSWORD in the server environment."

  /** `isMissingGatewayAuth`: the message embeds the missing-auth text. */
  predicate IsMissingGatewayAuth(message: string) {
    Contains(message, MissingGatewayAuthMessage)
  }

  lemma ContainsItself(s: string)
    ensures Contains(s, s)
  {
    assert s[..|s|] == s;
  }

  /** `sub` occurs in `s` starting at offset `k`. */
  predicate OccursAt(s: string, sub: string, k: nat) {
    k + |sub| <= |s| && s[k..k + |sub|] == sub
  }

  /** A message is a missing-auth error exactly when the missing-auth
      text occurs in it at some offset, whatever surrounds it. */
  lemma MissingGatewayAuthIffEmbedded(message: string)
    ensures IsMissingGatewayAuth(message) <==> exists k: nat :: OccursAt(message, MissingGatewayAuthMessage, k)
  {
    ContainsIffInfix(message, MissingGatewayAuthMessage);
  }

  /** `includes` finds exactly the infixes of a string. */
  lemma {:induction false} ContainsIffInfix(s: string, sub: string)
    ensures Contains(s, sub) <==> exists k: nat :: OccursAt(s, sub, k)
    decreases |s|
  {
    if Contains(s, sub) {
      if StartsWith(s, sub) {
        assert OccursAt(s, sub, 0);
      } else {
        ContainsIffInfix(s[1..], sub);
        var k: nat :| OccursAt(s[1..], sub, k);
        assert s[k + 1..k + 1 + |sub|] == s[1..][k..k + |sub|];
        assert OccursAt(s, sub, k + 1);
      }
    }
    if exists k: nat :: OccursAt(s, sub, k) {
      var k: nat :| OccursAt(s, sub, k);
      InfixContains(s, sub, k);
    }
  }

  /** The configuration error raised for missing credentials is recognised
      as a missing-auth error. */
  lemma MissingAuthMessageRecognised()
    ensures IsMissingGatewayAuth(MissingGatewayAuthMessage)
  {
    ContainsItself(MissingGatewayAuthMessage);
  }

  /** `isSessionNotFound`: false for '', otherwise a case-insensitive
      match on the gateway's "no such session" wordings. */
  function IsSessionNotFound(message: string): (r: bool)
    ensures message == "" ==> !r
    ensures r ==> Contains(ToLower(message), "not found") || Contains(ToLower(message), "unknown session")
  {
    if message == "" then false
    else
      var normalized := ToLower(message);
      if Contains(normalized, "session not found") then
        assert "session not found"[8..17] == "not found";
        SubContains(normalized, "session not found", "not found", 8);
        true
      else if Contains(normalized, "unknown session") then true
      else if Contains(normalized, "chat not found") then
        assert "chat not found"[5..14] == "not found";
        SubContains(normalized, "chat not found", "not found", 5);
        true
      else Contains(normalized, "not found") && Contains(normalized, "session")
  }

  /** A string containing `big` contains every infix of `big`. */
  lemma {:induction false} SubContains(s: string, big: string, small: string, k: nat)
    requires k + |small| <= |big| && big[k..k + |small|] == small
    requires Contains(s, big)
    ensures Contains(s, small)
    decreases |s|
  {
    if StartsWith(s, big) {
      InfixContains(s, small, k);
    } else {
      SubContains(s[1..], big, small, k);
    }
  }

  lemma {:induction false} InfixContains(s: string, small: string, k: nat)
    requires k + |small| <= |s| && s[k..k + |small|] == small
    ensures Contains(s, small)
    decreases k
  {
    if k > 0 {
      assert s[1..][k - 1..k - 1 + |small|] == small;
      InfixContains(s[1..], small, k - 1);
    }
  }

  lemma {:induction false} ToLowerIdempotent(s: string)
    ensures ToLower(ToLower(s)) == ToLower(s)
  {
    if s != [] {
      ToLowerIdempotent(s[1..]);
      assert ToLower(s)[1..] == ToLower(s[1..]);
    }
  }

  /** Case does not matter: lower-casing the message first changes nothing. */
  lemma SessionNotFoundIgnoresCase(message: string)
    ensures IsSessionNotFound(ToLower(message)) == IsSessionNotFound(message)
  {
    ToLowerIdempotent(message);
  }
}
