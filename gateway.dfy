/** The server side of the gateway connection: configuration from the
    environment, a client that correlates requests with responses over
    one socket, a pool that shares clients by key with reference
    counts, and the one-shot response waiter. The socket is abstract:
    frames the client sends are recorded, frames it receives and the
    socket's close and error events are method calls. Request ids, which
    the source draws from randomUUID, are parameters. */
module Gateway {
  import opened Base

  const DefaultUrl := "ws://127.0.0.1:18789"
  const ClosedMessage := "Gateway client closed"
  const DefaultErrorMessage := "gateway error"

  // Configuration

  datatype GatewayConfig = GatewayConfig(url: string, token: string, password: string)

  /** `process.env.NAME?.trim() || ''` */
  function EnvValue(v: Option<string>): string {
    if v.Some? then Trim(v.value) else ""
  }

  /** `getGatewayConfig`: None where it throws for missing auth. */
  function GetGatewayConfig(urlEnv: Option<string>, tokenEnv: Option<string>, passwordEnv: Option<string>)
    : (r: Option<GatewayConfig>)
    ensures r.Some? ==> r.value.url != "" && r.value.token == EnvValue(tokenEnv)
                        && r.value.password == EnvValue(passwordEnv)
    ensures r.Some? && EnvValue(urlEnv) != "" ==> r.value.url == EnvValue(urlEnv)
  {
    var url := if EnvValue(urlEnv) != "" then EnvValue(urlEnv) else DefaultUrl;
    var token := EnvValue(tokenEnv);
    var password := EnvValue(passwordEnv);
    if token == "" && password == "" then None else Some(GatewayConfig(url, token, password))
  }

  predicate Blank(v: Option<string>) {
    v.None? || AllSpace(v.value)
  }

  /** The configuration fails exactly when neither a token nor a
      password with a non-space character is set; the URL falls back to
      the local default when unset or blank. */
  lemma ConfigFailsIffNoCredentials(urlEnv: Option<string>, tokenEnv: Option<string>, passwordEnv: Option<string>)
    ensures GetGatewayConfig(urlEnv, tokenEnv, passwordEnv).None? <==> Blank(tokenEnv) && Blank(passwordEnv)
    ensures Blank(urlEnv) && GetGatewayConfig(urlEnv, tokenEnv, passwordEnv).Some?
            ==> GetGatewayConfig(urlEnv, tokenEnv, passwordEnv).value.url == DefaultUrl
  {
    if tokenEnv.Some? {
      TrimEmptyIffBlank(tokenEnv.value);
    }
    if passwordEnv.Some? {
      TrimEmptyIffBlank(passwordEnv.value);
    }
    if urlEnv.Some? {
      TrimEmptyIffBlank(urlEnv.value);
    }
  }

  // Frames and request correlation

  /** A parsed frame; payloads stand as their JSON text. A message that
      does not parse is `Unparsable`. */
  datatype Frame =
    | ReqFrame(id: string, rpcMethod: string)
    | ResFrame(id: string, ok: bool, payload: string, errorMessage: Option<string>)
    | EventFrame(event: string, payload: string)
    | Unparsable

  /** How a waiter's promise settles. */
  datatype Outcome = Resolved(value: string) | Rejected(message: string)

  /** `parsed.ok ? resolve(payload) : reject(error?.message ?? 'gateway error')` */
  function OutcomeOf(f: Frame): Outcome
    requires f.ResFrame?
  {
    if f.ok then Resolved(f.payload)
    else Rejected(if f.errorMessage.Some? then f.errorMessage.value else DefaultErrorMessage)
  }

  /** Pending waiters by request id, and the outcome of each settled one. */
  datatype Waiters = Waiters(pending: set<string>, settled: map<string, Outcome>)

  /** No request is both pending and settled. */
  predicate Disjoint(w: Waiters) {
    w.pending !! w.settled.Keys
  }

  /** A received frame: a response for a pending id removes that waiter
      and settles it; every other frame leaves the waiters alone. */
  function Correlate(w: Waiters, f: Frame): (r: Waiters)
    ensures Disjoint(w) ==> Disjoint(r)
    ensures !f.ResFrame? || f.id !in w.pending ==> r == w
    ensures f.ResFrame? && f.id in w.pending
            ==> r.pending == w.pending - {f.id} && r.settled == w.settled[f.id := OutcomeOf(f)]
  {
    if f.ResFrame? && f.id in w.pending then Waiters(w.pending - {f.id}, w.settled[f.id := OutcomeOf(f)])
    else w
  }

  /** Each waiter settles at most once: a response settles an id that was
      not settled before, and a second response for it changes nothing. */
  lemma SettlesAtMostOnce(w: Waiters, f: Frame, g: Frame)
    requires Disjoint(w) && f.ResFrame? && f.id in w.pending && g.ResFrame? && g.id == f.id
    ensures f.id !in w.settled
    ensures Correlate(Correlate(w, f), g) == Correlate(w, f)
  {
  }

  /** A rejection with `message` for each of `ids`. */
  function Rejections(ids: set<string>, message: string): map<string, Outcome> {
    map id | id in ids :: Rejected(message)
  }

  /** Every pending waiter rejected with `message`. */
  function RejectedAll(w: Waiters, message: string): (r: Waiters)
    ensures r.pending == {} && w.settled.Keys + w.pending == r.settled.Keys
    ensures forall id :: id in w.pending ==> r.settled[id] == Rejected(message)
    ensures forall id :: id in w.settled && id !in w.pending ==> r.settled[id] == w.settled[id]
  {
    Waiters({}, w.settled + Rejections(w.pending, message))
  }

  /** One more rejection settles one more id. */
  lemma RejectionsStep(base: map<string, Outcome>, done: set<string>, id: string, message: string)
    ensures base + Rejections(done + {id}, message) == (base + Rejections(done, message))[id := Rejected(message)]
  {
  }

  /** The loop step of `rejectAll`: taking one id out of the pending set
      adds its rejection. */
  lemma RejectOne(base: map<string, Outcome>, all: set<string>, pending: set<string>, id: string, message: string)
    requires id in pending && pending <= all
    ensures base + Rejections(all - (pending - {id}), message)
            == (base + Rejections(all - pending, message))[id := Rejected(message)]
  {
    assert all - (pending - {id}) == (all - pending) + {id};
    RejectionsStep(base, all - pending, id, message);
  }

  /** `createGatewayWaiter`: the waiters of one handshake. */
  class ResponseWaiter {
    var waiters: Waiters

    constructor()
      ensures waiters == Waiters({}, map[])
    {
      waiters := Waiters({}, map[]);
    }

    /** `waitForRes`, for an id not already in use. */
    method WaitForRes(id: string)
      requires id !in waiters.pending && id !in waiters.settled
      modifies this
      ensures waiters == Waiters(old(waiters.pending) + {id}, old(waiters.settled))
    {
      waiters := Waiters(waiters.pending + {id}, waiters.settled);
    }

    /** `handleMessage`: only responses matter. */
    method HandleMessage(f: Frame)
      modifies this
      ensures waiters == Correlate(old(waiters), f)
    {
      if !f.ResFrame? {
        return;
      }
      if f.id !in waiters.pending {
        return;
      }
      var outcome := if f.ok then Resolved(f.payload)
                     else Rejected(if f.errorMessage.Some? then f.errorMessage.value else DefaultErrorMessage);
      waiters := Waiters(waiters.pending - {f.id}, waiters.settled[f.id := outcome]);
    }
  }

  // The shared client

  /** An event handed to the `onEvent` handler with the given id. */
  datatype Delivery = Delivery(handler: nat, event: Frame)

  /** The client's state. `connectIds` are the handshake requests sent,
      `listening` says whether its socket listeners are attached,
      handlers are identified by number, `errorsReported` lists the
      handlers socket errors were passed to. */
  datatype ClientState = ClientState(
    closed: bool,
    connected: bool,
    listening: bool,
    connectIds: set<string>,
    waiters: Waiters,
    sent: seq<Frame>,
    delivered: seq<Delivery>,
    errorsReported: seq<nat>,
    onEvent: Option<nat>,
    onError: Option<nat>)

  const NewClient := ClientState(false, false, true, {}, Waiters({}, map[]), [], [], [], None, None)

  /** What holds in every reachable client state: no waiter is both
      pending and settled; a closed client has no pending waiter; the
      listeners are only detached once closed; and the client is
      connected only once one of its handshakes resolved. */
  predicate ClientValid(s: ClientState) {
    Disjoint(s.waiters)
    && (s.closed ==> s.waiters.pending == {})
    && (!s.listening ==> s.closed)
    && (s.connected ==> exists id :: id in s.connectIds && id in s.waiters.settled && s.waiters.settled[id].Resolved?)
  }

  /** `handleMessage`, once the socket delivers a frame. */
  function Received(s: ClientState, f: Frame): ClientState {
    if !s.listening then s
    else match f
      case EventFrame(_, _) =>
        if s.onEvent.Some? then s.(delivered := s.delivered + [Delivery(s.onEvent.value, f)]) else s
      case ResFrame(id, ok, _, _) =>
        var handshake := id in s.waiters.pending && id in s.connectIds && ok;
        s.(waiters := Correlate(s.waiters, f), connected := s.connected || handshake)
      case _ => s
  }

  /** `handleError` */
  function ErrorReported(s: ClientState): ClientState {
    if s.listening && s.onError.Some? then s.(errorsReported := s.errorsReported + [s.onError.value]) else s
  }

  /** `handleClose`: the socket closed under the client. */
  function TransportClosed(s: ClientState): ClientState {
    if !s.listening || s.closed then s
    else s.(closed := true, waiters := RejectedAll(s.waiters, ClosedMessage))
  }

  /** `close` */
  function Closed(s: ClientState): ClientState {
    if s.closed then s
    else s.(closed := true, listening := false, waiters := RejectedAll(s.waiters, ClosedMessage))
  }

  /** What `sendReq` returns at once: a pending request or a rejection. */
  datatype Reply = Pending(id: string) | RejectedNow(message: string)

  /** `sendReq` with the request id passed in. */
  function SentReq(s: ClientState, rpcMethod: string, id: string): (ClientState, Reply) {
    if s.closed then (s, RejectedNow(ClosedMessage))
    else (s.(waiters := Waiters(s.waiters.pending + {id}, s.waiters.settled), sent := s.sent + [ReqFrame(id, rpcMethod)]),
          Pending(id))
  }

  /** `connect` up to the wait for the handshake response. */
  function ConnectStarted(s: ClientState, connectId: string): ClientState {
    if s.connected || s.closed then s
    else s.(waiters := Waiters(s.waiters.pending + {connectId}, s.waiters.settled),
            sent := s.sent + [ReqFrame(connectId, "connect")],
            connectIds := s.connectIds + {connectId})
  }

  /** An id not used by any request so far. */
  predicate FreshId(s: ClientState, id: string) {
    id !in s.waiters.pending && id !in s.waiters.settled
  }

  lemma ReceivedKeepsValid(s: ClientState, f: Frame)
    requires ClientValid(s)
    ensures ClientValid(Received(s, f))
  {
    if s.listening && f.ResFrame? && f.id in s.waiters.pending && f.id in s.connectIds && f.ok {
      assert Received(s, f).waiters.settled[f.id].Resolved?;
    } else if s.listening && f.ResFrame? && s.connected {
      var id :| id in s.connectIds && id in s.waiters.settled && s.waiters.settled[id].Resolved?;
      assert id in Received(s, f).waiters.settled && Received(s, f).waiters.settled[id].Resolved?;
    }
  }

  lemma ClosingKeepsValid(s: ClientState)
    requires ClientValid(s)
    ensures ClientValid(TransportClosed(s)) && ClientValid(Closed(s)) && ClientValid(ErrorReported(s))
  {
    if s.connected && !s.closed {
      var id :| id in s.connectIds && id in s.waiters.settled && s.waiters.settled[id].Resolved?;
      assert id !in s.waiters.pending;
      assert Closed(s).waiters.settled[id].Resolved?;
      if s.listening {
        assert TransportClosed(s).waiters.settled[id].Resolved?;
      }
    }
  }

  lemma SendingKeepsValid(s: ClientState, rpcMethod: string, id: string)
    requires ClientValid(s) && FreshId(s, id)
    ensures ClientValid(SentReq(s, rpcMethod, id).0) && ClientValid(ConnectStarted(s, id))
  {
  }

  /** A response for an id nobody waits for, and any frame that is not a
      response, leaves the waiters as they were; events reach only the
      `onEvent` handler. */
  lemma OnlyKnownResponsesSettle(s: ClientState, f: Frame)
    requires !f.ResFrame? || f.id !in s.waiters.pending
    ensures Received(s, f).waiters == s.waiters && Received(s, f).connected == s.connected
    ensures !f.EventFrame? ==> Received(s, f) == s
  {
  }

  /** A response for a pending id removes its waiter before settling it
      with the response's outcome. */
  lemma KnownResponseSettles(s: ClientState, f: Frame)
    requires ClientValid(s) && s.listening && f.ResFrame? && f.id in s.waiters.pending
    ensures var r := Received(s, f).waiters;
            f.id !in s.waiters.settled && f.id !in r.pending && r.settled == s.waiters.settled[f.id := OutcomeOf(f)]
  {
  }

  /** Closing rejects every pending waiter with the closed message and
      keeps earlier outcomes; either close path after the other is a
      no-op. */
  lemma CloseRejectsEveryWaiter(s: ClientState)
    requires ClientValid(s) && !s.closed
    ensures var c := Closed(s);
            c.closed && !c.listening && c.waiters.pending == {}
            && (forall id :: id in s.waiters.pending ==> c.waiters.settled[id] == Rejected(ClosedMessage))
            && (forall id :: id in s.waiters.settled ==> c.waiters.settled[id] == s.waiters.settled[id])
    ensures Closed(Closed(s)) == Closed(s) && TransportClosed(Closed(s)) == Closed(s)
    ensures Closed(TransportClosed(s)) == TransportClosed(s) && TransportClosed(TransportClosed(s)) == TransportClosed(s)
  {
  }

  /** `sendReq` on a closed client registers nothing and sends nothing;
      on an open one it registers exactly one waiter, under its id. */
  lemma SendRegistersOneWaiter(s: ClientState, rpcMethod: string, id: string)
    requires FreshId(s, id)
    ensures var (t, reply) := SentReq(s, rpcMethod, id);
            (s.closed ==> t == s && reply == RejectedNow(ClosedMessage))
            && (!s.closed ==> reply == Pending(id) && t.waiters.pending == s.waiters.pending + {id}
                              && |t.waiters.pending| == |s.waiters.pending| + 1
                              && t.waiters.settled == s.waiters.settled && t.sent == s.sent + [ReqFrame(id, rpcMethod)])
  {
  }

  /** `connect` does nothing on a connected or closed client, and
      starting it never marks the client connected. */
  lemma ConnectOnlyOnce(s: ClientState, connectId: string)
    ensures s.connected || s.closed ==> ConnectStarted(s, connectId) == s
    ensures ConnectStarted(s, connectId).connected == s.connected
  {
  }

  /** `createGatewayClient` and the functions it returns. */
  class GatewayClient {
    var closed: bool
    var connected: bool
    var listening: bool
    var connectIds: set<string>
    var waiters: Waiters
    var sent: seq<Frame>
    var delivered: seq<Delivery>
    var errorsReported: seq<nat>
    var onEvent: Option<nat>
    var onError: Option<nat>

    function State(): ClientState
      reads this
    {
      ClientState(closed, connected, listening, connectIds, waiters, sent, delivered, errorsReported, onEvent, onError)
    }

    constructor()
      ensures State() == NewClient && ClientValid(State())
    {
      closed := false;
      connected := false;
      listening := true;
      connectIds := {};
      waiters := Waiters({}, map[]);
      sent := [];
      delivered := [];
      errorsReported := [];
      onEvent := None;
      onError := None;
    }

    /** `rejectAll`: one rejection per pending waiter, then the map is cleared. */
    method RejectAll(message: string)
      modifies this`waiters
      ensures waiters == RejectedAll(old(waiters), message)
    {
      ghost var all := waiters.pending;
      var pending := waiters.pending;
      var settled := waiters.settled;
      assert all - pending == {};
      while pending != {}
        invariant pending <= all
        invariant settled == old(waiters.settled) + Rejections(all - pending, message)
        decreases |pending|
      {
        var id :| id in pending;
        RejectOne(old(waiters.settled), all, pending, id, message);
        settled := settled[id := Rejected(message)];
        pending := pending - {id};
      }
      assert all - pending == all;
      waiters := Waiters({}, settled);
    }

    /** The socket delivers a message. */
    method HandleMessage(f: Frame)
      modifies this
      ensures State() == Received(old(State()), f)
    {
      if !listening {
        return;
      }
      if f.EventFrame? {
        if onEvent.Some? {
          delivered := delivered + [Delivery(onEvent.value, f)];
        }
        return;
      }
      if !f.ResFrame? {
        return;
      }
      if f.id !in waiters.pending {
        return;
      }
      var isHandshake := f.id in connectIds;
      waiters := Waiters(waiters.pending - {f.id}, waiters.settled[f.id := OutcomeOf(f)]);
      if isHandshake && f.ok {
        connected := true;
      }
    }

    /** The socket reports an error. */
    method HandleError()
      modifies this
      ensures State() == ErrorReported(old(State()))
    {
      if listening && onError.Some? {
        errorsReported := errorsReported + [onError.value];
      }
    }

    /** The socket closes. */
    method HandleClose()
      modifies this
      ensures State() == TransportClosed(old(State()))
    {
      if !listening || closed {
        return;
      }
      closed := true;
      RejectAll(ClosedMessage);
    }

    /** `connect`, with the handshake request id passed in; the client
      becomes connected when that request's response resolves. */
    method Connect(connectId: string)
      requires FreshId(State(), connectId)
      modifies this
      ensures State() == ConnectStarted(old(State()), connectId)
    {
      if connected || closed {
        return;
      }
      waiters := Waiters(waiters.pending + {connectId}, waiters.settled);
      connectIds := connectIds + {connectId};
      sent := sent + [ReqFrame(connectId, "connect")];
    }

    /** `sendReq`, with the request id passed in. */
    method SendReq(rpcMethod: string, id: string) returns (reply: Reply)
      requires FreshId(State(), id)
      modifies this
      ensures (State(), reply) == SentReq(old(State()), rpcMethod, id)
    {
      if closed {
        return RejectedNow(ClosedMessage);
      }
      waiters := Waiters(waiters.pending + {id}, waiters.settled);
      sent := sent + [ReqFrame(id, rpcMethod)];
      return Pending(id);
    }

    /** `close` */
    method Close()
      modifies this
      ensures State() == Closed(old(State()))
    {
      if closed {
        return;
      }
      closed := true;
      listening := false;
      RejectAll(ClosedMessage);
    }

    method SetOnEvent(handler: Option<nat>)
      modifies this`onEvent
      ensures onEvent == handler
    {
      onEvent := handler;
    }

    method SetOnError(handler: Option<nat>)
      modifies this`onError
      ensures onError == handler
    {
      onError := handler;
    }

    function IsClosed(): bool
      reads this
    {
      closed
    }
  }

  // The client pool

  /** A pool entry: the reference count and the shared client. */
  datatype Entry = Entry(refs: int, client: GatewayClient)

  /** The reference counts after `acquire`: an open entry gains a
      reference, anything else is replaced by a new entry with one. */
  function RefsAfterAcquire(refs: map<string, int>, key: string, reusable: bool): map<string, int> {
    if key in refs && reusable then refs[key := refs[key] + 1] else refs[key := 1]
  }

  /** The reference counts after `release`: an absent key is left alone;
      otherwise the count drops and the entry goes when it reaches zero. */
  function RefsAfterRelease(refs: map<string, int>, key: string): map<string, int> {
    if key !in refs then refs
    else if refs[key] - 1 > 0 then refs[key := refs[key] - 1]
    else refs - {key}
  }

  /** Every entry holds at least one reference. */
  predicate Positive(refs: map<string, int>) {
    forall k :: k in refs ==> refs[k] >= 1
  }

  lemma PoolKeepsPositive(refs: map<string, int>, key: string, reusable: bool)
    requires Positive(refs)
    ensures Positive(RefsAfterAcquire(refs, key, reusable)) && Positive(RefsAfterRelease(refs, key))
  {
  }

  /** Releasing what was just acquired restores the counts when the
      entry was reused; a fresh entry released once is gone again. */
  lemma AcquireThenRelease(refs: map<string, int>, key: string, reusable: bool)
    requires Positive(refs)
    ensures key in refs && reusable ==> RefsAfterRelease(RefsAfterAcquire(refs, key, reusable), key) == refs
    ensures !(key in refs && reusable) ==> RefsAfterRelease(RefsAfterAcquire(refs, key, reusable), key) == refs - {key}
  {
    var a := RefsAfterAcquire(refs, key, reusable);
    if key in refs && reusable {
      assert RefsAfterRelease(a, key) == refs;
    }
  }

  /** `n` acquisitions of a fresh key need `n` releases: after fewer the
      entry is still there. */
  lemma {:induction false} ReleasesBeforeLast(refs: map<string, int>, key: string, n: nat)
    requires key in refs && refs[key] == n + 1
    ensures var r := RefsAfterRelease(refs, key);
            (n > 0 ==> key in r && r[key] == n) && (n == 0 ==> key !in r)
  {
  }

  /** The reference count of each key. */
  function RefsOf(entries: map<string, Entry>): map<string, int> {
    map k | k in entries :: entries[k].refs
  }

  lemma RefsOfUpdate(entries: map<string, Entry>, key: string, e: Entry)
    ensures RefsOf(entries[key := e]) == RefsOf(entries)[key := e.refs]
  {
  }

  lemma RefsOfRemove(entries: map<string, Entry>, key: string)
    ensures RefsOf(entries - {key}) == RefsOf(entries) - {key}
  {
  }

  /** A new client with the given handlers whose handshake request is
      sent and pending. */
  function Handshaking(onEvent: Option<nat>, onError: Option<nat>, connectId: string): ClientState {
    NewClient.(onEvent := onEvent, onError := onError,
               waiters := Waiters({connectId}, map[]), connectIds := {connectId},
               sent := [ReqFrame(connectId, "connect")])
  }

  /** The new-client path of `acquireGatewayClient`: create a client,
      install the handlers given, and start its handshake. */
  method OpenClient(onEvent: Option<nat>, onError: Option<nat>, connectId: string) returns (client: GatewayClient)
    ensures fresh(client)
    ensures client.State() == Handshaking(onEvent, onError, connectId)
    ensures ClientValid(client.State())
  {
    client := new GatewayClient();
    if onEvent.Some? {
      client.SetOnEvent(onEvent);
    }
    if onError.Some? {
      client.SetOnError(onError);
    }
    client.Connect(connectId);
  }

  /** A reused client's state after `acquire` hands it new handlers:
      each handler given replaces the old one, nothing else changes. */
  function WithHandlers(s: ClientState, onEvent: Option<nat>, onError: Option<nat>): (r: ClientState)
    ensures r.onEvent == (if onEvent.Some? then onEvent else s.onEvent)
    ensures r.onError == (if onError.Some? then onError else s.onError)
    ensures r.(onEvent := s.onEvent, onError := s.onError) == s
    ensures ClientValid(s) ==> ClientValid(r)
  {
    s.(onEvent := if onEvent.Some? then onEvent else s.onEvent,
       onError := if onError.Some? then onError else s.onError)
  }

  /** `sharedGatewayClients` */
  class GatewayPool {
    var entries: map<string, Entry>

    constructor()
      ensures entries == map[] && Distinct()
    {
      entries := map[];
    }

    /** Each key holds its own client: the pool only ever installs a
        client it has just created or the one already under that key. */
    predicate Distinct()
      reads this
    {
      forall k1, k2 :: k1 in entries && k2 in entries && k1 != k2 ==> entries[k1].client != entries[k2].client
    }

    function Refs(): map<string, int>
      reads this
    {
      RefsOf(entries)
    }

    /** `acquireGatewayClient`, with the handshake id of a new client
        passed in and `config` the outcome of `GetGatewayConfig` that a new
        client reads first. When that fails no client is made, the call
        yields None, and the pool is left as it was. The entry is
        installed as soon as the handshake is sent. */
    method Acquire(key: string, onEvent: Option<nat>, onError: Option<nat>, config: Option<GatewayConfig>,
                   connectId: string)
      returns (client: Option<GatewayClient>)
      requires Distinct()
      modifies this, if key in entries then {entries[key].client} else {}
      ensures Distinct()
      ensures var reusable := key in old(entries) && !old(entries[key].client.closed);
              (reusable ==> client == Some(old(entries[key].client))
                            && client.value.State() == WithHandlers(old(entries[key].client.State()), onEvent, onError)
                            && Refs() == RefsAfterAcquire(old(Refs()), key, true))
              && (!reusable && config.None? ==> client.None? && entries == old(entries))
              && (!reusable && config.Some? ==>
                    client.Some? && fresh(client.value)
                    && client.value.State() == Handshaking(onEvent, onError, connectId)
                    && ClientValid(client.value.State())
                    && Refs() == RefsAfterAcquire(old(Refs()), key, false))
              && (client.Some? ==> key in entries && entries[key].client == client.value)
      ensures key in old(entries) && old(entries[key].client.closed) ==>
                old(entries[key].client).State() == old(entries[key].client.State())
      ensures forall k :: k in entries && k != key ==>
                k in old(entries) && entries[k] == old(entries[k])
                && entries[k].client.State() == old(entries[k].client.State())
    {
      if key in entries && !entries[key].client.IsClosed() {
        var reused := Reuse(key, onEvent, onError);
        client := Some(reused);
      } else if config.None? {
        client := None;
      } else {
        var made := OpenClient(onEvent, onError, connectId);
        Install(key, made);
        client := Some(made);
      }
    }

    /** The reuse path of `acquire`: one more reference, and the handlers
        given replace the client's own. */
    method Reuse(key: string, onEvent: Option<nat>, onError: Option<nat>) returns (client: GatewayClient)
      requires Distinct() && key in entries
      modifies this, entries[key].client
      ensures Distinct()
      ensures client == old(entries[key].client)
      ensures entries == old(entries)[key := Entry(old(entries[key].refs) + 1, client)]
      ensures Refs() == old(Refs())[key := old(entries[key].refs) + 1]
      ensures client.State() == WithHandlers(old(client.State()), onEvent, onError)
    {
      var existing := entries[key];
      RefsOfUpdate(entries, key, Entry(existing.refs + 1, existing.client));
      entries := entries[key := Entry(existing.refs + 1, existing.client)];
      if onEvent.Some? {
        existing.client.SetOnEvent(onEvent);
      }
      if onError.Some? {
        existing.client.SetOnError(onError);
      }
      client := existing.client;
    }

    /** The new-client path of `acquire`: the client is entered under the
        key with one reference, replacing what was there. */
    method Install(key: string, client: GatewayClient)
      requires Distinct()
      requires forall k :: k in entries ==> entries[k].client != client
      modifies this
      ensures Distinct()
      ensures entries == old(entries)[key := Entry(1, client)]
      ensures Refs() == old(Refs())[key := 1]
    {
      RefsOfUpdate(entries, key, Entry(1, client));
      entries := entries[key := Entry(1, client)];
    }

    /** `releaseGatewayClient` */
    method Release(key: string)
      requires Distinct()
      modifies this, if key in entries then {entries[key].client} else {}
      ensures Distinct()
      ensures Refs() == RefsAfterRelease(old(Refs()), key)
      ensures key in old(entries) && old(entries[key].refs) - 1 <= 0
              ==> old(entries[key].client).State() == Closed(old(entries[key].client.State()))
      ensures forall k :: k in entries ==>
                k in old(entries) && entries[k].client == old(entries[k].client)
                && entries[k].client.State() == old(entries[k].client.State())
    {
      if key !in entries {
        return;
      }
      var entry := entries[key];
      var refs := entry.refs - 1;
      if refs > 0 {
        RefsOfUpdate(entries, key, Entry(refs, entry.client));
        entries := entries[key := Entry(refs, entry.client)];
        return;
      }
      entry.client.Close();
      RefsOfRemove(entries, key);
      entries := entries - {key};
    }
  }
}
