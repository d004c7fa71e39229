/** The chat screen's bookkeeping of runs in flight: which runs are
    pending, the watchdog timer of each, and the waiting flags the
    typing indicator reads; plus the send guard and the session key a
    message is sent to. Timer handles are parameters; a timer firing is
    an event. */
module ChatScreen {
  import opened Base
  import opened ChatStream
  import opened OptimisticSend

  /** A watchdog timer's delay in milliseconds. */
  const RunTimeoutMs := 120000

  /** The screen's run state: pending run ids, the live timer of each
      (by handle), `waitingForResponse`, `pendingGeneration`, and how
      many history refreshes the timers have requested. */
  datatype Runs = Runs(pending: set<string>, timers: map<string, nat>, waiting: bool, generating: bool, refreshes: nat)

  /** Every pending run has exactly one live timer, and while a run is
      pending the screen is waiting. This holds across the run-tracking
      operations modelled here; the screen also clears its waiting flag
      on paths outside this model (a send that fails, starting a new chat),
      which this invariant does not cover. */
  predicate Consistent(r: Runs) {
    r.timers.Keys == r.pending && (r.pending != {} ==> r.waiting && r.generating)
  }

  /** `startRun`: an empty id is ignored; otherwise the run is pending
      with a fresh timer replacing any earlier one, and the screen waits. */
  function StartedRun(r: Runs, runId: string, handle: nat): Runs {
    if runId == "" then r
    else Runs(r.pending + {runId}, r.timers[runId := handle], true, true, r.refreshes)
  }

  /** `finishRun`: an empty id is ignored; otherwise the run and its
      timer go, and the waiting flags drop once nothing is pending. */
  function FinishedRun(r: Runs, runId: string): Runs {
    if runId == "" then r
    else
      var pending := r.pending - {runId};
      Runs(pending, r.timers - {runId}, if pending == {} then false else r.waiting,
           if pending == {} then false else r.generating, r.refreshes)
  }

  /** `finishAllRuns` */
  function FinishedAllRuns(r: Runs): Runs {
    Runs({}, map[], false, false, r.refreshes)
  }

  /** The watchdog callback of `runId`: like `finishRun`, and it also
      refreshes the history. */
  function TimedOut(r: Runs, runId: string): Runs {
    var pending := r.pending - {runId};
    Runs(pending, r.timers - {runId}, if pending == {} then false else r.waiting,
         if pending == {} then false else r.generating, r.refreshes + 1)
  }

  lemma StartRunTracks(r: Runs, runId: string, handle: nat)
    ensures var s := StartedRun(r, runId, handle);
            (runId == "" ==> s == r)
            && (runId != "" ==> s.pending == r.pending + {runId} && s.timers[runId] == handle
                                && s.waiting && s.generating && s.refreshes == r.refreshes)
  {
  }

  lemma FinishRunClears(r: Runs, runId: string)
    ensures var s := FinishedRun(r, runId);
            (runId == "" ==> s == r)
            && (runId != "" ==> runId !in s.pending && runId !in s.timers && s.pending == r.pending - {runId}
                                && (s.waiting <==> r.waiting && s.pending != {}))
  {
  }

  lemma FinishAllEmpties(r: Runs)
    ensures var s := FinishedAllRuns(r);
            s.pending == {} && s.timers == map[] && !s.waiting && !s.generating
  {
  }

  lemma TimeoutRefreshes(r: Runs, runId: string)
    ensures var s := TimedOut(r, runId);
            runId !in s.pending && runId !in s.timers && s.refreshes == r.refreshes + 1
            && (s.waiting <==> r.waiting && s.pending != {})
  {
  }

  /** Each operation keeps every pending run paired with one timer, and
      the screen waiting while anything is pending. */
  lemma RunOperationsKeepConsistent(r: Runs, runId: string, handle: nat)
    requires Consistent(r)
    ensures Consistent(StartedRun(r, runId, handle))
    ensures Consistent(FinishedRun(r, runId))
    ensures Consistent(FinishedAllRuns(r))
    ensures Consistent(TimedOut(r, runId))
  {
  }

  /** The ignore test of `onChatEvent`: the event names a session other
      than both the resolved session and the session whose history is on
      screen. */
  predicate ForeignEvent(payload: ChatPayload, resolvedSessionKey: string, sessionKeyForHistory: string) {
    var payloadSessionKey := Text(payload.sessionKey);
    payloadSessionKey != "" && resolvedSessionKey != ""
    && payloadSessionKey != resolvedSessionKey && payloadSessionKey != sessionKeyForHistory
  }

  /** `onChatEvent` applied to the run state. */
  function AfterChatEvent(r: Runs, payload: ChatPayload, resolvedSessionKey: string, sessionKeyForHistory: string,
                          handle: nat): Runs {
    if ForeignEvent(payload, resolvedSessionKey, sessionKeyForHistory) then r
    else
      var runId := Text(payload.runId);
      var state := Text(payload.state);
      var started := if runId != "" && state == "delta" then StartedRun(r, runId, handle) else r;
      var finished := if runId != "" && IsTerminal(state) then FinishedRun(started, runId) else started;
      if runId == "" && IsTerminal(state) then FinishedAllRuns(finished) else finished
  }

  /** Foreign events change nothing; a delta with a run id starts that
      run, a terminal state with a run id finishes it, a terminal state
      without one finishes every run, and anything else changes nothing. */
  lemma ChatEventDispatch(r: Runs, payload: ChatPayload, resolvedSessionKey: string, sessionKeyForHistory: string,
                          handle: nat)
    ensures var s := AfterChatEvent(r, payload, resolvedSessionKey, sessionKeyForHistory, handle);
            var runId := Text(payload.runId);
            var state := Text(payload.state);
            var foreign := ForeignEvent(payload, resolvedSessionKey, sessionKeyForHistory);
            (foreign ==> s == r)
            && (!foreign && runId != "" && state == "delta" ==> s == StartedRun(r, runId, handle))
            && (!foreign && runId != "" && IsTerminal(state) ==> s == FinishedRun(r, runId))
            && (!foreign && runId == "" && IsTerminal(state) ==> s == FinishedAllRuns(r))
            && (!foreign && state != "delta" && !IsTerminal(state) ==> s == r)
            && (!foreign && runId == "" && state == "delta" ==> s == r)
  {
  }

  /** An event from the on-screen session is never ignored, and an
      event naming no session is never ignored. */
  lemma OwnSessionEventsHandled(payload: ChatPayload, resolvedSessionKey: string, sessionKeyForHistory: string)
    requires Text(payload.sessionKey) in {"", resolvedSessionKey, sessionKeyForHistory}
    ensures !ForeignEvent(payload, resolvedSessionKey, sessionKeyForHistory)
  {
  }

  /** The screen's pending-run bookkeeping. */
  class RunTracker {
    var pendingRunIds: set<string>
    var pendingRunTimers: map<string, nat>
    var waitingForResponse: bool
    var pendingGeneration: bool
    var historyRefreshes: nat

    function Snapshot(): Runs
      reads this
    {
      Runs(pendingRunIds, pendingRunTimers, waitingForResponse, pendingGeneration, historyRefreshes)
    }

    constructor()
      ensures Snapshot() == Runs({}, map[], false, false, 0) && Consistent(Snapshot())
    {
      pendingRunIds := {};
      pendingRunTimers := map[];
      waitingForResponse := false;
      pendingGeneration := false;
      historyRefreshes := 0;
    }

    /** `startRun`, with the handle `window.setTimeout` returns passed in. */
    method StartRun(runId: string, handle: nat)
      modifies this
      ensures Snapshot() == StartedRun(old(Snapshot()), runId, handle)
    {
      if runId == "" {
        return;
      }
      pendingRunIds := pendingRunIds + {runId};
      pendingRunTimers := pendingRunTimers[runId := handle];
      pendingGeneration := true;
      waitingForResponse := true;
    }

    /** `finishRun` */
    method FinishRun(runId: string)
      modifies this
      ensures Snapshot() == FinishedRun(old(Snapshot()), runId)
    {
      if runId == "" {
        return;
      }
      pendingRunTimers := pendingRunTimers - {runId};
      pendingRunIds := pendingRunIds - {runId};
      if pendingRunIds == {} {
        pendingGeneration := false;
        waitingForResponse := false;
      }
    }

    /** `finishAllRuns` */
    method FinishAllRuns()
      modifies this
      ensures Snapshot() == FinishedAllRuns(old(Snapshot()))
    {
      pendingRunTimers := map[];
      pendingRunIds := {};
      pendingGeneration := false;
      waitingForResponse := false;
    }

    /** The watchdog of `runId` fires; only a live timer can. */
    method FireTimeout(runId: string)
      requires runId in pendingRunTimers
      modifies this
      ensures Snapshot() == TimedOut(old(Snapshot()), runId)
    {
      pendingRunTimers := pendingRunTimers - {runId};
      pendingRunIds := pendingRunIds - {runId};
      historyRefreshes := historyRefreshes + 1;
      if pendingRunIds == {} {
        pendingGeneration := false;
        waitingForResponse := false;
      }
    }

    /** `onChatEvent` */
    method OnChatEvent(payload: ChatPayload, resolvedSessionKey: string, sessionKeyForHistory: string, handle: nat)
      modifies this
      ensures Snapshot() == AfterChatEvent(old(Snapshot()), payload, resolvedSessionKey, sessionKeyForHistory, handle)
    {
      var payloadSessionKey := if payload.sessionKey.Has? then payload.sessionKey.value else "";
      if payloadSessionKey != "" && resolvedSessionKey != ""
         && payloadSessionKey != resolvedSessionKey && payloadSessionKey != sessionKeyForHistory {
        return;
      }
      var runId := if payload.runId.Has? then payload.runId.value else "";
      var state := if payload.state.Has? then payload.state.value else "";
      if runId != "" && state == "delta" {
        StartRun(runId, handle);
      }
      if runId != "" && (state == "final" || state == "error" || state == "aborted") {
        FinishRun(runId);
      }
      if runId == "" && (state == "final" || state == "error" || state == "aborted") {
        FinishAllRuns();
      }
    }
  }

  // Sending

  /** The guard of `send`: an empty body with no attachments sends nothing. */
  predicate ShouldSend(body: string, attachments: seq<Attachment>)
    ensures attachments != [] ==> ShouldSend(body, attachments)
    ensures body != "" ==> ShouldSend(body, attachments)
    ensures ShouldSend(body, attachments) ==> body != "" || attachments != []
  {
    !(|body| == 0 && |attachments| == 0)
  }

  /** `forcedSessionKey || resolvedSessionKey || activeSessionKey` */
  function SessionKeyForSend(forced: string, resolved: string, active: string): (r: string)
    ensures r in {forced, resolved, active}
    ensures r == "" <==> forced == "" && resolved == "" && active == ""
    ensures forced != "" ==> r == forced
    ensures forced == "" && resolved != "" ==> r == resolved
  {
    if forced != "" then forced else if resolved != "" then resolved else active
  }

  /** The guard looks at the untrimmed length: a body of whitespace with
      no attachments is sent, and its optimistic message has no content. */
  lemma WhitespaceBodyPassesGuard(body: string)
    requires body != "" && AllSpace(body)
    ensures ShouldSend(body, [])
    ensures OptimisticContent(body, []) == []
  {
    TrimEmptyIffBlank(body);
  }
}
