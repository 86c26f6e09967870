/** The promises of the run lifecycle, over every sequence of steps of every run. */
module LifecycleResults {
  import opened Ids
  import opened Wrappers
  import opened Lifecycle
  import opened LifecycleInvariants
  import opened LifecycleTheorems
  import Cache

  // ----- Reading the history off the events -----

  /** Everything the process of `id` put on its stream. */
  function Said(events: seq<Event>, id: RunId): seq<ClientMsg> {
    if events == [] then []
    else
      var last := events[|events| - 1];
      Said(events[..|events| - 1], id)
      + if last.run == id && last.action.ClientSend? then [last.action.msg] else []
  }

  /** How the process of `id` ended. */
  function QuitWith(events: seq<Event>, id: RunId): Option<Exit> {
    if events == [] then None
    else
      var last := events[|events| - 1];
      if last.run == id && last.action.Quit? then Some(last.action.exit) else QuitWith(events[..|events| - 1], id)
  }

  /** Some `CancelRun(id)` set its flag before `deriveFinalStatus` read it. */
  predicate CancelledInTime(events: seq<Event>, id: RunId) {
    if events == [] then false
    else
      var before, last := events[..|events| - 1], events[|events| - 1];
      || CancelledInTime(before, id)
      || (last == Event(id, CancelRun) && Replay(before).Some? && id in Replay(before).value.runs
          && !HasRead(Replay(before).value.runs[id].reaper.waiter))
  }

  /** The effect of one step on what the run remembers of its past. */
  lemma StepRemembers(run: Run, free: bool, action: Action)
    requires Enabled(run, free, action)
    ensures var after := Step(run, free, action);
      && after.stream.taken + after.stream.inbox
         == run.stream.taken + run.stream.inbox + (if action.ClientSend? then [action.msg] else [])
      && after.reaper.exit == (if action.Quit? then Some(action.exit) else run.reaper.exit)
      && after.entry.cancelledInTime
         == (run.entry.cancelledInTime || (action.CancelRun? && !HasRead(run.reaper.waiter)))
  {
    var taken, inbox := run.stream.taken, run.stream.inbox;
    if action.ClientSend? {
      assert taken + (inbox + [action.msg]) == taken + inbox + [action.msg];
    } else if action.Handle? && run.stream.handler.HRecv? && inbox != [] {
      assert taken + [inbox[0]] + inbox[1..] == taken + inbox;
    }
  }

  lemma {:induction false} HistoryIsTheEvents(events: seq<Event>, id: RunId)
    requires Replay(events).Some?
    ensures id in Replay(events).value.runs ==>
              var run := Replay(events).value.runs[id];
              && run.stream.taken + run.stream.inbox == Said(events, id)
              && run.reaper.exit == QuitWith(events, id)
              && run.entry.cancelledInTime == CancelledInTime(events, id)
    ensures id !in Replay(events).value.runs ==>
              Said(events, id) == [] && QuitWith(events, id) == None && !CancelledInTime(events, id)
  {
    if events != [] {
      var before, last := events[..|events| - 1], events[|events| - 1];
      HistoryIsTheEvents(before, id);
      var state := Replay(before).value;
      if last.run == id && id in state.runs {
        StepRemembers(state.runs[id], state.serverMu.None?, last.action);
      }
    }
  }

  // ----- The terminal status -----

  lemma VerdictOnWhatWasTaken(run: Run)
    requires Ok(run) && Decided(run.reaper.waiter) && run.reaper.quietDerivation
    ensures run.reaper.exit.Some?
    ensures run.reaper.waiter.status == Verdict(run.entry.cancelledInTime, run.reaper.exit.value, run.stream.taken)
  {
    assert run.stream.flags == Summary(run.stream.taken);
  }

  /**
   The status `waitForExit` settles on is Cancelled exactly when a cancel came in time; and when no
   handler was live at the derivation, it is the verdict on the whole history: what the handler
   received is all that it ever will, a prefix of what Python said.
   */
  lemma TerminalStatusIsAFold(events: seq<Event>, id: RunId)
    requires Replay(events).Some? && id in Replay(events).value.runs
    requires Decided(Replay(events).value.runs[id].reaper.waiter)
    ensures var run := Replay(events).value.runs[id];
      var status := run.reaper.waiter.status;
      && QuitWith(events, id).Some?
      && run.stream.taken + run.stream.inbox == Said(events, id)
      && IsTerminal(status)
      && (status == Cancelled <==> CancelledInTime(events, id))
      && (run.reaper.quietDerivation ==>
            && Detached(run.stream)
            && status == Verdict(CancelledInTime(events, id), QuitWith(events, id).value, run.stream.taken))
  {
    Invariance(events);
    HistoryIsTheEvents(events, id);
    var run := Replay(events).value.runs[id];
    if run.reaper.quietDerivation {
      VerdictOnWhatWasTaken(run);
    }
  }

  lemma {:induction false} FirstReportStays(msgs: seq<ClientMsg>, more: seq<ClientMsg>)
    requires FirstReport(msgs).Some?
    ensures FirstReport(msgs + more) == FirstReport(msgs)
  {
    assert (msgs + more)[0] == msgs[0] && (msgs + more)[1..] == msgs[1..] + more;
    if !TerminalReport(msgs[0]) {
      FirstReportStays(msgs[1..], more);
    }
  }

  lemma FlagIsFirstReport(run: Run)
    requires Ok(run) && run.stream.flags.pythonStatus.Some?
    ensures FirstReport(run.stream.taken) == run.stream.flags.pythonStatus
  {
    var taken := run.stream.taken;
    if run.stream.handler.HGot? || run.stream.handler.HStored? {
      var before := taken[..|taken| - 1];
      assert taken == before + [taken[|taken| - 1]];
      FirstReportAppend(before, taken[|taken| - 1]);
    }
  }

  /**
   In every interleaving whatever, also when the stream outlives the wait for it, a run ends Completed
   only after a clean exit, no cancel in time, and a first terminal report that says completed.
   */
  lemma CompletedIsEarned(events: seq<Event>, id: RunId)
    requires Replay(events).Some? && id in Replay(events).value.runs
    requires var waiter := Replay(events).value.runs[id].reaper.waiter; Decided(waiter) && waiter.status == Completed
    ensures QuitWith(events, id).Some? && Clean(QuitWith(events, id).value)
    ensures FirstReport(Said(events, id)) == Some(Completed) && !CancelledInTime(events, id)
  {
    Invariance(events);
    HistoryIsTheEvents(events, id);
    var run := Replay(events).value.runs[id];
    FlagIsFirstReport(run);
    FirstReportStays(run.stream.taken, run.stream.inbox);
  }

  /** If moreover everything Python said was received, the verdict is on everything it said. */
  lemma TerminalStatusOfACompleteStream(events: seq<Event>, id: RunId)
    requires Replay(events).Some? && id in Replay(events).value.runs
    requires var run := Replay(events).value.runs[id];
      Decided(run.reaper.waiter) && run.reaper.quietDerivation && run.stream.inbox == []
    ensures var status := Replay(events).value.runs[id].reaper.waiter.status;
      && (status == Cancelled <==> CancelledInTime(events, id))
      && (status == Completed <==>
            && !CancelledInTime(events, id) && QuitWith(events, id).Some? && Clean(QuitWith(events, id).value)
            && !AnyError(Said(events, id)) && FirstReport(Said(events, id)) == Some(Completed))
  {
    TerminalStatusIsAFold(events, id);
    var run := Replay(events).value.runs[id];
    assert run.stream.taken + [] == run.stream.taken;
  }

  /** If Python ever read a CancelRequest, the run ends Cancelled, whatever else it did. */
  lemma CancelCausality(events: seq<Event>, id: RunId)
    requires Replay(events).Some? && id in Replay(events).value.runs
    requires Replay(events).value.runs[id].entry.cancelSeen
    ensures CancelledInTime(events, id)
    ensures var waiter := Replay(events).value.runs[id].reaper.waiter;
      Decided(waiter) ==> waiter.status == Cancelled
  {
    Invariance(events);
    HistoryIsTheEvents(events, id);
  }

  /** A decision is never revised. */
  lemma DecisionsStand(run: Run, free: bool, action: Action)
    requires Ok(run) && Enabled(run, free, action) && Decided(run.reaper.waiter)
    ensures var after := Step(run, free, action).reaper.waiter;
      Decided(after) && after.status == run.reaper.waiter.status
  {
    if !action.Wait? {
      assert Step(run, free, action).reaper.waiter == run.reaper.waiter;
    }
  }

  // ----- A cancel that comes too late -----

  ghost predicate Reachable(state: State) {
    exists events :: Replay(events) == Some(state)
  }

  /** The only run of the system takes a step that concerns nothing but itself. */
  lemma Moves(id: RunId, run: Run, action: Action, after: Run)
    requires Reachable(Alone(id, run))
    requires Enabled(run, true, action) && Step(run, true, action) == after
    requires !HoldsServerMu(run) && !HoldsServerMu(after)
    requires !(action.Wait? && (run.reaper.waiter.WFinish? || run.reaper.waiter.WRecord? || run.reaper.waiter.WCleanup?))
    requires !(action.Handle? && run.stream.handler.HGot? && UsesTheCache(run.stream.handler.msg))
    ensures Reachable(Alone(id, after))
  {
    var events :| Replay(events) == Some(Alone(id, run));
    var more := events + [Event(id, action)];
    assert more[..|more| - 1] == events;
    assert Next(Alone(id, run), id, action) == Alone(id, after);
    assert Replay(more) == Some(Alone(id, after));
  }

  predicate UsesTheCache(msg: ClientMsg) {
    msg.CacheCreate? || msg.CacheLookup? || msg.CacheRelease?
  }

  function Alone(id: RunId, run: Run): State {
    INIT.(runs := map[id := run])
  }

  const CRASH := Exit(1, None, "boom")

  /** A launched run whose client never connected. */
  function Unconnected(waiter: Waiter, exit: Option<Exit>): Run {
    FRESH.(entry := FRESH.entry.(starter := SReturned, active := Some(ActiveRun(Running, false))),
           reaper := FRESH.reaper.(waiter := waiter, exit := exit))
  }

  lemma CanBeLaunched(id: RunId)
    ensures Reachable(Alone(id, Unconnected(WWait, None)))
  {
    var events := [Event(id, Register)];
    assert events[..0] == [] && Next(INIT, id, Register) == Alone(id, FRESH);
    assert Replay(events) == Some(Alone(id, FRESH));
    var started := FRESH.(entry := FRESH.entry.(starter := SStarted));
    var active := FRESH.(entry := FRESH.entry.(starter := SActive, active := Some(ActiveRun(Running, false))));
    Moves(id, FRESH, Start(true), started);
    Moves(id, started, Start(true), active);
    Moves(id, active, Start(true), Unconnected(WWait, None));
  }

  /** A crashed run. */
  function Crashed(waiter: Waiter): Run {
    Unconnected(waiter, Some(CRASH))
  }

  lemma CanCrash(id: RunId)
    ensures Reachable(Alone(id, Crashed(WReadCancel)))
  {
    CanBeLaunched(id);
    Moves(id, Unconnected(WWait, None), Quit(CRASH), Crashed(WWait));
    Moves(id, Crashed(WWait), Wait(true), Crashed(WCheckStream));
    Moves(id, Crashed(WCheckStream), Wait(true), Crashed(WReadCancel));
  }

  /** Cancelling after the flag was read succeeds, and the run still ends Failed. */
  lemma LateCancelIsLost(id: RunId)
    ensures exists run :: Reachable(Alone(id, run))
              && run.entry.active.Some? && run.entry.active.value.cancelRequested
              && Decided(run.reaper.waiter) && run.reaper.waiter.status == Failed
  {
    CanCrash(id);
    var decided := Step(Crashed(WReadCancel), true, Wait(true));
    Moves(id, Crashed(WReadCancel), Wait(true), decided);
    Moves(id, decided, CancelRun, CancelStep(decided));
    assert Reachable(Alone(id, CancelStep(decided)));
  }

  // ----- A warning that costs the run its success -----

  const DONE := Report(SaysCompleted)

  const SUCCESS := Exit(0, None, "")

  const NO_FLAGS := Flags(false, None, None)

  /** A connected run. */
  function Connection(handler: Handler, flags: Flags, inbox: seq<ClientMsg>, taken: seq<ClientMsg>, sent: seq<Message>): Run {
    Unconnected(WWait, None).(
      stream := Stream(handler, flags, inbox, taken, [], 1, 0, false),
      channel := FRESH.channel.(phase := Connected, buffer := sent, sent := sent))
  }

  lemma CanSpeak(id: RunId, a: ClientMsg, b: ClientMsg)
    ensures Reachable(Alone(id, Connection(HRecv, NO_FLAGS, [a, b], [], [])))
  {
    CanBeLaunched(id);
    Moves(id, Unconnected(WWait, None), Connect, Connection(HRecv, NO_FLAGS, [], [], []));
    Moves(id, Connection(HRecv, NO_FLAGS, [], [], []), ClientSend(a), Connection(HRecv, NO_FLAGS, [a], [], []));
    Moves(id, Connection(HRecv, NO_FLAGS, [a], [], []), ClientSend(b), Connection(HRecv, NO_FLAGS, [a, b], [], []));
  }

  lemma ErrorIsTaken(id: RunId, error: ClientMsg)
    requires error.Error? && Reachable(Alone(id, Connection(HRecv, NO_FLAGS, [error, DONE], [], [])))
    ensures var msg := ErrorMsg(error.message, error.traceback, error.severity);
      Reachable(Alone(id, Connection(HRecv, Flags(true, None, Some(error.message)), [DONE], [error], [msg])))
  {
    var msg, flags := ErrorMsg(error.message, error.traceback, error.severity), Flags(true, None, Some(error.message));
    var got := Connection(HGot(error), NO_FLAGS, [DONE], [error], []);
    var stored := Connection(HStored(error), Flags(true, None, None), [DONE], [error], []);
    var send := Connection(HSend(msg), flags, [DONE], [error], []);
    var hold := send.(stream := send.stream.(handler := HHold(msg)), channel := send.channel.(phaseMu := ByHandler));
    Moves(id, Connection(HRecv, NO_FLAGS, [error, DONE], [], []), Handle(true), got);
    Moves(id, got, Handle(true), stored);
    Moves(id, stored, Handle(true), send);
    Moves(id, send, Handle(true), hold);
    Moves(id, hold, Handle(true), Connection(HRecv, flags, [DONE], [error], [msg]));
  }

  lemma ReportIsTaken(id: RunId, error: ClientMsg, flags: Flags, sent: seq<Message>)
    requires flags.pythonStatus.None? && Reachable(Alone(id, Connection(HRecv, flags, [DONE], [error], sent)))
    ensures Reachable(Alone(id, Connection(HRecv, flags.(pythonStatus := Some(Completed)), [], [error, DONE], sent)))
  {
    Moves(id, Connection(HRecv, flags, [DONE], [error], sent), Handle(true),
          Connection(HGot(DONE), flags, [], [error, DONE], sent));
    Moves(id, Connection(HGot(DONE), flags, [], [error, DONE], sent), Handle(true),
          Connection(HRecv, flags.(pythonStatus := Some(Completed)), [], [error, DONE], sent));
  }

  /** The connected run once its process and its stream have ended. */
  function Ended(run: Run, waiter: Waiter): Run {
    run.(stream := run.stream.(handler := HEnded, ends := 1),
         reaper := run.reaper.(waiter := waiter, exit := Some(SUCCESS)))
  }

  lemma GotErrorDecides(id: RunId, run: Run)
    requires Reachable(Alone(id, run)) && run.stream.flags.gotError
    requires run == Connection(HRecv, run.stream.flags, [], run.stream.taken, run.channel.sent)
    ensures var last := Ended(run, WSend(Failed));
      Reachable(Alone(id, last.(reaper := last.reaper.(quietDerivation := true))))
  {
    var gone := run.(reaper := run.reaper.(exit := Some(SUCCESS)));
    Moves(id, run, Quit(SUCCESS), gone);
    Moves(id, gone, Handle(false), Ended(run, WWait));
    Moves(id, Ended(run, WWait), Wait(false), Ended(run, WCheckStream));
    Moves(id, Ended(run, WCheckStream), Wait(false), Ended(run, WAwaitStream));
    Moves(id, Ended(run, WAwaitStream), Wait(false), Ended(run, WReadCancel));
    var read := Ended(run, WReadError);
    read := read.(reaper := read.reaper.(quietDerivation := true));
    Moves(id, Ended(run, WReadCancel), Wait(false), read);
    Moves(id, read, Wait(false), read.(reaper := read.reaper.(waiter := WSend(Failed))));
  }

  /**
   An error of any severity, so also what `warn()` and `info()` send, followed by a report of success
   and a clean exit: all of it received, nobody cancelled, and the run is decided Failed.
   */
  lemma AnySeverityFails(id: RunId, error: ClientMsg)
    requires error.Error?
    ensures exists run ::
              && Reachable(Alone(id, run))
              && run.stream.taken == [error, DONE] && run.stream.inbox == [] && run.reaper.quietDerivation
              && run.reaper.exit == Some(SUCCESS) && Clean(SUCCESS) && !run.entry.cancelledInTime
              && run.reaper.waiter == WSend(Failed)
  {
    var msg, flags := ErrorMsg(error.message, error.traceback, error.severity), Flags(true, None, Some(error.message));
    CanSpeak(id, error, DONE);
    ErrorIsTaken(id, error);
    ReportIsTaken(id, error, flags, [msg]);
    var run := Connection(HRecv, flags.(pythonStatus := Some(Completed)), [], [error, DONE], [msg]);
    GotErrorDecides(id, run);
    var last := Ended(run, WSend(Failed));
    assert Reachable(Alone(id, last.(reaper := last.reaper.(quietDerivation := true))));
  }

  // ----- One end per run -----

  predicate Launched(starter: Starter) {
    starter.SActive? || starter.SReturned?
  }

  /**
   A launched run is in `activeRuns` or in the history, never both and never twice; one that is in
   the history sent one status over its channel, and that status is the one recorded and, once
   written, the one in the database.
   */
  lemma ExactlyOneEnd(events: seq<Event>, id: RunId)
    requires Replay(events).Some? && id in Replay(events).value.runs
    requires Launched(Replay(events).value.runs[id].entry.starter)
    ensures var state := Replay(events).value;
      var run := state.runs[id];
      var waiter := run.reaper.waiter;
      && (run.entry.active.Some? <==> RecordsOf(state.history, id) == [])
      && (run.entry.active.None? ==>
            && Retired(waiter) && IsTerminal(waiter.status)
            && RecordsOf(state.history, id) == [waiter.status]
            && Statuses(run.channel.sent) == [waiter.status])
      && (waiter.WDone? ==> UpdatesOf(state.db, id) == [Update(id, waiter.status, waiter.message)])
      && (!waiter.WDone? ==> UpdatesOf(state.db, id) == [])
  {
    Invariance(events);
    var state := Replay(events).value;
    assert HistoryOf(state, id) && DatabaseOf(state, id);
  }

  /** Runs that were never launched leave no record, and no transition was ever ignored. */
  lemma NothingElseIsRecorded(events: seq<Event>, id: RunId)
    requires Replay(events).Some?
    ensures var state := Replay(events).value;
      && (id !in state.runs || !Launched(state.runs[id].entry.starter) ==>
            RecordsOf(state.history, id) == [] && UpdatesOf(state.db, id) == [])
      && (id in state.runs ==> state.runs[id].reaper.ignored == 0 && !Stuck(state.runs[id].entry))
  {
    Invariance(events);
    var state := Replay(events).value;
    assert HistoryOf(state, id) && DatabaseOf(state, id);
  }

  lemma {:induction false} TwiceIsTwo(history: seq<Record>, i: nat, j: nat)
    requires i < j < |history|
    ensures history[i].run == history[j].run ==> |RecordsOf(history, history[i].run)| >= 2
  {
    var n := |history| - 1;
    if j < n {
      TwiceIsTwo(history[..n], i, j);
    } else {
      OnceIsOne(history[..n], i);
    }
  }

  lemma {:induction false} OnceIsOne(history: seq<Record>, i: nat)
    requires i < |history|
    ensures |RecordsOf(history, history[i].run)| >= 1
  {
    if i < |history| - 1 {
      OnceIsOne(history[..|history| - 1], i);
    }
  }

  lemma {:induction false} OnlyKnownRuns(events: seq<Event>, i: nat)
    requires Replay(events).Some? && i < |Replay(events).value.history|
    ensures Replay(events).value.history[i].run in Replay(events).value.runs
  {
    Invariance(events);
    var state := Replay(events).value;
    OnceIsOne(state.history, i);
    assert HistoryOf(state, state.history[i].run);
  }

  ghost predicate OneRecordPerRun(history: seq<Record>) {
    forall i, j :: 0 <= i < j < |history| ==> history[i].run != history[j].run
  }

  lemma NewRecordsAreDistinct(events: seq<Event>)
    requires Replay(events).Some?
    ensures OneRecordPerRun(Replay(events).value.history)
  {
    Invariance(events);
    var state := Replay(events).value;
    forall i, j | 0 <= i < j < |state.history| ensures state.history[i].run != state.history[j].run {
      assert HistoryOf(state, state.history[i].run);
      TwiceIsTwo(state.history, i, j);
    }
  }

  /** With the records loaded from the database in front, whose runs are not started again. */
  lemma HistoryHasNoDuplicates(loaded: seq<Record>, events: seq<Event>)
    requires Replay(events).Some? && OneRecordPerRun(loaded)
    requires forall i :: 0 <= i < |loaded| ==> loaded[i].run !in Replay(events).value.runs
    ensures OneRecordPerRun(loaded + Replay(events).value.history)
  {
    NewRecordsAreDistinct(events);
    var history := Replay(events).value.history;
    var all := loaded + history;
    forall i, j | 0 <= i < j < |all| ensures all[i].run != all[j].run {
      if i >= |loaded| {
        assert all[i] == history[i - |loaded|] && all[j] == history[j - |loaded|];
      } else if j >= |loaded| {
        OnlyKnownRuns(events, j - |loaded|);
      }
    }
  }

  // ----- Starting -----

  /** Whether the process of `id` could be spawned, once that has been tried. */
  function SpawnResult(events: seq<Event>, id: RunId): Option<bool> {
    if events == [] then None
    else
      var before, last := events[..|events| - 1], events[|events| - 1];
      if SpawnResult(before, id).Some? then SpawnResult(before, id)
      else if last.run == id && last.action.Start? then Some(last.action.ok) else None
  }

  predicate StarterOk(starter: Starter, spawned: Option<bool>) {
    match spawned
    case None => starter.SRegistered?
    case Some(true) => Spawned(starter)
    case Some(false) => starter.SFailed? || starter.SUnregistering? || starter.SGone?
  }

  lemma StepKeepsStarter(run: Run, free: bool, action: Action, spawned: Option<bool>)
    requires Enabled(run, free, action) && StarterOk(run.entry.starter, spawned)
    ensures StarterOk(Step(run, free, action).entry.starter,
                      if spawned.Some? then spawned else if action.Start? then Some(action.ok) else None)
  {
    if !action.Start? {
      assert Step(run, free, action).entry.starter == run.entry.starter;
    }
  }

  /** A run goes on to be launched exactly if its process could be spawned; otherwise it is withdrawn. */
  lemma {:induction false} LaunchedIffSpawned(events: seq<Event>, id: RunId)
    requires Replay(events).Some?
    ensures id in Replay(events).value.runs ==>
      StarterOk(Replay(events).value.runs[id].entry.starter, SpawnResult(events, id))
    ensures id !in Replay(events).value.runs ==> SpawnResult(events, id).None?
  {
    if events != [] {
      var before, last := events[..|events| - 1], events[|events| - 1];
      LaunchedIffSpawned(before, id);
      var state := Replay(before).value;
      if last.run == id && id in state.runs {
        StepKeepsStarter(state.runs[id], state.serverMu.None?, last.action, SpawnResult(before, id));
      }
    }
  }

  // ----- The channel -----

  /**
   Each Go channel is closed at most once and nothing is sent after the close (either would panic);
   a run is in the server's map exactly until its channel is Done; the consumer gets what was sent,
   in order, and nothing is lost once it has finished; a quiet stream leaves the status last.
   */
  lemma ChannelSafety(events: seq<Event>, id: RunId)
    requires Replay(events).Some? && id in Replay(events).value.runs
    ensures var run := Replay(events).value.runs[id];
      var channel := run.channel;
      && channel.closes <= 1 && run.stream.connects <= 1 && run.stream.ends <= 1
      && channel.sendsAfterClose == 0 && |channel.buffer| <= 100
      && (run.entry.registered <==> channel.phase != Done)
      && channel.delivered <= channel.sent
      && (channel.consumer.CEnded? ==> channel.delivered == channel.sent)
      && (Retired(run.reaper.waiter) && run.reaper.quietDerivation ==>
            channel.sent != [] && channel.sent[|channel.sent| - 1] == StatusMsg(run.reaper.waiter.status))
  {
    Invariance(events);
    var channel := Replay(events).value.runs[id].channel;
    assert channel.delivered <= channel.delivered + channel.buffer;
    assert channel.delivered + [] == channel.delivered;
  }

  function Rank(phase: Phase): nat {
    match phase case Registered => 0 case Connected => 1 case Done => 2
  }

  /** Phases only advance, and what has been sent stays sent. */
  lemma PhasesAdvance(run: Run, free: bool, action: Action)
    requires Enabled(run, free, action)
    ensures var after := Step(run, free, action).channel;
      && Rank(run.channel.phase) <= Rank(after.phase)
      && run.channel.sent <= after.sent && run.channel.delivered <= after.delivered
      && (after.phase != run.channel.phase ==> LegalPhaseTransition(run.channel.phase, after.phase))
  {}

  // ----- The cache -----

  // What a run keeps, read off the events

  /** The message that this event lets the handler of its run dispatch, if it is such an event. */
  function Dispatched(events: seq<Event>, last: Event): Option<ClientMsg> {
    if Replay(events).None? || last.run !in Replay(events).value.runs || !last.action.Handle? then None
    else
      var handler := Replay(events).value.runs[last.run].stream.handler;
      if handler.HGot? then Some(handler.msg) else None
  }

  predicate CleansUp(events: seq<Event>, last: Event) {
    && Replay(events).Some? && last.run in Replay(events).value.runs
    && last.action.Wait? && Replay(events).value.runs[last.run].reaper.waiter.WCleanup?
  }

  /**
   The run's last effective use of the key got hold of a block: it created one while nobody kept one,
   or looked one up while somebody did, and has neither released the key nor been cleaned up since.
   */
  ghost predicate Keeps(events: seq<Event>, id: RunId, key: string)
    decreases |events|, 0
  {
    if events == [] then false
    else
      var before, last := events[..|events| - 1], events[|events| - 1];
      var msg := Dispatched(before, last);
      if last.run != id then Keeps(before, id, key)
      else if CleansUp(before, last) then false
      else if msg.Some? && msg.value.CacheRelease? && msg.value.key == key then false
      else if msg.Some? && msg.value.CacheCreate? && msg.value.key == key then Keeps(before, id, key) || !Kept(before, key)
      else if msg.Some? && msg.value.CacheLookup? && msg.value.key == key then Kept(before, key)
      else Keeps(before, id, key)
  }

  /** Somebody keeps a block under the key. */
  ghost predicate Kept(events: seq<Event>, key: string)
    decreases |events|, 1
  {
    exists id :: Keeps(events, id, key)
  }

  /** What the dispatch of a message by the run itself does to its reference under the key. */
  lemma OwnMessageOnHolder(cache: Cache.Registry, id: RunId, run: Run, action: Action, key: string)
    requires Cache.Sound(cache) && action.Handle? && run.stream.handler.HGot?
    ensures var msg, held := run.stream.handler.msg, Cache.Held(cache, key, id);
      Cache.Held(CacheEffect(cache, id, run, action), key, id) <==>
        if msg.CacheRelease? && msg.key == key then false
        else if msg.CacheCreate? && msg.key == key then held || key !in cache.blocks
        else if msg.CacheLookup? && msg.key == key then key in cache.blocks
        else held
  {
    match run.stream.handler.msg
    case CacheRelease(released) => Cache.ReleaseRemovesOneMembership(cache, released, id);
    case CacheLookup(looked) => Cache.LookupAddsOneMembership(cache, looked, id);
    case _ =>
  }

  /** No step of another run changes whether this one holds the block. */
  lemma OtherStepOnHolder(cache: Cache.Registry, other: RunId, run: Run, action: Action, key: string, id: RunId)
    requires Cache.Sound(cache) && other != id
    ensures Cache.Held(CacheEffect(cache, other, run, action), key, id) <==> Cache.Held(cache, key, id)
  {
    if action.Wait? {
      Cache.CleanupForgetsRun(cache, other);
    } else if action.Handle? && run.stream.handler.HGot? {
      match run.stream.handler.msg
      case CacheRelease(released) => Cache.ReleaseRemovesOneMembership(cache, released, other);
      case CacheLookup(looked) => Cache.LookupAddsOneMembership(cache, looked, other);
      case _ =>
    }
  }

  lemma OwnStepOnHolder(cache: Cache.Registry, id: RunId, run: Run, action: Action, key: string)
    requires Cache.Sound(cache) && !(action.Handle? && run.stream.handler.HGot?)
    ensures Cache.Held(CacheEffect(cache, id, run, action), key, id)
      <==> Cache.Held(cache, key, id) && !(action.Wait? && run.reaper.waiter.WCleanup?)
  {
    if action.Wait? {
      Cache.CleanupForgetsRun(cache, id);
    }
  }

  lemma PresentIffHeld(cache: Cache.Registry, key: string)
    requires Cache.Sound(cache)
    ensures key in cache.blocks <==> exists id :: Cache.Held(cache, key, id)
  {
    if key in cache.blocks {
      Cache.EveryBlockIsHeld(cache, key);
    }
  }

  lemma {:induction false} PresentIffKept(events: seq<Event>, key: string)
    requires Replay(events).Some?
    ensures key in Replay(events).value.cache.blocks <==> Kept(events, key)
    decreases |events|, 1
  {
    Invariance(events);
    var cache := Replay(events).value.cache;
    PresentIffHeld(cache, key);
    forall id ensures Cache.Held(cache, key, id) <==> Keeps(events, id, key) {
      HeldIff(events, id, key);
    }
  }

  /** What the last event did to the cache. */
  lemma CacheAfterLast(events: seq<Event>)
    requires Replay(events).Some? && events != []
    ensures var before, last := events[..|events| - 1], events[|events| - 1];
      && Replay(before).Some?
      && (last.action.Register? ==> Replay(events).value.cache == Replay(before).value.cache)
      && (!last.action.Register? ==>
            && last.run in Replay(before).value.runs
            && Replay(events).value.cache
               == CacheEffect(Replay(before).value.cache, last.run, Replay(before).value.runs[last.run], last.action))
  {}

  /** In every reachable state a run holds a block exactly if it keeps one by the events so far. */
  lemma {:induction false} HeldIff(events: seq<Event>, id: RunId, key: string)
    requires Replay(events).Some?
    ensures Cache.Held(Replay(events).value.cache, key, id) <==> Keeps(events, id, key)
    decreases |events|, 0
  {
    if events != [] {
      var before, last := events[..|events| - 1], events[|events| - 1];
      CacheAfterLast(events);
      CacheIsSound(before);
      HeldIff(before, id, key);
      PresentIffKept(before, key);
      if !last.action.Register? {
        LastOnHolder(Replay(before).value, last, id, key);
      }
    }
  }

  /** The three lemmas above, for the run of any event. */
  lemma LastOnHolder(state: State, last: Event, id: RunId, key: string)
    requires Cache.Sound(state.cache) && last.run in state.runs
    ensures var run := state.runs[last.run];
      var cache := CacheEffect(state.cache, last.run, run, last.action);
      var held := Cache.Held(state.cache, key, id);
      Cache.Held(cache, key, id) <==>
        if last.run != id then held
        else if last.action.Wait? && run.reaper.waiter.WCleanup? then false
        else if !(last.action.Handle? && run.stream.handler.HGot?) then held
        else
          var msg := run.stream.handler.msg;
          if msg.CacheRelease? && msg.key == key then false
          else if msg.CacheCreate? && msg.key == key then held || key !in state.cache.blocks
          else if msg.CacheLookup? && msg.key == key then key in state.cache.blocks
          else held
  {
    var run := state.runs[last.run];
    if last.run != id {
      OtherStepOnHolder(state.cache, last.run, run, last.action, key, id);
    } else if last.action.Handle? && run.stream.handler.HGot? {
      OwnMessageOnHolder(state.cache, id, run, last.action, key);
    } else {
      OwnStepOnHolder(state.cache, id, run, last.action, key);
    }
  }

  ghost predicate NothingKept(events: seq<Event>) {
    forall id, key :: !Keeps(events, id, key)
  }

  /**
   The exact condition for leaks: the registry is empty, and so every block ever registered has been
   unlinked once, if and only if no run keeps anything.
   */
  lemma EmptyIffNothingKept(events: seq<Event>)
    requires Replay(events).Some?
    ensures var cache := Replay(events).value.cache;
      && (cache.blocks == map[] <==> NothingKept(events))
      && (cache.blocks == map[] <==> forall i :: 0 <= i < |cache.log| ==> cache.log[i].unlinked == [cache.log[i].shm])
  {
    var cache := Replay(events).value.cache;
    CacheIsSound(events);
    Cache.EmptyIffAllUnlinked(cache);
    if cache.blocks == map[] {
      forall id, key ensures !Keeps(events, id, key) {
        HeldIff(events, id, key);
      }
    } else {
      var key :| key in cache.blocks;
      Cache.EveryBlockIsHeld(cache, key);
      var id :| Cache.Held(cache, key, id);
      HeldIff(events, id, key);
    }
  }

  lemma CacheIsSound(events: seq<Event>)
    requires Replay(events).Some?
    ensures Cache.Sound(Replay(events).value.cache)
  {
    Invariance(events);
  }

  /** The run was cleaned up, and its handler has created or looked up no block since (or it never started). */
  predicate ReapedInTime(run: Run) {
    run.entry.starter.SGone? || (CleanedUp(run.reaper.waiter) && !run.stream.lateCacheUse)
  }

  /** In particular if its stream had ended before the cleanup. */
  lemma QuietCleanupIsInTime(events: seq<Event>, id: RunId)
    requires Replay(events).Some? && id in Replay(events).value.runs
    requires Replay(events).value.runs[id].reaper.quietCleanup
    ensures ReapedInTime(Replay(events).value.runs[id])
  {
    Invariance(events);
  }

  /** A run that was cleaned up is not referenced unless its handler used the cache afterwards. */
  lemma NoReferenceAfterCleanup(events: seq<Event>, id: RunId, key: string)
    requires Replay(events).Some? && id in Replay(events).value.runs
    requires var run := Replay(events).value.runs[id]; CleanedUp(run.reaper.waiter) && !run.stream.lateCacheUse
    ensures !Cache.Held(Replay(events).value.cache, key, id)
  {
    Invariance(events);
    var state := Replay(events).value;
    assert Cache.Held(state.cache, key, id) ==> MayHold(state, id);
  }

  /** A run whose client never connected holds nothing either. */
  lemma NoReferenceWithoutStream(events: seq<Event>, id: RunId, key: string)
    requires Replay(events).Some? && id in Replay(events).value.runs
    requires Replay(events).value.runs[id].stream.handler.HIdle?
    ensures !Cache.Held(Replay(events).value.cache, key, id)
  {
    Invariance(events);
    var state := Replay(events).value;
    assert Cache.Held(state.cache, key, id) ==> MayHold(state, id);
  }

  lemma ReapedRunHoldsNothing(events: seq<Event>, id: RunId, key: string)
    requires Replay(events).Some? && id in Replay(events).value.runs
    requires ReapedInTime(Replay(events).value.runs[id])
    ensures !Cache.Held(Replay(events).value.cache, key, id)
  {
    if Replay(events).value.runs[id].entry.starter.SGone? {
      Invariance(events);
      NoReferenceWithoutStream(events, id, key);
    } else {
      NoReferenceAfterCleanup(events, id, key);
    }
  }

  /** Once every run has been reaped in time, the registry is empty and every block was unlinked once. */
  lemma NothingLeaks(events: seq<Event>)
    requires Replay(events).Some?
    requires forall id :: id in Replay(events).value.runs ==> ReapedInTime(Replay(events).value.runs[id])
    ensures var cache := Replay(events).value.cache;
      && cache.blocks == map[]
      && forall i :: 0 <= i < |cache.log| ==> cache.log[i].unlinked == [cache.log[i].shm]
  {
    Invariance(events);
    var state := Replay(events).value;
    forall key, id ensures !Cache.Held(state.cache, key, id) {
      if id in state.runs {
        ReapedRunHoldsNothing(events, id, key);
      } else {
        assert Cache.Held(state.cache, key, id) ==> MayHold(state, id);
      }
    }
    Cache.EmptyIffUnheld(state.cache);
    Cache.EmptyMeansAllUnlinked(state.cache);
  }

  // ----- A handler that outlives the wait for it -----

  lemma Goes(before: State, id: RunId, action: Action, after: State)
    requires Reachable(before) && CanStep(before, id, action) && Next(before, id, action) == after
    ensures Reachable(after)
  {
    var events :| Replay(events) == Some(before);
    var more := events + [Event(id, action)];
    assert more[..|more| - 1] == events;
    assert Replay(more) == Some(after);
  }

  const CREATE := CacheCreate("k", "s", 1)

  /** A connected run whose process crashed while a request to the cache was still to be received. */
  function Late(waiter: Waiter): Run {
    var run := Connection(HRecv, NO_FLAGS, [CREATE, DONE], [], []);
    run.(reaper := run.reaper.(waiter := waiter, exit := Some(CRASH)))
  }

  /** The same once the status is on its way; the lock holder, the phase and the buffer vary. */
  function LateSent(waiter: Waiter): Run {
    var run := Late(waiter);
    run.(channel := run.channel.(buffer := [StatusMsg(Failed)], sent := [StatusMsg(Failed)]))
  }

  /** And once the run has been unregistered and taken out of the active ones. */
  function LateGone(waiter: Waiter, active: Option<ActiveRun>): Run {
    var run := LateSent(waiter);
    run.(entry := run.entry.(registered := false, active := active),
         channel := run.channel.(phase := Done, closes := 1))
  }

  lemma TheWaitTimesOut(id: RunId)
    ensures Reachable(Alone(id, Late(WSend(Failed))))
  {
    CanSpeak(id, CREATE, DONE);
    Moves(id, Connection(HRecv, NO_FLAGS, [CREATE, DONE], [], []), Quit(CRASH), Late(WWait));
    Moves(id, Late(WWait), Wait(true), Late(WCheckStream));
    Moves(id, Late(WCheckStream), Wait(true), Late(WAwaitStream));
    Moves(id, Late(WAwaitStream), Wait(true), Late(WReadCancel));
    Moves(id, Late(WReadCancel), Wait(true), Late(WSend(Failed)));
  }

  lemma TheStatusIsSent(id: RunId)
    ensures Reachable(Alone(id, LateSent(WCleanup(Failed, "boom"))))
  {
    TheWaitTimesOut(id);
    var hold := Late(WHold(Failed));
    hold := hold.(channel := hold.channel.(phaseMu := ByWaiter));
    Moves(id, Late(WSend(Failed)), Wait(true), Late(WLock(Failed)));
    Moves(id, Late(WLock(Failed)), Wait(true), hold);
    Moves(id, hold, Wait(true), LateSent(WReadMessage(Failed)));
    Moves(id, LateSent(WReadMessage(Failed)), Wait(true), LateSent(WCleanup(Failed, "boom")));
  }

  /** The world with nothing but this run. */
  function World(id: RunId, run: Run, lock: Option<RunId>, history: seq<Record>, db: seq<Update>, cache: Cache.Registry): State {
    State(map[id := run], lock, history, db, cache)
  }

  /** The world before anything has been recorded. */
  function Early(id: RunId, run: Run, lock: Option<RunId>): State {
    World(id, run, lock, [], [], Cache.EMPTY)
  }

  lemma TheCacheIsCleaned(id: RunId)
    ensures Reachable(Early(id, LateSent(WUnregister(Failed, "boom")), None))
  {
    TheStatusIsSent(id);
    Cache.CleanedNothing(Cache.EMPTY, id);
    Goes(Early(id, LateSent(WCleanup(Failed, "boom")), None), id, Wait(true),
         Early(id, LateSent(WUnregister(Failed, "boom")), None));
  }

  lemma TheLockIsTaken(id: RunId)
    ensures Reachable(Early(id, LateSent(WUnregistering(Failed, "boom")), Some(id)))
  {
    TheCacheIsCleaned(id);
    Goes(Early(id, LateSent(WUnregister(Failed, "boom")), None), id, Wait(true),
         Early(id, LateSent(WUnregistering(Failed, "boom")), Some(id)));
  }

  const STILL_ACTIVE := Some(ActiveRun(Running, false))

  lemma TheRunIsUnregistered(id: RunId)
    ensures Reachable(Early(id, LateGone(WFinish(Failed, "boom"), STILL_ACTIVE), None))
  {
    TheLockIsTaken(id);
    Goes(Early(id, LateSent(WUnregistering(Failed, "boom")), Some(id)), id, Wait(true),
         Early(id, LateGone(WFinish(Failed, "boom"), STILL_ACTIVE), None));
  }

  /** The world once the run has been recorded, with the given cache. */
  function Recording(id: RunId, run: Run, db: seq<Update>, cache: Cache.Registry): State {
    World(id, run, None, [Record(id, Failed)], db, cache)
  }

  function Written(id: RunId): seq<Update> {
    [Update(id, Failed, "boom")]
  }

  lemma TheRunIsRecorded(id: RunId)
    ensures Reachable(Recording(id, LateGone(WRecord(Failed, "boom"), None), [], Cache.EMPTY))
  {
    TheRunIsUnregistered(id);
    Goes(Early(id, LateGone(WFinish(Failed, "boom"), STILL_ACTIVE), None), id, Wait(true),
         Recording(id, LateGone(WRecord(Failed, "boom"), None), [], Cache.EMPTY));
  }

  /** A reaped run whose handler is about to serve the request that was left. */
  function LateHandler(handler: Handler, inbox: seq<ClientMsg>, taken: seq<ClientMsg>, late: bool, ends: nat): Run {
    LateGone(WDone(Failed, "boom"), None).(stream := Stream(handler, NO_FLAGS, inbox, taken, [], 1, ends, late))
  }

  lemma TheRunIsReaped(id: RunId)
    ensures Reachable(Recording(id, LateHandler(HRecv, [CREATE, DONE], [], false, 0), Written(id), Cache.EMPTY))
  {
    TheRunIsRecorded(id);
    Goes(Recording(id, LateGone(WRecord(Failed, "boom"), None), [], Cache.EMPTY), id, Wait(true),
         Recording(id, LateHandler(HRecv, [CREATE, DONE], [], false, 0), Written(id), Cache.EMPTY));
  }

  lemma TheHandlerReceives(id: RunId)
    ensures Reachable(Recording(id, LateHandler(HGot(CREATE), [DONE], [CREATE], false, 0), Written(id), Cache.EMPTY))
  {
    TheRunIsReaped(id);
    assert [CREATE, DONE][1..] == [DONE] && [] + [CREATE] == [CREATE];
    Goes(Recording(id, LateHandler(HRecv, [CREATE, DONE], [], false, 0), Written(id), Cache.EMPTY), id, Handle(true),
         Recording(id, LateHandler(HGot(CREATE), [DONE], [CREATE], false, 0), Written(id), Cache.EMPTY));
  }

  function Leaked(id: RunId): Cache.Registry {
    Cache.AfterRegister(Cache.EMPTY, "k", "s", 1, id)
  }

  lemma TheBlockIsRegistered(id: RunId)
    ensures Reachable(Recording(id, LateHandler(HReply, [DONE], [CREATE], true, 0), Written(id), Leaked(id)))
  {
    TheHandlerReceives(id);
    Goes(Recording(id, LateHandler(HGot(CREATE), [DONE], [CREATE], false, 0), Written(id), Cache.EMPTY), id, Handle(true),
         Recording(id, LateHandler(HReply, [DONE], [CREATE], true, 0), Written(id), Leaked(id)));
  }

  /** The run has been reaped, its stream has ended, and it still holds the block. */
  predicate HoldsForNothing(state: State, id: RunId, key: string) {
    Over(state, id) && Cache.Held(state.cache, key, id)
  }

  /**
   If the wait for the stream times out, a run can be reaped, cleaned up and recorded before its
   handler registers a block; the stream ends, and the block is still held.
   */
  lemma LateHandlerLeaks(id: RunId)
    ensures exists state :: Reachable(state) && HoldsForNothing(state, id, "k")
  {
    TheBlockIsRegistered(id);
    var last := Recording(id, LateHandler(HEnded, [DONE], [CREATE], true, 1), Written(id), Leaked(id));
    Goes(Recording(id, LateHandler(HReply, [DONE], [CREATE], true, 0), Written(id), Leaked(id)), id, Handle(false), last);
    assert HoldsForNothing(last, id, "k");
  }

  lemma ReapedStaysReaped(cache: Cache.Registry, id: RunId, run: Run, free: bool, action: Action)
    requires Shape(run.entry, run.reaper, run.channel.consumer, run.stream.handler.HIdle?)
    requires Enabled(run, free, action) && run.reaper.waiter.WDone? && run.stream.handler.HEnded?
    ensures Step(run, free, action).reaper.waiter.WDone? && Step(run, free, action).stream.handler.HEnded?
    ensures CacheEffect(cache, id, run, action) == cache
  {}

  /** The run has been reaped and its stream has ended. */
  predicate Over(state: State, id: RunId) {
    id in state.runs && state.runs[id].reaper.waiter.WDone? && state.runs[id].stream.handler.HEnded?
  }

  lemma StepKeepsHolding(state: State, id: RunId, key: string, other: RunId, action: Action)
    requires Cache.Sound(state.cache) && Over(state, id) && CanStep(state, other, action) && Ok(state.runs[id])
    ensures Over(Next(state, other, action), id)
    ensures Cache.Held(Next(state, other, action).cache, key, id) <==> Cache.Held(state.cache, key, id)
  {
    if !action.Register? {
      if other == id {
        ReapedStaysReaped(state.cache, id, state.runs[id], state.serverMu.None?, action);
      } else {
        OtherStepOnHolder(state.cache, other, state.runs[other], action, key, id);
      }
    }
  }

  /** Once a run is over, what it holds is settled: nothing is added in any continuation, and nothing let go. */
  lemma {:induction false} HoldingIsFinal(events: seq<Event>, more: seq<Event>, id: RunId, key: string)
    requires Replay(events).Some? && Over(Replay(events).value, id)
    requires Replay(events + more).Some?
    ensures Over(Replay(events + more).value, id)
    ensures Cache.Held(Replay(events + more).value.cache, key, id) <==> Cache.Held(Replay(events).value.cache, key, id)
    decreases |more|
  {
    if more == [] {
      assert events + more == events;
    } else {
      var before, last := events + more[..|more| - 1], more[|more| - 1];
      assert (events + more)[..|events + more| - 1] == before && (events + more)[|events + more| - 1] == last;
      HoldingIsFinal(events, more[..|more| - 1], id, key);
      Invariance(before);
      StepKeepsHolding(Replay(before).value, id, key, last.run, last.action);
    }
  }

  /** So a block that a run keeps when it is over is held, and never unlinked, as long as the program runs. */
  lemma LeaksAreForEver(events: seq<Event>, more: seq<Event>, id: RunId, key: string)
    requires Replay(events).Some? && HoldsForNothing(Replay(events).value, id, key)
    requires Replay(events + more).Some?
    ensures HoldsForNothing(Replay(events + more).value, id, key)
  {
    HoldingIsFinal(events, more, id, key);
  }

  /** For a run that is over, the events so far decide whether it will ever let go of a block. */
  lemma LeakedIffKept(events: seq<Event>, id: RunId, key: string)
    requires Replay(events).Some? && Over(Replay(events).value, id)
    ensures Keeps(events, id, key) <==>
              forall more :: Replay(events + more).Some? ==> Cache.Held(Replay(events + more).value.cache, key, id)
  {
    HeldIff(events, id, key);
    assert events + [] == events;
    if Keeps(events, id, key) {
      forall more | Replay(events + more).Some? ensures Cache.Held(Replay(events + more).value.cache, key, id) {
        HoldingIsFinal(events, more, id, key);
      }
    }
  }
}
