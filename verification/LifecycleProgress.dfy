/** Nothing deadlocks, and once the processes are gone every run gets reaped. */
module LifecycleProgress {
  import opened Ids
  import opened Sequences
  import opened Lifecycle
  import opened LifecycleInvariants
  import opened LifecycleTheorems

  /** Steps of the Go side; the others are Python's, the user's or the operating system's. */
  predicate GoStep(action: Action) {
    action.Start? || action.Attach? || action.Handle? || action.Wait? || action.Consume? || action.SendCancel?
  }

  /** A Go step that waits for nobody outside: `Recv` fails only once the process is gone. */
  predicate Productive(run: Run, action: Action) {
    GoStep(action) && !(Alive(run) && run.stream.handler.HRecv? && action == Handle(false))
  }

  predicate CanProceed(run: Run, free: bool, action: Action) {
    Productive(run, action) && Enabled(run, free, action)
  }

  /** The handler has returned, or sits in a file dialog. */
  predicate HandlerRests(stream: Stream) {
    Detached(stream) || stream.handler.HDialog?
  }

  /** The run has no process and is not about to get one. */
  predicate Settled(run: Run) {
    !Alive(run) && !run.entry.starter.SRegistered?
  }

  /**
   Nothing is left to do for the run's goroutines but to wait for the outside: while the process
   lives, for its next message; at any time, for the user in a file dialog.
   */
  predicate AwaitsOutside(run: Run) {
    && run.entry.cancelsInFlight == 0
    && if Alive(run) then
         && run.entry.starter.SReturned? && run.channel.consumer.CRange? && run.channel.buffer == []
         && (HandlerRests(run.stream) || (run.stream.handler.HRecv? && run.stream.inbox == []))
       else
         || run.entry.starter.SGone?
         || (run.reaper.waiter.WDone? && run.channel.consumer.CEnded? && HandlerRests(run.stream))
  }

  /** All threads of the run have returned. */
  predicate Finished(run: Run) {
    Settled(run) && AwaitsOutside(run) && Detached(run.stream)
  }

  /**
   Whoever holds the server lock waits at most for `phaseMu`, whose holder waits at most for buffer
   space, which the consumer makes without waiting for anyone.
   */
  lemma LockHolderCanStep(run: Run)
    requires Ok(run) && HoldsServerMu(run)
    ensures exists action :: CanProceed(run, false, action)
  {
    if run.channel.phaseMu == Nobody {
      if run.entry.starter.SUnregistering? {
        assert CanProceed(run, false, Start(true));
      } else {
        assert CanProceed(run, false, Wait(true));
      }
    } else {
      HandlerCanStep(run, false);
    }
  }

  lemma HandlerCanStep(run: Run, free: bool)
    requires QueueOk(run.channel) && !HandlerRests(run.stream) && run.entry.starter.SReturned?
    requires run.channel.phaseMu == Nobody || run.stream.handler.HHold?
    requires Alive(run) && run.stream.handler.HRecv? ==> run.stream.inbox != []
    ensures exists action :: CanProceed(run, free, action)
  {
    if run.stream.handler.HHold? && |run.channel.buffer| == MESSAGE_BUFFER_SIZE {
      ConsumerCanStep(run, free);
    } else if Alive(run) && run.stream.handler.HRecv? {
      assert CanProceed(run, free, Handle(true));
    } else {
      assert CanProceed(run, free, Handle(false));
    }
  }

  lemma ConsumerCanStep(run: Run, free: bool)
    requires run.entry.starter.SReturned? && !run.channel.consumer.CEnded?
    requires run.channel.consumer.CNone? || run.channel.buffer != [] || run.channel.closes > 0
    ensures exists action :: CanProceed(run, free, action)
  {
    if run.channel.consumer.CNone? {
      assert CanProceed(run, free, Attach);
    } else {
      assert CanProceed(run, free, Consume);
    }
  }

  lemma WaiterCanStep(run: Run)
    requires Ok(run) && Settled(run) && run.entry.starter.SReturned? && !run.reaper.waiter.WDone?
    ensures exists action :: CanProceed(run, true, action)
  {
    var waiter := run.reaper.waiter;
    if waiter.WHold? && |run.channel.buffer| == MESSAGE_BUFFER_SIZE {
      ConsumerCanStep(run, true);
    } else if (waiter.WLock? || waiter.WUnregistering?) && run.channel.phaseMu != Nobody {
      HandlerCanStep(run, true);
    } else {
      assert CanProceed(run, true, Wait(true));
    }
  }

  lemma SettledRunCanStep(run: Run)
    requires Ok(run) && Settled(run) && !AwaitsOutside(run) && run.entry.cancelsInFlight == 0
    ensures exists action :: CanProceed(run, true, action)
  {
    if !run.entry.starter.SReturned? {
      assert CanProceed(run, true, Start(true));
    } else if !run.reaper.waiter.WDone? {
      WaiterCanStep(run);
    } else if !HandlerRests(run.stream) {
      HandlerCanStep(run, true);
    } else {
      ConsumerCanStep(run, true);
    }
  }

  /** While the process lives its threads contend for `phaseMu` and the buffer only, never in a circle. */
  lemma LiveRunCanStep(run: Run, free: bool)
    requires Ok(run) && Alive(run) && !AwaitsOutside(run) && run.entry.cancelsInFlight == 0
    ensures exists action :: CanProceed(run, free, action)
  {
    if !run.entry.starter.SReturned? {
      assert CanProceed(run, free, Start(true));
    } else if run.channel.consumer.CNone? || run.channel.buffer != [] {
      ConsumerCanStep(run, free);
    } else {
      HandlerCanStep(run, free);
    }
  }

  /** A live process connects, speaks, reads and ends as it likes. */
  predicate ProcessIsFree(run: Run, free: bool, msg: ClientMsg, exit: Exit) {
    && Enabled(run, free, Quit(exit))
    && (run.stream.handler.HIdle? && free ==> Enabled(run, free, Connect))
    && (!run.stream.handler.HIdle? ==> Enabled(run, free, ClientSend(msg)))
    && (run.stream.outbox != [] ==> Enabled(run, free, Observe))
  }

  /** Every receive and every send may fail, and every wait for a stream time out. */
  predicate FailuresAreFree(run: Run, free: bool, ok: bool) {
    && (run.entry.starter.SRegistered? ==> Enabled(run, free, Start(ok)))
    && (run.stream.handler.HRecv? && (ok ==> run.stream.inbox != []) ==> Enabled(run, free, Handle(ok)))
    && (run.stream.handler.HReply? ==> Enabled(run, free, Handle(ok)))
    && (run.reaper.waiter.WAwaitStream? ==> Enabled(run, free, Wait(true)))
  }

  /** Nothing the outside may do is left out: whatever the invariant holds of, a live process is free, ... */
  lemma LiveProcessIsFree(run: Run, free: bool, msg: ClientMsg, exit: Exit)
    requires Shape(run.entry, run.reaper, run.channel.consumer, run.stream.handler.HIdle?)
    requires LinksOk(run.entry, run.stream.handler, run.reaper.waiter, run.channel)
    requires Alive(run)
    ensures ProcessIsFree(run, free, msg, exit)
  {
    assert run.entry.registered;
  }

  /** ... so are failures, ... */
  lemma FailuresMayHappen(run: Run, free: bool, ok: bool)
    ensures FailuresAreFree(run, free, ok)
  {}

  /** ... and the user may cancel exactly the runs that are launched and not yet recorded. */
  lemma CancellableIff(run: Run, free: bool)
    requires Shape(run.entry, run.reaper, run.channel.consumer, run.stream.handler.HIdle?)
    ensures Enabled(run, free, CancelRun)
      <==> (run.entry.starter.SActive? || run.entry.starter.SReturned?) && !Retired(run.reaper.waiter)
  {}

  lemma RunCanStep(run: Run)
    requires Ok(run) && !AwaitsOutside(run)
    ensures exists action :: CanProceed(run, true, action)
  {
    if run.entry.cancelsInFlight > 0 {
      assert CanProceed(run, true, SendCancel(false));
    } else if run.entry.starter.SRegistered? {
      assert CanProceed(run, true, Start(true));
    } else if Alive(run) {
      LiveRunCanStep(run, true);
    } else {
      SettledRunCanStep(run);
    }
  }

  /**
   In every reachable state, a run of which not all threads wait for the outside can take a step that
   waits for nobody, or the holder of the server lock can.
   */
  lemma DeadlockFreedom(events: seq<Event>, id: RunId)
    requires Replay(events).Some? && id in Replay(events).value.runs
    requires !AwaitsOutside(Replay(events).value.runs[id])
    ensures var state := Replay(events).value;
      var mover := if state.serverMu.Some? then state.serverMu.value else id;
      && mover in state.runs
      && exists action :: Productive(state.runs[mover], action) && CanStep(state, mover, action)
  {
    Invariance(events);
    var state := Replay(events).value;
    var mover := if state.serverMu.Some? then state.serverMu.value else id;
    if state.serverMu.Some? {
      LockHolderCanStep(state.runs[mover]);
    } else {
      RunCanStep(state.runs[mover]);
    }
    var action :| CanProceed(state.runs[mover], state.serverMu.None?, action);
    assert CanStep(state, mover, action);
  }

  // ----- Everything ends -----

  function StarterWeight(starter: Starter): nat {
    match starter
    case SRegistered => 40
    case SStarted => 38
    case SActive => 36
    case SFailed => 2
    case SUnregistering => 1
    case _ => 0
  }

  function WaiterWeight(waiter: Waiter): nat {
    match waiter
    case WNone => 0
    case WWait => 34
    case WCheckStream => 32
    case WAwaitStream => 30
    case WReadCancel => 28
    case WReadError => 26
    case WReadFailed => 24
    case WReadCompleted => 22
    case WSend(_) => 20
    case WLock(_) => 18
    case WHold(_) => 16
    case WReadMessage(_) => 14
    case WCleanup(_, _) => 12
    case WUnregister(_, _) => 10
    case WUnregistering(_, _) => 8
    case WFinish(_, _) => 6
    case WRecord(_, _) => 4
    case WDone(_, _) => 0
  }

  function HandlerWeight(handler: Handler): nat {
    match handler
    case HGot(_) => 7
    case HStored(_) => 6
    case HSend(_) => 5
    case HHold(_) => 4
    case HDialog => 4
    case HReply => 3
    case HRecv => 1
    case _ => 0
  }

  function ConsumerWeight(consumer: Consumer): nat {
    match consumer case CNone => 2 case CRange => 1 case CEnded => 0
  }

  /** What happens to a run without its process: Go steps, and the user closing a dialog. */
  predicate Winding(action: Action) {
    GoStep(action) || action.AnswerDialog?
  }

  /** A bound on the steps a settled run has left. */
  function Weight(run: Run): nat {
    run.entry.cancelsInFlight + StarterWeight(run.entry.starter) + WaiterWeight(run.reaper.waiter)
    + HandlerWeight(run.stream.handler) + 8 * |run.stream.inbox|
    + |run.channel.buffer| + ConsumerWeight(run.channel.consumer)
  }

  lemma WaitShrinks(run: Run, free: bool, timeout: bool)
    requires WaitEnabled(run, free, timeout)
    ensures WaiterWeight(NextWaiter(run)) + |WaitOnChannel(run.reaper.waiter, run.channel).buffer|
          < WaiterWeight(run.reaper.waiter) + |run.channel.buffer|
    ensures WaitOnChannel(run.reaper.waiter, run.channel).consumer == run.channel.consumer
    ensures WaitOnEntry(run.reaper.waiter, run.entry).starter == run.entry.starter
    ensures WaitOnEntry(run.reaper.waiter, run.entry).cancelsInFlight == run.entry.cancelsInFlight
  {}

  lemma HandleShrinks(stream: Stream, channel: Channel, ok: bool, late: bool)
    requires FlagsOk(stream) && HandleEnabled(stream, channel, ok)
    ensures var after := HandleStep(stream, channel.phase, ok, late);
      HandlerWeight(after.handler) + 8 * |after.inbox| + |HandleOnChannel(stream.handler, channel).buffer|
      < HandlerWeight(stream.handler) + 8 * |stream.inbox| + |channel.buffer|
    ensures HandleOnChannel(stream.handler, channel).consumer == channel.consumer
  {}

  lemma WindingShrinks(run: Run, free: bool, action: Action)
    requires Ok(run) && Settled(run) && Winding(action) && Enabled(run, free, action)
    ensures Settled(Step(run, free, action)) && Weight(Step(run, free, action)) < Weight(run)
  {
    match action
    case Wait(timeout) => WaitShrinks(run, free, timeout);
    case Handle(ok) => HandleShrinks(run.stream, run.channel, ok, CleanedUp(run.reaper.waiter));
    case _ =>
  }

  ghost function Total(runs: map<RunId, Run>): nat
    decreases |runs|
  {
    if runs == map[] then 0
    else
      var id :| id in runs;
      Weight(runs[id]) + Total(runs - {id})
  }

  lemma {:induction false} TotalSplits(runs: map<RunId, Run>, id: RunId)
    requires id in runs
    ensures Total(runs) == Weight(runs[id]) + Total(runs - {id})
    decreases |runs|
  {
    var picked :| picked in runs && Total(runs) == Weight(runs[picked]) + Total(runs - {picked});
    if picked != id {
      TotalSplits(runs - {picked}, id);
      TotalSplits(runs - {id}, picked);
      assert runs - {picked} - {id} == runs - {id} - {picked};
    }
  }

  ghost predicate AllSettled(state: State) {
    forall id :: id in state.runs ==> Settled(state.runs[id])
  }

  lemma TotalShrinks(runs: map<RunId, Run>, id: RunId, after: Run)
    requires id in runs && Weight(after) < Weight(runs[id])
    ensures Total(runs[id := after]) < Total(runs)
  {
    TotalSplits(runs, id);
    TotalSplits(runs[id := after], id);
    assert runs[id := after] - {id} == runs - {id};
  }

  lemma NextShrinks(state: State, id: RunId, action: Action)
    requires AllSettled(state) && Winding(action) && CanStep(state, id, action) && Ok(state.runs[id])
    ensures AllSettled(Next(state, id, action)) && Total(Next(state, id, action).runs) < Total(state.runs)
  {
    var run := state.runs[id];
    var after := Step(run, state.serverMu.None?, action);
    WindingShrinks(run, state.serverMu.None?, action);
    assert Next(state, id, action).runs == state.runs[id := after];
    TotalShrinks(state.runs, id, after);
  }

  lemma ReplayLast(events: seq<Event>, last: Event)
    requires Replay(events + [last]).Some?
    ensures Replay(events).Some? && CanStep(Replay(events).value, last.run, last.action)
    ensures Replay(events + [last]).value == Next(Replay(events).value, last.run, last.action)
  {
    assert (events + [last])[..|events|] == events;
  }

  lemma OneMoreShrinks(events: seq<Event>, more: seq<Event>, last: Event)
    requires Replay(events + (more + [last])).Some? && Winding(last.action)
    ensures Replay(events + more).Some?
    ensures AllSettled(Replay(events + more).value) ==>
      && AllSettled(Replay(events + (more + [last])).value)
      && Total(Replay(events + (more + [last])).value.runs) < Total(Replay(events + more).value.runs)
  {
    Reassociate(events, more, [last]);
    ReplayLast(events + more, last);
    if AllSettled(Replay(events + more).value) {
      Invariance(events + more);
      NextShrinks(Replay(events + more).value, last.run, last.action);
    }
  }

  /** Once no process is left, at most `Total` more steps are taken, the closing of dialogs included ... */
  lemma {:induction false} ReapingIsBounded(events: seq<Event>, more: seq<Event>)
    requires Replay(events + more).Some? && Replay(events).Some? && AllSettled(Replay(events).value)
    requires forall i :: 0 <= i < |more| ==> Winding(more[i].action)
    ensures AllSettled(Replay(events + more).value)
    ensures Total(Replay(events + more).value.runs) + |more| <= Total(Replay(events).value.runs)
    decreases |more|
  {
    if more == [] {
      assert events + more == events;
    } else {
      var n := |more| - 1;
      assert more == more[..n] + [more[n]];
      OneMoreShrinks(events, more[..n], more[n]);
      ReapingIsBounded(events, more[..n]);
    }
  }

  /** ... and when the Go side can take no more, every thread has returned but for open file dialogs. */
  lemma StuckMeansFinished(events: seq<Event>, id: RunId)
    requires Replay(events).Some? && AllSettled(Replay(events).value)
    requires forall other, action :: GoStep(action) ==> !CanStep(Replay(events).value, other, action)
    requires id in Replay(events).value.runs
    ensures var run := Replay(events).value.runs[id];
      Finished(run) || (AwaitsOutside(run) && run.stream.handler.HDialog?)
  {
    if !AwaitsOutside(Replay(events).value.runs[id]) {
      DeadlockFreedom(events, id);
    }
    Invariance(events);
  }
}
