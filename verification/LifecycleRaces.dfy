/** A race that the demotion of a cancelled run's errors loses: the run is recorded before the consumer handles them. */
module LifecycleRaces {
  import opened Ids
  import opened Wrappers
  import opened Lifecycle
  import opened LifecycleInvariants
  import opened LifecycleTheorems
  import opened LifecycleResults
  import opened LifecycleStreams
  import Cache

  const LAST_WORDS := Error("m", "", 3)

  const LAST_MSG := ErrorMsg("m", "", 3)

  const LAST_FLAGS := Flags(true, None, Some("m"))

  const STOPPED := Some(ActiveRun(Running, true))

  /** A run that was cancelled, sent an error and ended, nothing of which the consumer has handled. */
  function Stopped(waiter: Waiter): Run {
    var run := Connection(HRecv, LAST_FLAGS, [DONE], [LAST_WORDS], [LAST_MSG]);
    run.(entry := run.entry.(active := STOPPED, cancelsInFlight := 1, cancelledInTime := true),
         reaper := run.reaper.(waiter := waiter, exit := Some(CRASH)))
  }

  /** The same once its status is on the channel ... */
  function StoppedSent(waiter: Waiter): Run {
    var run, sent := Stopped(waiter), [LAST_MSG, StatusMsg(Cancelled)];
    run.(channel := run.channel.(buffer := sent, sent := sent))
  }

  /** ... and once the channel is closed and the run unregistered. */
  function StoppedGone(waiter: Waiter, active: Option<ActiveRun>): Run {
    var run := StoppedSent(waiter);
    run.(entry := run.entry.(registered := false, active := active),
         channel := run.channel.(phase := Done, closes := 1))
  }

  lemma TheErrorIsSent(id: RunId)
    ensures Reachable(Alone(id, Connection(HRecv, LAST_FLAGS, [DONE], [LAST_WORDS], [LAST_MSG])))
  {
    CanSpeak(id, LAST_WORDS, DONE);
    ErrorIsTaken(id, LAST_WORDS);
  }

  lemma TheRunIsCancelled(id: RunId)
    ensures Reachable(Alone(id, Stopped(WWait)))
  {
    TheErrorIsSent(id);
    var live := Connection(HRecv, LAST_FLAGS, [DONE], [LAST_WORDS], [LAST_MSG]);
    Moves(id, live, CancelRun, CancelStep(live));
    Moves(id, CancelStep(live), Quit(CRASH), Stopped(WWait));
  }

  lemma TheCancelIsRead(id: RunId)
    ensures Reachable(Alone(id, Stopped(WSend(Cancelled))))
  {
    TheRunIsCancelled(id);
    Moves(id, Stopped(WWait), Wait(true), Stopped(WCheckStream));
    Moves(id, Stopped(WCheckStream), Wait(true), Stopped(WAwaitStream));
    Moves(id, Stopped(WAwaitStream), Wait(true), Stopped(WReadCancel));
    Moves(id, Stopped(WReadCancel), Wait(true), Stopped(WSend(Cancelled)));
  }

  lemma CancelledIsSent(id: RunId)
    ensures Reachable(Alone(id, StoppedSent(WReadMessage(Cancelled))))
  {
    TheCancelIsRead(id);
    var hold := Stopped(WHold(Cancelled));
    hold := hold.(channel := hold.channel.(phaseMu := ByWaiter));
    Moves(id, Stopped(WSend(Cancelled)), Wait(true), Stopped(WLock(Cancelled)));
    Moves(id, Stopped(WLock(Cancelled)), Wait(true), hold);
    assert [LAST_MSG] + [StatusMsg(Cancelled)] == [LAST_MSG, StatusMsg(Cancelled)];
    Moves(id, hold, Wait(true), StoppedSent(WReadMessage(Cancelled)));
  }

  lemma TheCacheIsCleanedUp(id: RunId)
    ensures Reachable(Early(id, StoppedSent(WUnregister(Cancelled, "")), None))
  {
    CancelledIsSent(id);
    Moves(id, StoppedSent(WReadMessage(Cancelled)), Wait(true), StoppedSent(WCleanup(Cancelled, "")));
    Cache.CleanedNothing(Cache.EMPTY, id);
    Goes(Early(id, StoppedSent(WCleanup(Cancelled, "")), None), id, Wait(true),
         Early(id, StoppedSent(WUnregister(Cancelled, "")), None));
  }

  lemma TheLockIsHeld(id: RunId)
    ensures Reachable(Early(id, StoppedSent(WUnregistering(Cancelled, "")), Some(id)))
  {
    TheCacheIsCleanedUp(id);
    Goes(Early(id, StoppedSent(WUnregister(Cancelled, "")), None), id, Wait(true),
         Early(id, StoppedSent(WUnregistering(Cancelled, "")), Some(id)));
  }

  lemma TheChannelIsClosed(id: RunId)
    ensures Reachable(Early(id, StoppedGone(WFinish(Cancelled, ""), STOPPED), None))
  {
    TheLockIsHeld(id);
    Goes(Early(id, StoppedSent(WUnregistering(Cancelled, "")), Some(id)), id, Wait(true),
         Early(id, StoppedGone(WFinish(Cancelled, ""), STOPPED), None));
  }

  /** The run is recorded as Cancelled, an error it sent is still to be handled, and by then it no longer counts as cancelled. */
  predicate HandledTooLate(state: State, id: RunId) {
    && id in state.runs && RecordsOf(state.history, id) == [Cancelled]
    && state.runs[id].channel.delivered == [] && LAST_MSG in state.runs[id].channel.buffer
    && !CountsAsCancelled(state.runs[id])
  }

  /** So the consumer can open the error pane for a run that ended Cancelled. */
  lemma CancelledErrorIsNotDemoted(id: RunId)
    ensures exists state :: Reachable(state) && HandledTooLate(state, id)
  {
    TheChannelIsClosed(id);
    var last := World(id, StoppedGone(WRecord(Cancelled, ""), None), None, [Record(id, Cancelled)], [], Cache.EMPTY);
    Goes(Early(id, StoppedGone(WFinish(Cancelled, ""), STOPPED), None), id, Wait(true), last);
    assert last.history[..0] == [];
    assert HandledTooLate(last, id);
  }
}
