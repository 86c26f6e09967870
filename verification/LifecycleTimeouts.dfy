/**
 When the hypotheses about quiet streams hold: exactly the wait for a stream can time out, and in a run
 whose wait did not, the stream had ended before the status was derived and the cache cleaned up.
 */
module LifecycleTimeouts {
  import opened Ids
  import opened Wrappers
  import opened Lifecycle
  import opened LifecycleInvariants
  import opened LifecycleTheorems
  import opened LifecycleResults

  /** The reaper of the run gave up waiting for its stream. */
  predicate TimedOut(events: seq<Event>, id: RunId) {
    if events == [] then false
    else
      var before, last := events[..|events| - 1], events[|events| - 1];
      TimedOut(before, id) || (last.run == id && GivesUp(before, last))
  }

  predicate GivesUp(before: seq<Event>, last: Event) {
    && last.action == Wait(true) && Replay(before).Some? && last.run in Replay(before).value.runs
    && Replay(before).value.runs[last.run].reaper.waiter.WAwaitStream?
  }

  /** From the wait on, a stream that was not given up has ended or was never there. */
  predicate EndedOk(run: Run, timedOut: bool) {
    var waiter := run.reaper.waiter;
    !timedOut ==>
      && (waiter.WReadCancel? ==> Detached(run.stream))
      && (HasRead(waiter) ==> run.reaper.quietDerivation)
      && (CleanedUp(waiter) ==> run.reaper.quietCleanup)
  }

  lemma WaitKeepsEnded(run: Run, free: bool, timeout: bool, timedOut: bool)
    requires Ok(run) && WaitEnabled(run, free, timeout) && EndedOk(run, timedOut)
    ensures EndedOk(Step(run, free, Wait(timeout)), timedOut || (timeout && run.reaper.waiter.WAwaitStream?))
  {}

  /** Once the process is gone, a detached stream stays so. */
  lemma DetachedStays(run: Run, free: bool, action: Action)
    requires Enabled(run, free, action) && run.reaper.exit.Some? && Detached(run.stream)
    ensures Detached(Step(run, free, action).stream)
  {}

  lemma OthersKeepEnded(run: Run, free: bool, action: Action, timedOut: bool)
    requires Ok(run) && Enabled(run, free, action) && EndedOk(run, timedOut) && !action.Wait?
    ensures EndedOk(Step(run, free, action), timedOut)
  {
    if run.reaper.waiter.WReadCancel? && Detached(run.stream) {
      DetachedStays(run, free, action);
    }
    assert action.Start? || Step(run, free, action).reaper.waiter == run.reaper.waiter;
  }

  lemma StepKeepsEnded(run: Run, free: bool, action: Action, timedOut: bool)
    requires Ok(run) && Enabled(run, free, action) && EndedOk(run, timedOut)
    ensures EndedOk(Step(run, free, action), timedOut || (action == Wait(true) && run.reaper.waiter.WAwaitStream?))
  {
    if action.Wait? {
      WaitKeepsEnded(run, free, action.timeout, timedOut);
    } else {
      OthersKeepEnded(run, free, action, timedOut);
    }
  }

  lemma {:induction false} EndedInvariance(events: seq<Event>, id: RunId)
    requires Replay(events).Some? && id in Replay(events).value.runs
    ensures EndedOk(Replay(events).value.runs[id], TimedOut(events, id))
  {
    var before, last := events[..|events| - 1], events[|events| - 1];
    var state := Replay(before).value;
    if id in state.runs {
      EndedInvariance(before, id);
      if last.run == id {
        Invariance(before);
        StepKeepsEnded(state.runs[id], state.serverMu.None?, last.action, TimedOut(before, id));
      }
    }
  }

  /** Unless the wait for its stream timed out, a run's status is derived, and its cache cleaned up, after its stream has ended. */
  lemma QuietUnlessTimedOut(events: seq<Event>, id: RunId)
    requires Replay(events).Some? && id in Replay(events).value.runs && !TimedOut(events, id)
    ensures var reaper := Replay(events).value.runs[id].reaper;
      && (HasRead(reaper.waiter) ==> reaper.quietDerivation)
      && (CleanedUp(reaper.waiter) ==> reaper.quietCleanup)
  {
    EndedInvariance(events, id);
  }

  /** So if no wait timed out and all runs have been reaped, nothing is left in the registry. */
  lemma WithoutTimeoutsNothingLeaks(events: seq<Event>)
    requires Replay(events).Some?
    requires forall id :: id in Replay(events).value.runs ==>
      var run := Replay(events).value.runs[id]; run.entry.starter.SGone? || (CleanedUp(run.reaper.waiter) && !TimedOut(events, id))
    ensures Replay(events).value.cache.blocks == map[]
  {
    var state := Replay(events).value;
    forall id | id in state.runs ensures ReapedInTime(state.runs[id]) {
      if !state.runs[id].entry.starter.SGone? {
        QuietUnlessTimedOut(events, id);
        QuietCleanupIsInTime(events, id);
      }
    }
    NothingLeaks(events);
  }

  // ----- After the close -----

  predicate Closed(state: State, id: RunId, sent: seq<Message>) {
    id in state.runs && state.runs[id].channel.phase == Done && state.runs[id].channel.sent == sent
  }

  lemma ClosedIsSettled(run: Run, free: bool, action: Action)
    requires Ok(run) && Enabled(run, free, action) && run.channel.phase == Done
    ensures var after := Step(run, free, action).channel; after.phase == Done && after.sent == run.channel.sent
  {}

  /** Once a channel is Done nothing is sent on it any more, by anybody, in any continuation. */
  lemma {:induction false} NothingIsSentAfterClose(events: seq<Event>, more: seq<Event>, id: RunId, sent: seq<Message>)
    requires Replay(events).Some? && Closed(Replay(events).value, id, sent) && Replay(events + more).Some?
    ensures Closed(Replay(events + more).value, id, sent)
    decreases |more|
  {
    if more == [] {
      assert events + more == events;
    } else {
      var before, last := events + more[..|more| - 1], more[|more| - 1];
      assert (events + more)[..|events + more| - 1] == before && (events + more)[|events + more| - 1] == last;
      NothingIsSentAfterClose(events, more[..|more| - 1], id, sent);
      Invariance(before);
      var state := Replay(before).value;
      if last.run == id && !last.action.Register? {
        ClosedIsSettled(state.runs[id], state.serverMu.None?, last.action);
      }
    }
  }
}
