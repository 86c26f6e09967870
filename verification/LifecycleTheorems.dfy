/** What holds in every reachable state of the run lifecycle. */
module LifecycleTheorems {
  import opened Ids
  import opened Wrappers
  import opened Lifecycle
  import opened LifecycleInvariants
  import Cache

  // ----- The invariant over all runs -----

  ghost predicate AllOk(runs: map<RunId, Run>) {
    forall id :: id in runs ==> Ok(runs[id])
  }

  ghost predicate RunsOk(state: State) {
    AllOk(state.runs)
  }

  /** The server lock is held by the run whose `UnregisterRun` is inside, if any. */
  ghost predicate LockOk(state: State) {
    && (state.serverMu.Some? ==> state.serverMu.value in state.runs)
    && (forall id :: id in state.runs ==> (HoldsServerMu(state.runs[id]) <==> state.serverMu == Some(id)))
  }

  function RecordsOf(history: seq<Record>, id: RunId): seq<Status> {
    if history == [] then []
    else
      var last := history[|history| - 1];
      RecordsOf(history[..|history| - 1], id) + if last.run == id then [last.status] else []
  }

  function UpdatesOf(db: seq<Update>, id: RunId): seq<Update> {
    if db == [] then []
    else
      var last := db[|db| - 1];
      UpdatesOf(db[..|db| - 1], id) + if last.run == id then [last] else []
  }

  /** What the reaper of a run must have recorded by now, and what it must have passed to the database. */
  function Recorded(waiter: Waiter): seq<Status> {
    if Retired(waiter) then [waiter.status] else []
  }

  function Passed(id: RunId, waiter: Waiter): seq<Update> {
    if waiter.WDone? then [Update(id, waiter.status, waiter.message)] else []
  }

  function WaiterOf(state: State, id: RunId): Waiter {
    if id in state.runs then state.runs[id].reaper.waiter else WNone
  }

  predicate HistoryOf(state: State, id: RunId) {
    RecordsOf(state.history, id) == Recorded(WaiterOf(state, id))
  }

  predicate DatabaseOf(state: State, id: RunId) {
    UpdatesOf(state.db, id) == Passed(id, WaiterOf(state, id))
  }

  ghost predicate RecordsOk(state: State) {
    forall id :: HistoryOf(state, id) && DatabaseOf(state, id)
  }

  /** Only runs with a stream are referenced, not yet cleaned up or having used the cache since. */
  predicate MayHold(state: State, id: RunId) {
    && id in state.runs
    && !state.runs[id].stream.handler.HIdle?
    && (CleanedUp(state.runs[id].reaper.waiter) ==> state.runs[id].stream.lateCacheUse)
  }

  ghost predicate CacheOk(state: State) {
    && Cache.Sound(state.cache)
    && (forall key, id :: Cache.Held(state.cache, key, id) ==> MayHold(state, id))
  }

  ghost predicate Invariant(state: State) {
    RunsOk(state) && LockOk(state) && RecordsOk(state) && CacheOk(state)
  }

  lemma FreshIsOk()
    ensures Ok(FRESH)
  {}

  lemma OneRunChanges(runs: map<RunId, Run>, id: RunId, after: Run)
    requires Ok(after) && AllOk(runs)
    ensures AllOk(runs[id := after])
  {}

  lemma NextKeepsRuns(state: State, id: RunId, action: Action)
    requires RunsOk(state) && CanStep(state, id, action)
    ensures RunsOk(Next(state, id, action))
  {
    if action.Register? {
      FreshIsOk();
      OneRunChanges(state.runs, id, FRESH);
    } else {
      var after := Step(state.runs[id], state.serverMu.None?, action);
      StepKeepsOk(state.runs[id], state.serverMu.None?, action);
      OneRunChanges(state.runs, id, after);
    }
  }

  /** A step that ends holding the server lock held it before, or found it free. */
  lemma LockIsTakenFree(run: Run, free: bool, action: Action)
    requires Enabled(run, free, action) && HoldsServerMu(Step(run, free, action))
    ensures HoldsServerMu(run) || free
  {}

  lemma NextKeepsLock(state: State, id: RunId, action: Action)
    requires LockOk(state) && CanStep(state, id, action)
    ensures LockOk(Next(state, id, action))
  {
    if !action.Register? {
      var after := Step(state.runs[id], state.serverMu.None?, action);
      if HoldsServerMu(after) {
        LockIsTakenFree(state.runs[id], state.serverMu.None?, action);
      }
    }
  }

  /** The reaper records its status exactly when it retires, and never changes it afterwards. */
  lemma RetiringRecords(id: RunId, run: Run, free: bool, action: Action)
    requires Shape(run.entry, run.reaper, run.channel.consumer, run.stream.handler.HIdle?)
    requires Enabled(run, free, action)
    ensures Recorded(Step(run, free, action).reaper.waiter)
         == Recorded(run.reaper.waiter) + RecordsOf(Appended(id, run, action), id)
  {
    if !action.Wait? {
      assert Recorded(Step(run, free, action).reaper.waiter) == Recorded(run.reaper.waiter);
    }
  }

  /** It passes that status and its text to the database in the step after. */
  lemma RetiringUpdates(id: RunId, run: Run, free: bool, action: Action)
    requires Shape(run.entry, run.reaper, run.channel.consumer, run.stream.handler.HIdle?)
    requires Enabled(run, free, action)
    ensures Passed(id, Step(run, free, action).reaper.waiter)
         == Passed(id, run.reaper.waiter) + UpdatesOf(Updated(id, run, action), id)
  {
    if !action.Wait? {
      assert Passed(id, Step(run, free, action).reaper.waiter) == Passed(id, run.reaper.waiter);
    }
  }

  /** A step records nothing about another run. */
  lemma RecordsAreOwn(id: RunId, run: Run, action: Action, other: RunId)
    requires other != id
    ensures RecordsOf(Appended(id, run, action), other) == [] && UpdatesOf(Updated(id, run, action), other) == []
  {}

  lemma {:induction false} RecordsAppend(history: seq<Record>, more: seq<Record>, id: RunId)
    ensures RecordsOf(history + more, id) == RecordsOf(history, id) + RecordsOf(more, id)
  {
    if more == [] {
      assert history + more == history;
    } else {
      var n := |more| - 1;
      RecordsAppend(history, more[..n], id);
      assert (history + more)[..|history| + n] == history + more[..n];
    }
  }

  lemma {:induction false} UpdatesAppend(db: seq<Update>, more: seq<Update>, id: RunId)
    ensures UpdatesOf(db + more, id) == UpdatesOf(db, id) + UpdatesOf(more, id)
  {
    if more == [] {
      assert db + more == db;
    } else {
      var n := |more| - 1;
      UpdatesAppend(db, more[..n], id);
      assert (db + more)[..|db| + n] == db + more[..n];
    }
  }

  lemma NextProjects(state: State, id: RunId, action: Action, other: RunId)
    requires CanStep(state, id, action) && !action.Register?
    ensures var next, run := Next(state, id, action), state.runs[id];
      && next.history == state.history + Appended(id, run, action)
      && next.db == state.db + Updated(id, run, action)
      && WaiterOf(next, other)
         == if other == id then Step(run, state.serverMu.None?, action).reaper.waiter else WaiterOf(state, other)
  {}

  lemma NextKeepsRecordsOf(state: State, id: RunId, action: Action, other: RunId)
    requires CanStep(state, id, action) && !action.Register? && Ok(state.runs[id])
    requires HistoryOf(state, other) && DatabaseOf(state, other)
    ensures HistoryOf(Next(state, id, action), other) && DatabaseOf(Next(state, id, action), other)
  {
    var run := state.runs[id];
    NextProjects(state, id, action, other);
    RecordsAppend(state.history, Appended(id, run, action), other);
    UpdatesAppend(state.db, Updated(id, run, action), other);
    if other == id {
      RetiringRecords(id, run, state.serverMu.None?, action);
      RetiringUpdates(id, run, state.serverMu.None?, action);
    } else {
      RecordsAreOwn(id, run, action, other);
    }
  }

  lemma NextKeepsRecords(state: State, id: RunId, action: Action)
    requires RunsOk(state) && RecordsOk(state) && CanStep(state, id, action)
    ensures RecordsOk(Next(state, id, action))
  {
    var next := Next(state, id, action);
    forall other ensures HistoryOf(next, other) && DatabaseOf(next, other) {
      assert HistoryOf(state, other) && DatabaseOf(state, other);
      if !action.Register? {
        NextKeepsRecordsOf(state, id, action, other);
      }
    }
  }

  /** The handler is about to create or look up a block. */
  predicate UsesCache(run: Run, action: Action) {
    && action.Handle? && run.stream.handler.HGot?
    && (run.stream.handler.msg.CacheCreate? || run.stream.handler.msg.CacheLookup?)
  }

  /** Nobody gains a reference but the run itself, through its handler. */
  lemma HoldersAfter(cache: Cache.Registry, id: RunId, run: Run, action: Action, key: string, holder: RunId)
    requires Cache.Sound(cache)
    requires Cache.Held(CacheEffect(cache, id, run, action), key, holder)
    ensures Cache.Held(cache, key, holder) || (holder == id && UsesCache(run, action))
    ensures holder == id ==> !(action.Wait? && run.reaper.waiter.WCleanup?)
  {
    if action.Wait? && run.reaper.waiter.WCleanup? {
      Cache.CleanupForgetsRun(cache, id);
    }
  }

  lemma CacheStaysSound(cache: Cache.Registry, id: RunId, run: Run, action: Action)
    requires Cache.Sound(cache)
    ensures Cache.Sound(CacheEffect(cache, id, run, action))
  {
    if action.Wait? {
      Cache.CleanupForgetsRun(cache, id);
    } else if action.Handle? && run.stream.handler.HGot? {
      match run.stream.handler.msg
      case CacheCreate(key, shm, size) => Cache.RegisterIsSound(cache, key, shm, size, id);
      case CacheLookup(key) => Cache.LookupIsSound(cache, key, id);
      case CacheRelease(key) => Cache.ReleaseIsSound(cache, key, id);
      case _ =>
    }
  }

  /** Cleanup happens once, and cache use after it is remembered. */
  lemma LatenessIsKept(run: Run, free: bool, action: Action)
    requires Enabled(run, free, action)
    ensures var after := Step(run, free, action);
      && (run.stream.lateCacheUse ==> after.stream.lateCacheUse)
      && (!run.stream.handler.HIdle? ==> !after.stream.handler.HIdle?)
      && (CleanedUp(after.reaper.waiter) ==>
            CleanedUp(run.reaper.waiter) || (action.Wait? && run.reaper.waiter.WCleanup?))
      && (UsesCache(run, action) && CleanedUp(run.reaper.waiter) ==> after.stream.lateCacheUse)
  {}

  lemma NextKeepsCache(state: State, id: RunId, action: Action)
    requires CacheOk(state) && CanStep(state, id, action)
    ensures CacheOk(Next(state, id, action))
  {
    var next := Next(state, id, action);
    if !action.Register? {
      var run := state.runs[id];
      CacheStaysSound(state.cache, id, run, action);
      LatenessIsKept(run, state.serverMu.None?, action);
      forall key, holder | Cache.Held(next.cache, key, holder) ensures MayHold(next, holder) {
        HoldersAfter(state.cache, id, run, action, key, holder);
        assert Cache.Held(state.cache, key, holder) ==> MayHold(state, holder);
      }
    }
  }

  /** The invariant holds after every run of the system. */
  lemma {:induction false} Invariance(events: seq<Event>)
    requires Replay(events).Some?
    ensures Invariant(Replay(events).value)
  {
    if events != [] {
      var last := events[|events| - 1];
      Invariance(events[..|events| - 1]);
      var before := Replay(events[..|events| - 1]).value;
      NextKeepsRuns(before, last.run, last.action);
      NextKeepsLock(before, last.run, last.action);
      NextKeepsRecords(before, last.run, last.action);
      NextKeepsCache(before, last.run, last.action);
    }
  }
}
