/**
 What the frontend knows about runs and parallel groups (`useScripts.ts`). Run events, the results of
 start requests and group collection arrive in an order nobody controls.
 */
module RunStore {
  import opened Sequences
  import opened Wrappers

  type Id = string

  datatype RunStatus = Running | Completed | Failed | Cancelled

  datatype Progress = Progress(current: int, total: int, caption: string)

  datatype Failure = Failure(message: string, traceback: string)

  datatype Display = Display(
    status: RunStatus, output: seq<string>, progress: Option<Progress>, failure: Option<Failure>)

  /** What is shown for one run. */
  datatype Run = Run(scriptID: Id, shown: Display)

  datatype Payload =
    | Output(text: string) | ProgressNote(progress: Progress) | Status(state: RunStatus) | Error(failure: Failure)

  datatype RunEvent = RunEvent(runID: Id, scriptID: Id, payload: Payload)

  type Runs = map<Id, Run>

  const BLANK := Display(Running, [], None, None)

  /** What each of the four handlers changes. */
  function Updated(shown: Display, payload: Payload): Display {
    match payload
    case Output(text) => shown.(output := shown.output + [text])
    case ProgressNote(progress) => shown.(progress := Some(progress))
    case Status(state) => shown.(status := state)
    case Error(failure) => shown.(failure := Some(failure))
  }

  /** The handler every run event goes through: an unknown run is created from the event. */
  function AfterEvent(runs: Runs, event: RunEvent): Runs {
    var run := if event.runID in runs then runs[event.runID] else Run(event.scriptID, BLANK);
    runs[event.runID := run.(shown := Updated(run.shown, event.payload))]
  }

  function AfterEvents(runs: Runs, events: seq<RunEvent>): Runs
    decreases events
  {
    if events == [] then runs else AfterEvents(AfterEvent(runs, events[0]), events[1..])
  }

  /** The result of a start request: runs that events already created are left alone. */
  function AfterStart(runs: Runs, runIDs: seq<Id>, scriptID: Id): Runs
    decreases runIDs
  {
    if runIDs == [] then runs
    else
      var first := runIDs[0];
      AfterStart(if first in runs then runs else runs[first := Run(scriptID, BLANK)], runIDs[1..], scriptID)
  }

  // ----- The handler works on shared objects -----

  /** One run object: the previous map and the next one hold the same object. */
  class RunObject {
    const runID: Id
    const scriptID: Id
    var shown: Display

    constructor (runID: Id, scriptID: Id)
      ensures this.runID == runID && this.scriptID == scriptID && shown == BLANK
    {
      this.runID, this.scriptID, shown := runID, scriptID, BLANK;
    }

    /** The four updaters assign to the object they are given. */
    method Update(payload: Payload)
      modifies this
      ensures shown == Updated(old(shown), payload)
    {
      match payload
      case Output(text) => shown := shown.(output := shown.output + [text]);
      case ProgressNote(progress) => shown := shown.(progress := Some(progress));
      case Status(state) => shown := shown.(status := state);
      case Error(failure) => shown := shown.(failure := Some(failure));
    }
  }

  type Table = map<Id, RunObject>

  /** Every entry is filed under its own id, so distinct entries are distinct objects. */
  ghost predicate Filed(table: Table) {
    forall id :: id in table ==> table[id].runID == id
  }

  /** What a table shows at the moment. */
  ghost function View(table: Table): Runs
    reads set id | id in table :: table[id]
  {
    map id | id in table :: Run(table[id].scriptID, table[id].shown)
  }

  /**
   The updater given to `setRuns`. The new table shows the run with the event applied; if the run was
   known, so does the previous table, because the object is shared.
   */
  method OnRunEvent(prev: Table, event: RunEvent) returns (next: Table)
    requires Filed(prev)
    modifies if event.runID in prev then {prev[event.runID]} else {}
    ensures Filed(next)
    ensures View(next) == AfterEvent(old(View(prev)), event)
    ensures View(prev) == if event.runID in prev then AfterEvent(old(View(prev)), event) else old(View(prev))
  {
    var run: RunObject;
    if event.runID in prev {
      run := prev[event.runID];
    } else {
      run := new RunObject(event.runID, event.scriptID);
    }
    run.Update(event.payload);
    next := prev[event.runID := run];
  }

  /** React's development mode calls an updater twice with the same previous state and keeps the second result. */
  method OnRunEventTwice(prev: Table, event: RunEvent) returns (next: Table)
    requires Filed(prev)
    modifies if event.runID in prev then {prev[event.runID]} else {}
    ensures Filed(next)
    ensures View(next) == TwiceCalled(old(View(prev)), event)
  {
    var first := OnRunEvent(prev, event);
    next := OnRunEvent(prev, event);
  }

  function TwiceCalled(runs: Runs, event: RunEvent): Runs {
    AfterEvent(if event.runID in runs then AfterEvent(runs, event) else runs, event)
  }

  /** The second call shows exactly for the output of a run that was already known: the line appears twice. */
  lemma TwiceIsOnceIff(runs: Runs, event: RunEvent)
    ensures TwiceCalled(runs, event) == AfterEvent(runs, event)
      <==> !(event.runID in runs && event.payload.Output?)
  {
    if event.runID in runs {
      var once, twice := AfterEvent(runs, event)[event.runID].shown, TwiceCalled(runs, event)[event.runID].shown;
      if event.payload.Output? {
        assert |twice.output| == |once.output| + 1;
      } else {
        assert once == twice;
      }
    }
  }

  // ----- What a run shows, read off its events -----

  function Texts(events: seq<RunEvent>, id: Id): seq<string> {
    if events == [] then []
    else
      var last := events[|events| - 1];
      Texts(events[..|events| - 1], id) + if last.runID == id && last.payload.Output? then [last.payload.text] else []
  }

  function LastStatus(events: seq<RunEvent>, id: Id): Option<RunStatus> {
    if events == [] then None
    else
      var last := events[|events| - 1];
      if last.runID == id && last.payload.Status? then Some(last.payload.state)
      else LastStatus(events[..|events| - 1], id)
  }

  function LastFailure(events: seq<RunEvent>, id: Id): Option<Failure> {
    if events == [] then None
    else
      var last := events[|events| - 1];
      if last.runID == id && last.payload.Error? then Some(last.payload.failure)
      else LastFailure(events[..|events| - 1], id)
  }

  function LastProgress(events: seq<RunEvent>, id: Id): Option<Progress> {
    if events == [] then None
    else
      var last := events[|events| - 1];
      if last.runID == id && last.payload.ProgressNote? then Some(last.payload.progress)
      else LastProgress(events[..|events| - 1], id)
  }

  /** The script named by the first event of a run. */
  function FirstScript(events: seq<RunEvent>, id: Id): Option<Id> {
    if events == [] then None
    else if events[0].runID == id then Some(events[0].scriptID)
    else FirstScript(events[1..], id)
  }

  lemma {:induction false} LastEvent(runs: Runs, events: seq<RunEvent>)
    requires events != []
    ensures AfterEvents(runs, events)
      == AfterEvent(AfterEvents(runs, events[..|events| - 1]), events[|events| - 1])
    decreases events
  {
    if |events| > 1 {
      LastEvent(AfterEvent(runs, events[0]), events[1..]);
      assert events[1..][..|events| - 2] == events[..|events| - 1][1..];
    } else {
      assert events[..0] == [];
      assert events[1..] == [];
    }
  }

  lemma {:induction false} MoreEvents(runs: Runs, before: seq<RunEvent>, after: seq<RunEvent>)
    ensures AfterEvents(runs, before + after) == AfterEvents(AfterEvents(runs, before), after)
    decreases before
  {
    if before == [] {
      assert before + after == after;
    } else {
      assert (before + after)[1..] == before[1..] + after;
      MoreEvents(AfterEvent(runs, before[0]), before[1..], after);
    }
  }

  /** What a run shows at first: what is known of it, or a blank display. */
  function Initially(runs: Runs, id: Id): Display {
    if id in runs then runs[id].shown else BLANK
  }

  function OrElse<T>(last: Option<T>, first: T): T {
    if last.Some? then last.value else first
  }

  predicate Mentioned(events: seq<RunEvent>, id: Id) {
    exists i :: 0 <= i < |events| && events[i].runID == id
  }

  lemma MentionedLast(events: seq<RunEvent>, id: Id)
    requires events != []
    ensures Mentioned(events, id) <==> Mentioned(events[..|events| - 1], id) || events[|events| - 1].runID == id
  {
    if Mentioned(events[..|events| - 1], id) {
      var i :| 0 <= i < |events| - 1 && events[..|events| - 1][i].runID == id;
      assert events[i].runID == id;
    }
    if events[|events| - 1].runID == id {
      assert Mentioned(events, id);
    }
    if Mentioned(events, id) && events[|events| - 1].runID != id {
      var i :| 0 <= i < |events| && events[i].runID == id;
      assert events[..|events| - 1][i].runID == id;
    }
  }

  /** What a run shows in the end: its own lines added, and its own last status, progress and error, if any. */
  function Shown(first: Display, events: seq<RunEvent>, id: Id): Display {
    Display(
      OrElse(LastStatus(events, id), first.status),
      first.output + Texts(events, id),
      if LastProgress(events, id).Some? then LastProgress(events, id) else first.progress,
      if LastFailure(events, id).Some? then LastFailure(events, id) else first.failure)
  }

  lemma ShownStep(first: Display, events: seq<RunEvent>, id: Id)
    requires events != []
    ensures var before, last := events[..|events| - 1], events[|events| - 1];
      Shown(first, events, id)
      == if last.runID == id then Updated(Shown(first, before, id), last.payload) else Shown(first, before, id)
  {
    var before, last := events[..|events| - 1], events[|events| - 1];
    if last.runID == id && last.payload.Output? {
      Reassociate(first.output, Texts(before, id), [last.payload.text]);
    } else {
      assert Texts(before, id) + [] == Texts(before, id);
    }
  }

  /**
   Whether it was known before or comes up with its first event: a run is listed iff it was known or
   an event names it, and it shows what its own events say, in order.
   */
  lemma {:induction false} RunShowsItsEvents(runs: Runs, events: seq<RunEvent>, id: Id)
    ensures id in AfterEvents(runs, events) <==> id in runs || Mentioned(events, id)
    ensures Initially(AfterEvents(runs, events), id) == Shown(Initially(runs, id), events, id)
    decreases |events|
  {
    if events == [] {
      assert Initially(runs, id).output + [] == Initially(runs, id).output;
    } else {
      var n := |events| - 1;
      RunShowsItsEvents(runs, events[..n], id);
      LastEvent(runs, events);
      MentionedLast(events, id);
      OneEventShows(AfterEvents(runs, events[..n]), events[n], id);
      ShownStep(Initially(runs, id), events, id);
    }
  }

  /** A run first heard of by its events is running until one of them says otherwise, and shows nothing but what they say. */
  lemma NewRunShowsOnlyItsEvents(runs: Runs, events: seq<RunEvent>, id: Id)
    requires id !in runs && Mentioned(events, id)
    ensures id in AfterEvents(runs, events)
    ensures AfterEvents(runs, events)[id].shown
         == Display(OrElse(LastStatus(events, id), Running), Texts(events, id), LastProgress(events, id), LastFailure(events, id))
  {
    RunShowsItsEvents(runs, events, id);
    assert [] + Texts(events, id) == Texts(events, id);
  }

  lemma OneEventShows(runs: Runs, event: RunEvent, id: Id)
    ensures id in AfterEvent(runs, event) <==> id in runs || event.runID == id
    ensures Initially(AfterEvent(runs, event), id)
         == if event.runID == id then Updated(Initially(runs, id), event.payload) else Initially(runs, id)
  {}

  // ----- The start result may arrive anywhere among the events -----

  lemma {:induction false} StartAt(runs: Runs, runIDs: seq<Id>, scriptID: Id, id: Id)
    ensures id in AfterStart(runs, runIDs, scriptID) <==> id in runs || id in runIDs
    ensures id in runs ==> AfterStart(runs, runIDs, scriptID)[id] == runs[id]
    ensures id !in runs && id in runIDs ==> AfterStart(runs, runIDs, scriptID)[id] == Run(scriptID, BLANK)
    decreases runIDs
  {
    if runIDs != [] {
      var first := runIDs[0];
      StartAt(if first in runs then runs else runs[first := Run(scriptID, BLANK)], runIDs[1..], scriptID, id);
    }
  }

  /** Once a run is known its script never changes; an unknown run gets the script of its first event. */
  lemma {:induction false} ScriptAfter(runs: Runs, events: seq<RunEvent>, id: Id)
    ensures id in runs ==> id in AfterEvents(runs, events) && AfterEvents(runs, events)[id].scriptID == runs[id].scriptID
    ensures id !in runs ==> (id in AfterEvents(runs, events) <==> FirstScript(events, id).Some?)
    ensures id !in runs && FirstScript(events, id).Some? ==>
      AfterEvents(runs, events)[id].scriptID == FirstScript(events, id).value
    decreases events
  {
    if events != [] {
      ScriptAfter(AfterEvent(runs, events[0]), events[1..], id);
    }
  }

  /** No event names another script than the start request for a run it introduces. */
  predicate Agrees(runs: Runs, events: seq<RunEvent>, runIDs: seq<Id>, scriptID: Id) {
    forall id :: id in runIDs && id !in runs ==> FirstScript(events, id) in {None, Some(scriptID)}
  }

  lemma StartCommutesWithOne(runs: Runs, event: RunEvent, runIDs: seq<Id>, scriptID: Id)
    requires event.runID in runs || event.runID !in runIDs || event.scriptID == scriptID
    ensures AfterEvent(AfterStart(runs, runIDs, scriptID), event) == AfterStart(AfterEvent(runs, event), runIDs, scriptID)
  {
    var left := AfterEvent(AfterStart(runs, runIDs, scriptID), event);
    var right := AfterStart(AfterEvent(runs, event), runIDs, scriptID);
    StartAt(runs, runIDs, scriptID, event.runID);
    forall id ensures id in left <==> id in right {
      StartAt(runs, runIDs, scriptID, id);
      StartAt(AfterEvent(runs, event), runIDs, scriptID, id);
    }
    forall id | id in left ensures left[id] == right[id] {
      StartAt(runs, runIDs, scriptID, id);
      StartAt(AfterEvent(runs, event), runIDs, scriptID, id);
    }
  }

  lemma {:induction false} StartCommutes(runs: Runs, events: seq<RunEvent>, runIDs: seq<Id>, scriptID: Id)
    requires Agrees(runs, events, runIDs, scriptID)
    ensures AfterEvents(AfterStart(runs, runIDs, scriptID), events)
      == AfterStart(AfterEvents(runs, events), runIDs, scriptID)
    decreases events
  {
    if events != [] {
      var event := events[0];
      if event.runID in runIDs && event.runID !in runs {
        assert FirstScript(events, event.runID) == Some(event.scriptID);
      }
      StartCommutesWithOne(runs, event, runIDs, scriptID);
      forall id | id in runIDs && id !in AfterEvent(runs, event)
        ensures FirstScript(events[1..], id) in {None, Some(scriptID)}
      {
        assert FirstScript(events, id) == FirstScript(events[1..], id);
      }
      StartCommutes(AfterEvent(runs, event), events[1..], runIDs, scriptID);
    }
  }

  /**
   The start result gives the same final map before and after `early`, whatever follows, exactly when
   no run it names was introduced among them by an event with another script.
   */
  lemma ArrivalOrderIrrelevantIff(runs: Runs, early: seq<RunEvent>, late: seq<RunEvent>, runIDs: seq<Id>, scriptID: Id)
    ensures AfterEvents(AfterStart(AfterEvents(runs, early), runIDs, scriptID), late)
        == AfterEvents(AfterStart(runs, runIDs, scriptID), early + late)
      <==> Agrees(runs, early, runIDs, scriptID)
  {
    var known := AfterStart(runs, runIDs, scriptID);
    var met := AfterEvents(runs, early);
    MoreEvents(known, early, late);
    if Agrees(runs, early, runIDs, scriptID) {
      StartCommutes(runs, early, runIDs, scriptID);
    } else {
      var id :| id in runIDs && id !in runs && FirstScript(early, id) !in {None, Some(scriptID)};
      StartAt(runs, runIDs, scriptID, id);
      ScriptAfter(known, early + late, id);
      ScriptAfter(runs, early, id);
      StartAt(met, runIDs, scriptID, id);
      ScriptAfter(AfterStart(met, runIDs, scriptID), late, id);
    }
  }

  /**
   A run first heard of by a rejected cache_set, whose event names no script: whether that event or
   the start result comes first shows in the end, whatever follows.
   */
  lemma RejectedCacheSetShowsTheOrder(runs: Runs, id: Id, scriptID: Id, failure: Failure, late: seq<RunEvent>)
    requires id !in runs && scriptID != ""
    ensures var early := [RunEvent(id, "", Error(failure))];
      AfterEvents(AfterStart(AfterEvents(runs, early), [id], scriptID), late)
      != AfterEvents(AfterStart(runs, [id], scriptID), early + late)
  {
    var early := [RunEvent(id, "", Error(failure))];
    ArrivalOrderIrrelevantIff(runs, early, late, [id], scriptID);
    assert FirstScript(early, id) == Some("");
    assert id in [id];
  }

  /** The parallel insertion loop. */
  method InsertStarted(prev: Runs, runIDs: seq<Id>, scriptID: Id) returns (next: Runs)
    ensures next == AfterStart(prev, runIDs, scriptID)
  {
    next := prev;
    var i := 0;
    while i < |runIDs|
      invariant 0 <= i <= |runIDs|
      invariant AfterStart(next, runIDs[i..], scriptID) == AfterStart(prev, runIDs, scriptID)
    {
      if runIDs[i] !in next {
        next := next[runIDs[i] := Run(scriptID, BLANK)];
      }
      i := i + 1;
    }
  }

  // ----- Group collection -----

  datatype Group = Group(scriptID: Id, runIDs: seq<Id>, startedAt: int)

  type Groups = map<Id, Group>

  predicate Terminal(runs: Runs, id: Id) {
    id in runs && runs[id].shown.status != Running
  }

  predicate AllTerminal(runs: Runs, runIDs: seq<Id>) {
    forall i :: 0 <= i < |runIDs| ==> Terminal(runs, runIDs[i])
  }

  function Collected(groups: Groups, runs: Runs): Groups {
    map g | g in groups && !AllTerminal(runs, groups[g].runIDs) :: groups[g]
  }

  method EveryTerminal(runs: Runs, runIDs: seq<Id>) returns (all: bool)
    ensures all <==> AllTerminal(runs, runIDs)
  {
    var i := 0;
    while i < |runIDs|
      invariant 0 <= i <= |runIDs|
      invariant forall j :: 0 <= j < i ==> Terminal(runs, runIDs[j])
    {
      if !(runIDs[i] in runs && runs[runIDs[i]].shown.status != Running) {
        return false;
      }
      i := i + 1;
    }
    return true;
  }

  /** The group effect: delete finished groups from a copy, in whatever order the map lists them. */
  method CollectGroups(prev: Groups, runs: Runs) returns (next: Groups)
    ensures next == Collected(prev, runs)
  {
    next := prev;
    var todo := prev.Keys;
    while todo != {}
      invariant todo <= prev.Keys
      invariant next.Keys <= prev.Keys
      invariant forall g :: g in prev ==>
        (g in next <==> g in todo || !AllTerminal(runs, prev[g].runIDs))
      invariant forall g :: g in next ==> next[g] == prev[g]
      decreases todo
    {
      var g :| g in todo;
      var finished := EveryTerminal(runs, prev[g].runIDs);
      if finished {
        next := next - {g};
      }
      todo := todo - {g};
    }
  }

  // ----- Whole sessions -----

  datatype Store = Store(runs: Runs, groups: Groups)

  datatype Step =
    | Arrive(event: RunEvent)
    | Started(runIDs: seq<Id>, scriptID: Id)
    | GroupStarted(groupID: Id, group: Group)
    | Collect

  function AfterStep(store: Store, step: Step): Store {
    match step
    case Arrive(event) => store.(runs := AfterEvent(store.runs, event))
    case Started(runIDs, scriptID) => store.(runs := AfterStart(store.runs, runIDs, scriptID))
    case GroupStarted(groupID, group) =>
      Store(AfterStart(store.runs, group.runIDs, group.scriptID), store.groups[groupID := group])
    case Collect => store.(groups := Collected(store.groups, store.runs))
  }

  function Played(store: Store, steps: seq<Step>): Store
    decreases steps
  {
    if steps == [] then store else Played(AfterStep(store, steps[0]), steps[1..])
  }

  /** The backend never reports the status "running", and group ids are fresh. */
  predicate Ordinary(step: Step, groupID: Id) {
    && (step.Arrive? && step.event.payload.Status? ==> step.event.payload.state != Running)
    && (step.GroupStarted? ==> step.groupID != groupID)
  }

  lemma TerminalStays(store: Store, step: Step, groupID: Id, id: Id)
    requires Ordinary(step, groupID) && Terminal(store.runs, id)
    ensures Terminal(AfterStep(store, step).runs, id)
  {
    match step
    case Started(runIDs, scriptID) => StartAt(store.runs, runIDs, scriptID, id);
    case GroupStarted(_, group) => StartAt(store.runs, group.runIDs, group.scriptID, id);
    case _ =>
  }

  /** A group is listed as started, or it is gone and all its members are finished. */
  predicate Tracked(store: Store, groupID: Id, group: Group) {
    if groupID in store.groups then store.groups[groupID] == group else AllTerminal(store.runs, group.runIDs)
  }

  lemma StepTracks(store: Store, step: Step, groupID: Id, group: Group)
    requires Tracked(store, groupID, group) && Ordinary(step, groupID)
    ensures Tracked(AfterStep(store, step), groupID, group)
  {
    if groupID !in store.groups {
      forall i | 0 <= i < |group.runIDs| ensures Terminal(AfterStep(store, step).runs, group.runIDs[i]) {
        assert Terminal(store.runs, group.runIDs[i]);
        TerminalStays(store, step, groupID, group.runIDs[i]);
      }
    }
  }

  lemma {:induction false} SessionTracks(store: Store, steps: seq<Step>, groupID: Id, group: Group)
    requires Tracked(store, groupID, group)
    requires forall i :: 0 <= i < |steps| ==> Ordinary(steps[i], groupID)
    ensures Tracked(Played(store, steps), groupID, group)
    decreases steps
  {
    if steps != [] {
      StepTracks(store, steps[0], groupID, group);
      SessionTracks(AfterStep(store, steps[0]), steps[1..], groupID, group);
    }
  }

  lemma KnownStays(store: Store, step: Step, id: Id)
    requires id in store.runs
    ensures id in AfterStep(store, step).runs
  {
    match step
    case Started(runIDs, scriptID) => StartAt(store.runs, runIDs, scriptID, id);
    case GroupStarted(_, group) => StartAt(store.runs, group.runIDs, group.scriptID, id);
    case _ =>
  }

  lemma {:induction false} KnownForever(store: Store, steps: seq<Step>, id: Id)
    requires id in store.runs
    ensures id in Played(store, steps).runs
    decreases steps
  {
    if steps != [] {
      KnownStays(store, steps[0], id);
      KnownForever(AfterStep(store, steps[0]), steps[1..], id);
    }
  }

  /** A group's members are known from its start on, whatever arrives: those that were not are running. */
  lemma MembersAreKnown(store: Store, groupID: Id, group: Group, steps: seq<Step>, id: Id)
    requires id in group.runIDs
    ensures id in Played(AfterStep(store, GroupStarted(groupID, group)), steps).runs
    ensures id !in store.runs ==>
      var begun := AfterStep(store, GroupStarted(groupID, group)).runs;
      id in begun && begun[id] == Run(group.scriptID, Display(Running, [], None, None))
  {
    StartAt(store.runs, group.runIDs, group.scriptID, id);
    KnownForever(AfterStep(store, GroupStarted(groupID, group)), steps, id);
  }

  /**
   From its start on, whatever arrives and however often groups are collected, after a collection a
   group is listed exactly when some member is still running.
   */
  lemma GroupRemainsIff(store: Store, groupID: Id, group: Group, steps: seq<Step>)
    requires forall i :: 0 <= i < |steps| ==> Ordinary(steps[i], groupID)
    ensures var end := AfterStep(Played(AfterStep(store, GroupStarted(groupID, group)), steps), Collect);
      groupID in end.groups <==>
        exists id :: id in group.runIDs && id in end.runs && end.runs[id].shown.status == Running
  {
    var begun := AfterStep(store, GroupStarted(groupID, group));
    SessionTracks(begun, steps, groupID, group);
    var last := Played(begun, steps);
    assert groupID in Collected(last.groups, last.runs)
      <==> groupID in last.groups && !AllTerminal(last.runs, group.runIDs);
    if i :| 0 <= i < |group.runIDs| && !Terminal(last.runs, group.runIDs[i]) {
      MembersAreKnown(store, groupID, group, steps, group.runIDs[i]);
      assert group.runIDs[i] in group.runIDs;
    }
  }
}
