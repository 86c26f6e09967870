/**
 `RunnerService`: the table of parallel groups, and the goroutine that turns the messages of one
 run into UI events and reports.
 */
module RunnerService {
  import opened Ids
  import opened Sequences
  import opened Wrappers
  import opened Lifecycle
  import Banners
  import LifecycleInvariants
  import LifecycleTheorems
  import LifecycleResults

  type GroupId = string

  datatype Group = Group(scriptID: string, runIDs: seq<RunId>)

  /** `groups` and `runGroups`. */
  datatype Table = Table(groups: map<GroupId, Group>, runGroups: map<RunId, GroupId>)

  predicate MappedTo(runGroups: map<RunId, GroupId>, run: RunId, group: GroupId) {
    run in runGroups && runGroups[run] == group
  }

  predicate Occupied(runGroups: map<RunId, GroupId>, group: GroupId) {
    exists run :: run in runGroups && MappedTo(runGroups, run, group)
  }

  function AfterRegister(table: Table, id: GroupId, group: Group): Table {
    Table(table.groups[id := group],
          map run | run in table.runGroups.Keys + (set r | r in group.runIDs) ::
            if run in group.runIDs then id else table.runGroups[run])
  }

  function AfterClear(table: Table, run: RunId): Table {
    if run !in table.runGroups then table
    else
      var rest := table.runGroups - {run};
      Table(if Occupied(rest, table.runGroups[run]) then table.groups else table.groups - {table.runGroups[run]}, rest)
  }

  function AfterClears(table: Table, runs: seq<RunId>): Table {
    if runs == [] then table
    else AfterClear(AfterClears(table, runs[..|runs| - 1]), runs[|runs| - 1])
  }

  /** Mapped runs belong to the list of their group, and a group is there iff some run maps to it. */
  ghost predicate Consistent(table: Table) {
    && (forall run :: run in table.runGroups ==>
          table.runGroups[run] in table.groups && run in table.groups[table.runGroups[run]].runIDs)
    && (forall id :: id in table.groups ==> Occupied(table.runGroups, id))
  }

  lemma ClearKeepsConsistent(table: Table, run: RunId)
    requires Consistent(table)
    ensures Consistent(AfterClear(table, run))
  {
    if run in table.runGroups {
      var after, gone := AfterClear(table, run), table.runGroups[run];
      forall id | id in after.groups ensures Occupied(after.runGroups, id) {
        if id != gone {
          var other :| other in table.runGroups && MappedTo(table.runGroups, other, id);
          assert MappedTo(after.runGroups, other, id);
        }
      }
      forall other | other in after.runGroups ensures after.runGroups[other] in after.groups {
        assert MappedTo(after.runGroups, other, after.runGroups[other]);
      }
    }
  }

  lemma RegisteringMembersIsConsistent(table: Table, id: GroupId, group: Group)
    requires Consistent(table) && id !in table.groups && group.runIDs != []
    requires forall run :: run in group.runIDs ==> run !in table.runGroups
    ensures Consistent(AfterRegister(table, id, group))
  {
    var after := AfterRegister(table, id, group);
    forall other | other in after.groups ensures Occupied(after.runGroups, other) {
      if other == id {
        assert MappedTo(after.runGroups, group.runIDs[0], id);
      } else {
        assert Occupied(table.runGroups, other);
        var run :| run in table.runGroups && MappedTo(table.runGroups, run, other);
        assert MappedTo(after.runGroups, run, other);
      }
    }
  }

  /** Registering keeps the table consistent iff the new group has a member, the ids being fresh. */
  lemma RegisterKeepsConsistent(table: Table, id: GroupId, group: Group)
    requires Consistent(table) && id !in table.groups
    requires forall run :: run in group.runIDs ==> run !in table.runGroups
    ensures Consistent(AfterRegister(table, id, group)) <==> group.runIDs != []
  {
    var after := AfterRegister(table, id, group);
    if group.runIDs != [] {
      RegisteringMembersIsConsistent(table, id, group);
    } else {
      assert id in after.groups;
      assert !Occupied(after.runGroups, id);
    }
  }

  /** Whatever the table held before: the members of a new group map to it, all other runs as they did. */
  lemma RegisterMapsMembers(table: Table, id: GroupId, group: Group, run: RunId)
    ensures var after := AfterRegister(table, id, group);
      && id in after.groups && after.groups[id] == group
      && (run in group.runIDs ==> MappedTo(after.runGroups, run, id))
      && (run !in group.runIDs ==> (run in after.runGroups <==> run in table.runGroups))
      && (run !in group.runIDs && run in table.runGroups ==> after.runGroups[run] == table.runGroups[run])
  {}

  lemma {:induction false} ClearsForget(table: Table, runs: seq<RunId>)
    ensures AfterClears(table, runs).runGroups == table.runGroups - (set run | run in runs)
  {
    if runs != [] {
      var last := runs[|runs| - 1];
      ClearsForget(table, runs[..|runs| - 1]);
      assert forall run :: run in runs <==> run in runs[..|runs| - 1] || run == last;
    }
  }

  lemma {:induction false} ClearsKeepConsistent(table: Table, runs: seq<RunId>)
    requires Consistent(table)
    ensures Consistent(AfterClears(table, runs))
    ensures AfterClears(table, runs).groups.Keys <= table.groups.Keys
    ensures forall id :: id in AfterClears(table, runs).groups ==> AfterClears(table, runs).groups[id] == table.groups[id]
  {
    if runs != [] {
      ClearsKeepConsistent(table, runs[..|runs| - 1]);
      ClearKeepsConsistent(AfterClears(table, runs[..|runs| - 1]), runs[|runs| - 1]);
    }
  }

  /** Whatever is cleared, in whatever order: a group is left iff some run mapped to it was not cleared. */
  lemma GroupLivesWhileAMemberDoes(table: Table, runs: seq<RunId>, id: GroupId)
    requires Consistent(table)
    ensures id in AfterClears(table, runs).groups <==>
              exists run :: run in table.runGroups && MappedTo(table.runGroups, run, id) && run !in runs
  {
    var after := AfterClears(table, runs);
    ClearsForget(table, runs);
    ClearsKeepConsistent(table, runs);
    if id in after.groups {
      var run :| run in after.runGroups && MappedTo(after.runGroups, run, id);
      assert MappedTo(table.runGroups, run, id) && run !in runs;
    }
    if run :| run in table.runGroups && MappedTo(table.runGroups, run, id) && run !in runs {
      assert after.runGroups[run] == id;
    }
  }

  /** Which groups a consistent table has is determined by the mapping. */
  lemma SameMappingSameGroups(a: Table, b: Table)
    requires Consistent(a) && Consistent(b) && a.runGroups == b.runGroups
    ensures a.groups.Keys == b.groups.Keys
  {
    HasOccupied(a, b);
    HasOccupied(b, a);
  }

  lemma HasOccupied(a: Table, b: Table)
    requires Consistent(a) && Consistent(b) && a.runGroups == b.runGroups
    ensures a.groups.Keys <= b.groups.Keys
  {
    forall id | id in a.groups ensures id in b.groups {
      assert Occupied(a.runGroups, id);
      var run :| run in a.runGroups && MappedTo(a.runGroups, run, id);
      assert b.runGroups[run] == id;
    }
  }

  /** Clearing exactly the members of a new group, in any order, removes that group and no other. */
  lemma ClearingAllMembersRemovesTheGroup(table: Table, id: GroupId, group: Group, order: seq<RunId>)
    requires Consistent(table) && id !in table.groups && group.runIDs != []
    requires forall run :: run in group.runIDs ==> run !in table.runGroups
    requires forall run :: run in order <==> run in group.runIDs
    ensures AfterClears(AfterRegister(table, id, group), order) == table
  {
    var registered := AfterRegister(table, id, group);
    var after := AfterClears(registered, order);
    RegisterKeepsConsistent(table, id, group);
    ClearsForget(registered, order);
    ClearsKeepConsistent(registered, order);
    assert after.runGroups == table.runGroups;
    SameMappingSameGroups(after, table);
    assert after.groups == table.groups;
  }

  /**
   Whatever was cleared before a group was registered, it goes exactly when each of its members is
   cleared afterwards: clears that come too early do not count.
   */
  lemma EarlyClearsDoNotCount(table: Table, early: seq<RunId>, id: GroupId, group: Group, later: seq<RunId>)
    requires Consistent(table) && id !in table.groups && group.runIDs != []
    requires forall run :: run in group.runIDs ==> run !in table.runGroups
    ensures id !in AfterClears(AfterRegister(AfterClears(table, early), id, group), later).groups
      <==> forall run :: run in group.runIDs ==> run in later
  {
    var cleared := AfterClears(table, early);
    var registered := AfterRegister(cleared, id, group);
    ClearsForget(table, early);
    ClearsKeepConsistent(table, early);
    RegisterKeepsConsistent(cleared, id, group);
    GroupLivesWhileAMemberDoes(registered, later, id);
    if run :| run in group.runIDs && run !in later {
      assert MappedTo(registered.runGroups, run, id);
    }
    if forall run :: run in group.runIDs ==> run in later {
      forall run | run in registered.runGroups && MappedTo(registered.runGroups, run, id) ensures run in later {
        assert run in group.runIDs;
      }
    }
  }

  /** In particular one member whose terminal message comes first keeps the group for ever. */
  lemma ClearBeforeRegisterLeaks(table: Table, id: GroupId, group: Group, run: RunId, later: seq<RunId>)
    requires Consistent(table) && id !in table.groups && run in group.runIDs && run !in later
    requires forall r :: r in group.runIDs ==> r !in table.runGroups
    ensures id in AfterClears(AfterRegister(AfterClear(table, run), id, group), later).groups
  {
    EarlyClearsDoNotCount(table, [run], id, group, later);
    assert [run][..0] == [];
  }

  lemma {:induction false} UnoccupiedStays(table: Table, id: GroupId, runs: seq<RunId>)
    requires id in table.groups && !Occupied(table.runGroups, id)
    ensures id in AfterClears(table, runs).groups && !Occupied(AfterClears(table, runs).runGroups, id)
  {
    if runs != [] {
      UnoccupiedStays(table, id, runs[..|runs| - 1]);
      OneClearKeepsUnoccupied(AfterClears(table, runs[..|runs| - 1]), id, runs[|runs| - 1]);
    }
  }

  lemma OneClearKeepsUnoccupied(table: Table, id: GroupId, run: RunId)
    requires id in table.groups && !Occupied(table.runGroups, id)
    ensures id in AfterClear(table, run).groups && !Occupied(AfterClear(table, run).runGroups, id)
  {
    var after := AfterClear(table, run);
    forall other | other in after.runGroups ensures !MappedTo(after.runGroups, other, id) {
      assert !MappedTo(table.runGroups, other, id);
    }
    if run in table.runGroups {
      assert !MappedTo(table.runGroups, run, id);
    }
  }

  /** A group without members can never be cleared. */
  lemma EmptyGroupStays(table: Table, id: GroupId, group: Group, runs: seq<RunId>)
    requires Consistent(table) && id !in table.groups && group.runIDs == []
    ensures id in AfterClears(AfterRegister(table, id, group), runs).groups
  {
    var registered := AfterRegister(table, id, group);
    forall run | run in registered.runGroups ensures !MappedTo(registered.runGroups, run, id) {
      assert table.runGroups[run] in table.groups;
    }
    UnoccupiedStays(registered, id, runs);
  }

  // ----- Forwarding -----

  datatype UiEvent =
    | RunOutput(text: string)
    | RunProgress(current: int, total: int, name: string)
    | RunStatus(state: Status)

  /**
   What goes to the reservoir: output lines, Python's errors, the "Run failed" toast, whose body is
   an error text or, if there is none to show, the fixed fallback sentence.
   */
  datatype Report =
    | Line(text: string)
    | PythonError(message: string, traceback: string, severity: Banners.Severity, inFlight: bool)
    | RunFailed(body: Option<string>, traceback: string)

  function SeverityFromProto(p: int): Banners.Severity {
    match p
    case 1 => Banners.Info
    case 2 => Banners.Warn
    case 4 => Banners.Critical
    case _ => Banners.Error
  }

  /** The last error among the messages, as (text, traceback); empty texts if there is none. */
  function LastErrorOf(msgs: seq<Message>): (string, string) {
    if msgs == [] then ("", "")
    else
      var last := msgs[|msgs| - 1];
      if last.ErrorMsg? then (last.message, last.traceback) else LastErrorOf(msgs[..|msgs| - 1])
  }

  function Body(text: string): Option<string> {
    if text == "" then None else Some(text)
  }

  /** The UI event for one message, if any. */
  function EventFor(msg: Message): seq<UiEvent> {
    match msg
    case OutputMsg(text) => [RunOutput(text)]
    case ProgressMsg(current, total, name) => [RunProgress(current, total, name)]
    case StatusMsg(state) => [RunStatus(state)]
    case ErrorMsg(_, _, _) => []
  }

  /** The report for one message after `before`; a cancelled run's errors are demoted. */
  function ReportFor(before: seq<Message>, msg: Message, cancelled: bool): seq<Report> {
    match msg
    case OutputMsg(text) => [Line(text)]
    case ProgressMsg(_, _, _) => []
    case StatusMsg(state) =>
      if state == Failed then [RunFailed(Body(LastErrorOf(before).0), LastErrorOf(before).1)] else []
    case ErrorMsg(message, traceback, severity) =>
      [PythonError(message, traceback, if cancelled then Banners.Info else SeverityFromProto(severity), !cancelled)]
  }

  function Events(msgs: seq<Message>): seq<UiEvent> {
    if msgs == [] then [] else Events(msgs[..|msgs| - 1]) + EventFor(msgs[|msgs| - 1])
  }

  /** `cancelled[i]` is what `WasCancelled` answers when the i-th message is handled. */
  function Reports(msgs: seq<Message>, cancelled: seq<bool>): seq<Report>
    requires |msgs| <= |cancelled|
  {
    if msgs == [] then []
    else
      var n := |msgs| - 1;
      Reports(msgs[..n], cancelled) + ReportFor(msgs[..n], msgs[n], cancelled[n])
  }

  predicate Ends(msg: Message) {
    msg.StatusMsg? && IsTerminal(msg.state)
  }

  predicate EndsRun(msgs: seq<Message>) {
    exists i :: 0 <= i < |msgs| && Ends(msgs[i])
  }

  function StatusEvents(events: seq<UiEvent>): seq<Status> {
    if events == [] then []
    else
      var last := events[|events| - 1];
      StatusEvents(events[..|events| - 1]) + if last.RunStatus? then [last.state] else []
  }

  function Toasts(reports: seq<Report>): seq<Report> {
    if reports == [] then []
    else
      var last := reports[|reports| - 1];
      Toasts(reports[..|reports| - 1]) + if last.RunFailed? then [last] else []
  }

  lemma {:induction false} StatusEventsOf(msgs: seq<Message>)
    ensures StatusEvents(Events(msgs)) == LifecycleInvariants.Statuses(msgs)
  {
    if msgs != [] {
      var before, last := Events(msgs[..|msgs| - 1]), EventFor(msgs[|msgs| - 1]);
      StatusEventsOf(msgs[..|msgs| - 1]);
      if last == [] {
        assert before + last == before;
      } else {
        assert (before + last)[..|before|] == before;
      }
    }
  }

  lemma {:induction false} ToastsOf(msgs: seq<Message>, cancelled: seq<bool>)
    requires msgs != [] && |msgs| <= |cancelled|
    ensures var n := |msgs| - 1;
      Toasts(Reports(msgs, cancelled)) == Toasts(Reports(msgs[..n], cancelled))
        + if msgs[n] == StatusMsg(Failed) then ReportFor(msgs[..n], msgs[n], cancelled[n]) else []
  {
    var n := |msgs| - 1;
    var before, last := Reports(msgs[..n], cancelled), ReportFor(msgs[..n], msgs[n], cancelled[n]);
    if last == [] {
      assert before + last == before;
    } else {
      assert (before + last)[..|before|] == before;
    }
  }

  lemma {:induction false} NoStatusNoToast(msgs: seq<Message>, cancelled: seq<bool>)
    requires |msgs| <= |cancelled| && LifecycleInvariants.Statuses(msgs) == []
    ensures Toasts(Reports(msgs, cancelled)) == []
  {
    if msgs != [] {
      NoStatusNoToast(msgs[..|msgs| - 1], cancelled);
      ToastsOf(msgs, cancelled);
    }
  }

  /** The last error before the (last) status message. */
  function ErrorBeforeStatus(msgs: seq<Message>): (string, string) {
    if msgs == [] then ("", "")
    else if msgs[|msgs| - 1].StatusMsg? then LastErrorOf(msgs[..|msgs| - 1])
    else ErrorBeforeStatus(msgs[..|msgs| - 1])
  }

  /** The toasts of a channel that carried one status: one iff it was Failed, with the last error before it. */
  lemma {:induction false} ToastIffFailed(msgs: seq<Message>, cancelled: seq<bool>, status: Status)
    requires |msgs| <= |cancelled| && LifecycleInvariants.Statuses(msgs) == [status]
    ensures Toasts(Reports(msgs, cancelled))
         == if status == Failed then [RunFailed(Body(ErrorBeforeStatus(msgs).0), ErrorBeforeStatus(msgs).1)] else []
  {
    var n := |msgs| - 1;
    ToastsOf(msgs, cancelled);
    if msgs[n].StatusMsg? {
      assert LifecycleInvariants.Statuses(msgs[..n]) == [] && [msgs[n].state] == [status];
      assert msgs[n].state == status;
      NoStatusNoToast(msgs[..n], cancelled);
    } else {
      ToastIffFailed(msgs[..n], cancelled, status);
    }
  }

  /**
   From process to screen: once a launched run has been reaped and its channel drained, the UI has
   seen exactly one status event, the one in the history, and a failure toast iff that is Failed.
   */
  lemma OneStatusReachesTheScreen(events: seq<Event>, id: RunId, cancelled: seq<bool>)
    requires Replay(events).Some? && id in Replay(events).value.runs
    requires var run := Replay(events).value.runs[id];
      run.channel.consumer.CEnded? && |run.channel.delivered| <= |cancelled|
    ensures var state := Replay(events).value;
      var delivered := state.runs[id].channel.delivered;
      && |StatusEvents(Events(delivered))| == 1
      && (LifecycleInvariants.Retired(state.runs[id].reaper.waiter) ==>
            LifecycleTheorems.RecordsOf(state.history, id) == StatusEvents(Events(delivered)))
      && (Toasts(Reports(delivered, cancelled)) != [] <==> StatusEvents(Events(delivered)) == [Failed])
  {
    LifecycleTheorems.Invariance(events);
    LifecycleResults.ChannelSafety(events, id);
    var state := Replay(events).value;
    var run := state.runs[id];
    assert LifecycleTheorems.HistoryOf(state, id);
    StatusEventsOf(run.channel.delivered);
    ToastIffFailed(run.channel.delivered, cancelled, run.reaper.waiter.status);
  }

  // ----- The group of a run that has ended -----

  /** The table once the messages have been handled: cleared by the first terminal status. */
  function Cleared(table: Table, run: RunId, msgs: seq<Message>): Table {
    if EndsRun(msgs) then AfterClear(table, run) else table
  }

  predicate SomeTerminal(statuses: seq<Status>) {
    exists i :: 0 <= i < |statuses| && IsTerminal(statuses[i])
  }

  lemma SomeTerminalStep(statuses: seq<Status>, status: Status)
    ensures SomeTerminal(statuses + [status]) <==> SomeTerminal(statuses) || IsTerminal(status)
  {
    var all := statuses + [status];
    assert all[|statuses|] == status;
    if SomeTerminal(statuses) {
      var i :| 0 <= i < |statuses| && IsTerminal(statuses[i]);
      assert all[i] == statuses[i];
    }
  }

  lemma {:induction false} EndsIffTerminalStatus(msgs: seq<Message>)
    ensures EndsRun(msgs) <==> SomeTerminal(LifecycleInvariants.Statuses(msgs))
  {
    if msgs != [] {
      var before, last := msgs[..|msgs| - 1], msgs[|msgs| - 1];
      assert msgs == before + [last];
      EndsIffTerminalStatus(before);
      EndsRunStep(before, last);
      LifecycleInvariants.StatusesAppend(before, last);
      if last.StatusMsg? {
        SomeTerminalStep(LifecycleInvariants.Statuses(before), last.state);
      } else {
        assert LifecycleInvariants.Statuses(before) + [] == LifecycleInvariants.Statuses(before);
      }
    }
  }

  lemma DrainedHasStatus(events: seq<Event>, id: RunId)
    requires Replay(events).Some? && id in Replay(events).value.runs
    requires Replay(events).value.runs[id].channel.consumer.CEnded?
    ensures var run := Replay(events).value.runs[id];
      && LifecycleInvariants.HasSent(run.reaper.waiter) && run.reaper.waiter.status != Running
      && LifecycleInvariants.Statuses(run.channel.delivered) == [run.reaper.waiter.status]
  {
    LifecycleTheorems.Invariance(events);
    LifecycleResults.ChannelSafety(events, id);
  }

  /** In every interleaving a run is taken out of its group by the time its channel is drained, and never before a status is delivered. */
  lemma DrainedRunIsCleared(events: seq<Event>, id: RunId, table: Table)
    requires Replay(events).Some? && id in Replay(events).value.runs
    ensures var channel := Replay(events).value.runs[id].channel;
      && (channel.consumer.CEnded? ==> Cleared(table, id, channel.delivered) == AfterClear(table, id))
      && (LifecycleInvariants.Statuses(channel.delivered) == [] ==> Cleared(table, id, channel.delivered) == table)
  {
    var channel := Replay(events).value.runs[id].channel;
    EndsIffTerminalStatus(channel.delivered);
    if channel.consumer.CEnded? {
      DrainedHasStatus(events, id);
      assert IsTerminal(LifecycleInvariants.Statuses(channel.delivered)[0]);
    }
  }

  function ClearedAll(events: seq<Event>, table: Table, runs: seq<RunId>): Table
    requires Replay(events).Some? && forall i :: 0 <= i < |runs| ==> runs[i] in Replay(events).value.runs
  {
    if runs == [] then table
    else
      var run := runs[|runs| - 1];
      Cleared(ClearedAll(events, table, runs[..|runs| - 1]), run, Replay(events).value.runs[run].channel.delivered)
  }

  lemma {:induction false} DrainedRunsAreCleared(events: seq<Event>, table: Table, runs: seq<RunId>)
    requires Replay(events).Some? && forall i :: 0 <= i < |runs| ==> runs[i] in Replay(events).value.runs
    requires forall i :: 0 <= i < |runs| ==> Replay(events).value.runs[runs[i]].channel.consumer.CEnded?
    ensures ClearedAll(events, table, runs) == AfterClears(table, runs)
  {
    if runs != [] {
      DrainedRunsAreCleared(events, table, runs[..|runs| - 1]);
      DrainedRunIsCleared(events, runs[|runs| - 1], AfterClears(table, runs[..|runs| - 1]));
    }
  }

  /** Once the channels of all members are drained, in whatever order, nothing is left of their group. */
  lemma DrainedGroupIsGone(events: seq<Event>, table: Table, id: GroupId, group: Group, order: seq<RunId>)
    requires Replay(events).Some? && Consistent(table) && id !in table.groups && group.runIDs != []
    requires forall run :: run in group.runIDs ==> run !in table.runGroups
    requires forall run :: run in order <==> run in group.runIDs
    requires forall i :: 0 <= i < |order| ==> order[i] in Replay(events).value.runs
    requires forall i :: 0 <= i < |order| ==> Replay(events).value.runs[order[i]].channel.consumer.CEnded?
    ensures ClearedAll(events, AfterRegister(table, id, group), order) == table
  {
    DrainedRunsAreCleared(events, AfterRegister(table, id, group), order);
    ClearingAllMembersRemovesTheGroup(table, id, group, order);
  }

  // ----- The service -----

  class Service {
    var groups: map<GroupId, Group>
    var runGroups: map<RunId, GroupId>
    var emitted: seq<UiEvent>
    var reported: seq<Report>

    ghost function Contents(): Table
      reads this
    {
      Table(groups, runGroups)
    }

    constructor ()
      ensures Contents() == Table(map[], map[]) && emitted == [] && reported == []
    {
      groups, runGroups, emitted, reported := map[], map[], [], [];
    }

    method RegisterGroup(groupID: GroupId, scriptID: string, runIDs: seq<RunId>)
      modifies this`groups, this`runGroups
      ensures Contents() == AfterRegister(old(Contents()), groupID, Group(scriptID, runIDs))
    {
      groups := groups[groupID := Group(scriptID, runIDs)];
      var i := 0;
      while i < |runIDs|
        invariant 0 <= i <= |runIDs| && groups == old(groups)[groupID := Group(scriptID, runIDs)]
        invariant runGroups.Keys == old(runGroups).Keys + (set run | run in runIDs[..i])
        invariant forall run :: run in runGroups ==>
                    runGroups[run] == if run in runIDs[..i] then groupID else old(runGroups)[run]
      {
        assert runIDs[..i + 1] == runIDs[..i] + [runIDs[i]];
        runGroups := runGroups[runIDs[i] := groupID];
        i := i + 1;
      }
      assert runIDs[..i] == runIDs;
      assert runGroups == AfterRegister(old(Contents()), groupID, Group(scriptID, runIDs)).runGroups;
    }

    /** Drop `runID` from its group; drop the group once no run maps to it. */
    method ClearRunFromGroup(runID: RunId)
      modifies this`groups, this`runGroups
      ensures Contents() == AfterClear(old(Contents()), runID)
    {
      if runID !in runGroups {
        return;
      }
      var groupID := runGroups[runID];
      runGroups := runGroups - {runID};
      var pending := runGroups.Keys;
      while pending != {}
        invariant pending <= runGroups.Keys
        invariant forall run :: run in runGroups && run !in pending ==> !MappedTo(runGroups, run, groupID)
        decreases pending
      {
        var run :| run in pending;
        if runGroups[run] == groupID {
          assert MappedTo(runGroups, run, groupID);
          return;
        }
        pending := pending - {run};
      }
      groups := groups - {groupID};
    }

    /** The body of the forwarding loop; returns the last error's text and traceback. */
    method ForwardOne(runID: RunId, msg: Message, cancelled: bool, text: string, trace: string, ghost before: seq<Message>)
      returns (lastErrMessage: string, lastErrTraceback: string)
      requires (text, trace) == LastErrorOf(before)
      modifies this
      ensures emitted == old(emitted) + EventFor(msg)
      ensures reported == old(reported) + ReportFor(before, msg, cancelled)
      ensures (lastErrMessage, lastErrTraceback) == LastErrorOf(before + [msg])
      ensures Contents() == if Ends(msg) then AfterClear(old(Contents()), runID) else old(Contents())
    {
      assert (before + [msg])[..|before|] == before;
      lastErrMessage, lastErrTraceback := text, trace;
      match msg {
        case OutputMsg(line) =>
          emitted := emitted + [RunOutput(line)];
          reported := reported + [Line(line)];
        case ProgressMsg(current, total, name) =>
          emitted := emitted + [RunProgress(current, total, name)];
        case StatusMsg(state) =>
          emitted := emitted + [RunStatus(state)];
          if state == Failed {
            var body := if lastErrMessage == "" then None else Some(lastErrMessage);
            reported := reported + [RunFailed(body, lastErrTraceback)];
          }
          if IsTerminal(state) {
            ClearRunFromGroup(runID);
          }
        case ErrorMsg(message, traceback, proto) =>
          var severity, inFlight := SeverityFromProto(proto), true;
          if cancelled {
            severity, inFlight := Banners.Info, false;
          }
          reported := reported + [PythonError(message, traceback, severity, inFlight)];
          lastErrMessage, lastErrTraceback := message, traceback;
      }
    }

    /** `ch` is everything the channel delivers before it is closed. */
    method ForwardMessages(runID: RunId, ch: seq<Message>, cancelled: seq<bool>)
      requires |ch| <= |cancelled|
      modifies this
      ensures emitted == old(emitted) + Events(ch)
      ensures reported == old(reported) + Reports(ch, cancelled)
      ensures Contents() == Cleared(old(Contents()), runID, ch)
    {
      var lastErrMessage, lastErrTraceback := "", "";
      var i := 0;
      while i < |ch|
        invariant 0 <= i <= |ch|
        invariant emitted == old(emitted) + Events(ch[..i])
        invariant reported == old(reported) + Reports(ch[..i], cancelled)
        invariant (lastErrMessage, lastErrTraceback) == LastErrorOf(ch[..i])
        invariant Contents() == Cleared(old(Contents()), runID, ch[..i])
      {
        assert ch[..i + 1] == ch[..i] + [ch[i]];
        ClearedStep(old(Contents()), runID, ch[..i], ch[i]);
        FoldsStep(ch[..i], ch[i], cancelled);
        Reassociate(old(emitted), Events(ch[..i]), EventFor(ch[i]));
        Reassociate(old(reported), Reports(ch[..i], cancelled), ReportFor(ch[..i], ch[i], cancelled[i]));
        lastErrMessage, lastErrTraceback :=
          ForwardOne(runID, ch[i], cancelled[i], lastErrMessage, lastErrTraceback, ch[..i]);
        i := i + 1;
      }
      assert ch[..i] == ch;
    }
  }

  /** A second terminal status would change nothing. */
  lemma ClearedStep(table: Table, run: RunId, msgs: seq<Message>, msg: Message)
    ensures Cleared(table, run, msgs + [msg])
         == if Ends(msg) then AfterClear(Cleared(table, run, msgs), run) else Cleared(table, run, msgs)
  {
    EndsRunStep(msgs, msg);
  }

  lemma FoldsStep(msgs: seq<Message>, msg: Message, cancelled: seq<bool>)
    requires |msgs| < |cancelled|
    ensures Events(msgs + [msg]) == Events(msgs) + EventFor(msg)
    ensures Reports(msgs + [msg], cancelled) == Reports(msgs, cancelled) + ReportFor(msgs, msg, cancelled[|msgs|])
  {
    assert (msgs + [msg])[..|msgs|] == msgs;
  }

  lemma EndsRunStep(msgs: seq<Message>, msg: Message)
    ensures EndsRun(msgs + [msg]) <==> EndsRun(msgs) || Ends(msg)
  {
    var all := msgs + [msg];
    if EndsRun(msgs) {
      var k :| 0 <= k < |msgs| && Ends(msgs[k]);
      assert Ends(all[k]);
    }
    if Ends(msg) {
      assert Ends(all[|msgs|]);
    }
  }
}
