/**
 From the Python process to the screen: what a run's card shows and where its errors come up, in terms
 of what the process put on its stream, through handler, channel, forwarder and frontend.
 */
module EndToEnd {
  import opened Ids
  import opened Sequences
  import opened Wrappers
  import opened Lifecycle
  import opened LifecycleContent
  import opened LifecycleInvariants
  import opened RunnerService
  import opened Forwarding
  import Banners
  import LifecycleResults
  import LifecycleTheorems
  import NotificationStack
  import PassingEntries
  import RunStore

  // ----- From the client to the channel -----

  /** What Python printed, and what it said of its progress. */
  function LineSaid(msg: ClientMsg): seq<string> {
    if msg.Output? then [msg.text] else []
  }

  function NoteSaid(msg: ClientMsg): seq<Note> {
    if msg.Progress? then [Note(msg.current, msg.total, msg.name)] else []
  }

  lemma OneIsForwarded(msg: ClientMsg)
    ensures Concat(ForwardedOne(msg), LineIn) == LineSaid(msg)
    ensures Concat(ForwardedOne(msg), NoteIn) == NoteSaid(msg)
  {
    if ForwardedOne(msg) != [] {
      ConcatOne(ForwardedOne(msg)[0], LineIn);
      ConcatOne(ForwardedOne(msg)[0], NoteIn);
    }
  }

  /** The handler forwards the lines and the notes it takes, and makes up none. */
  lemma LinesAreForwarded(msgs: seq<ClientMsg>)
    ensures Concat(Forwarded(msgs), LineIn) == Concat(msgs, LineSaid)
    ensures Concat(Forwarded(msgs), NoteIn) == Concat(msgs, NoteSaid)
  {
    ForwardedIsConcat(msgs);
    forall msg ensures Concat(ForwardedOne(msg), LineIn) == LineSaid(msg) && Concat(ForwardedOne(msg), NoteIn) == NoteSaid(msg) {
      OneIsForwarded(msg);
    }
    ConcatConcat(msgs, ForwardedOne, LineIn, LineSaid);
    ConcatConcat(msgs, ForwardedOne, NoteIn, NoteSaid);
  }

  lemma {:induction false} ContentHasTheLines(msgs: seq<Message>)
    ensures Concat(Content(msgs), LineIn) == Concat(msgs, LineIn)
    ensures Concat(Content(msgs), NoteIn) == Concat(msgs, NoteIn)
  {
    if msgs != [] {
      var before, last := msgs[..|msgs| - 1], msgs[|msgs| - 1];
      ContentHasTheLines(before);
      if last.StatusMsg? {
        assert Content(before) + [] == Content(before);
      } else {
        ConcatStep(Content(before), last, LineIn);
        ConcatStep(Content(before), last, NoteIn);
      }
    }
  }

  lemma DeliveredLines(events: seq<Event>, id: RunId)
    requires Replay(events).Some? && id in Replay(events).value.runs
    ensures var delivered, said := Replay(events).value.runs[id].channel.delivered, LifecycleResults.Said(events, id);
      && Concat(delivered, LineIn) <= Concat(said, LineSaid)
      && Concat(delivered, NoteIn) <= Concat(said, NoteSaid)
  {
    var channel, said := Replay(events).value.runs[id].channel, LifecycleResults.Said(events, id);
    var all := channel.delivered + channel.buffer;
    DeliveryIsFaithful(events, id);
    ContentHasTheLines(all);
    LinesAreForwarded(said);
    ConcatPrefix(Content(all), Forwarded(said), LineIn);
    ConcatPrefix(Content(all), Forwarded(said), NoteIn);
    ConcatPrefix(channel.delivered, all, LineIn);
    ConcatPrefix(channel.delivered, all, NoteIn);
  }

  /** In every interleaving, the lines and notes that have gone to the UI are the first ones Python said, in order. */
  lemma WhatIsShownWasSaid(events: seq<Event>, id: RunId)
    requires Replay(events).Some? && id in Replay(events).value.runs
    ensures var shown, said := Events(Replay(events).value.runs[id].channel.delivered), LifecycleResults.Said(events, id);
      && Concat(shown, LineOut) <= Concat(said, LineSaid)
      && Concat(shown, NoteOut) <= Concat(said, NoteSaid)
  {
    DeliveredLines(events, id);
    LinesAndNotesGoOut(Replay(events).value.runs[id].channel.delivered);
  }

  lemma StatusAtTheEnd(msgs: seq<Message>, status: Status)
    requires Statuses(msgs) == []
    ensures Statuses(msgs + [StatusMsg(status)]) == [status]
    ensures Concat(msgs + [StatusMsg(status)], LineIn) == Concat(msgs, LineIn)
    ensures Concat(msgs + [StatusMsg(status)], NoteIn) == Concat(msgs, NoteIn)
  {
    StatusesAppend(msgs, StatusMsg(status));
    ConcatStep(msgs, StatusMsg(status), LineIn);
    ConcatStep(msgs, StatusMsg(status), NoteIn);
  }

  lemma {:induction false} NoStatusIsForwarded(msgs: seq<ClientMsg>)
    ensures Statuses(Forwarded(msgs)) == []
  {
    if msgs != [] {
      var before, last := Forwarded(msgs[..|msgs| - 1]), ForwardedOne(msgs[|msgs| - 1]);
      NoStatusIsForwarded(msgs[..|msgs| - 1]);
      if last == [] {
        assert before + last == before;
      } else {
        StatusesAppend(before, last[0]);
        assert last == [last[0]];
      }
    }
  }

  /** The verdict on a run whose stream ended in time. */
  function VerdictOn(events: seq<Event>, id: RunId): Status
    requires Replay(events).Some? && id in Replay(events).value.runs && LifecycleResults.QuitWith(events, id).Some?
  {
    Verdict(LifecycleResults.CancelledInTime(events, id), LifecycleResults.QuitWith(events, id).value,
            Replay(events).value.runs[id].stream.taken)
  }

  /**
   Whatever the schedule, once the channel of a run whose stream ended in time is drained, the UI has
   been sent every line and every note the server received, in order, and one status, the verdict.
   */
  lemma AllThatWasTakenIsShown(events: seq<Event>, id: RunId)
    requires Replay(events).Some? && id in Replay(events).value.runs
    requires var run := Replay(events).value.runs[id]; run.reaper.quietDerivation && run.channel.consumer.CEnded?
    ensures LifecycleResults.QuitWith(events, id).Some?
    ensures var run := Replay(events).value.runs[id];
      var shown := Events(run.channel.delivered);
      && Concat(shown, LineOut) == Concat(run.stream.taken, LineSaid)
      && Concat(shown, NoteOut) == Concat(run.stream.taken, NoteSaid)
      && StatusEvents(shown) == [VerdictOn(events, id)]
  {
    var run := Replay(events).value.runs[id];
    DeliveryIsSequential(events, id);
    LinesAreForwarded(run.stream.taken);
    NoStatusIsForwarded(run.stream.taken);
    StatusAtTheEnd(Forwarded(run.stream.taken), VerdictOn(events, id));
    LinesAndNotesGoOut(run.channel.delivered);
    StatusEventsOf(run.channel.delivered);
  }

  // ----- From the forwarder to the card of the run -----

  function OnCard(status: Status): RunStore.RunStatus {
    match status
    case Running => RunStore.Running
    case Completed => RunStore.Completed
    case Failed => RunStore.Failed
    case Cancelled => RunStore.Cancelled
  }

  /** The event as the frontend receives it. */
  function Wire(event: UiEvent): RunStore.Payload {
    match event
    case RunOutput(text) => RunStore.Output(text)
    case RunProgress(current, total, name) => RunStore.ProgressNote(RunStore.Progress(current, total, name))
    case RunStatus(state) => RunStore.Status(OnCard(state))
  }

  /** Among all that arrives, these are the forwarder's events for this run, in order; other runs and errors are free. */
  ghost predicate Carries(arrived: seq<RunStore.RunEvent>, id: RunId, events: seq<UiEvent>)
    decreases |arrived|
  {
    if arrived == [] then events == []
    else
      var before, last := arrived[..|arrived| - 1], arrived[|arrived| - 1];
      if last.runID != id || last.payload.Error? then Carries(before, id, events)
      else
        && events != [] && last.payload == Wire(events[|events| - 1])
        && Carries(before, id, events[..|events| - 1])
  }

  function LastOf<T>(items: seq<T>): Option<T> {
    if items == [] then None else Some(items[|items| - 1])
  }

  /** What the frontend reads off the arrived events is what the forwarder said. */
  predicate ReadsAs(arrived: seq<RunStore.RunEvent>, id: RunId, events: seq<UiEvent>) {
    && RunStore.Texts(arrived, id) == Concat(events, LineOut)
    && RunStore.LastProgress(arrived, id) == (match LastOf(Concat(events, NoteOut))
         case None => None
         case Some(note) => Some(RunStore.Progress(note.current, note.total, note.name)))
    && RunStore.LastStatus(arrived, id) == (match LastOf(StatusEvents(events))
         case None => None
         case Some(status) => Some(OnCard(status)))
  }

  lemma ReadsOneMore(before: seq<RunStore.RunEvent>, last: RunStore.RunEvent, id: RunId, events: seq<UiEvent>, event: UiEvent)
    requires ReadsAs(before, id, events) && last.runID == id && last.payload == Wire(event)
    ensures ReadsAs(before + [last], id, events + [event])
  {
    assert (before + [last])[..|before|] == before && (events + [event])[..|events|] == events;
    ConcatStep(events, event, LineOut);
    ConcatStep(events, event, NoteOut);
  }

  lemma {:induction false} CarriedReadsAs(arrived: seq<RunStore.RunEvent>, id: RunId, events: seq<UiEvent>)
    requires Carries(arrived, id, events)
    ensures ReadsAs(arrived, id, events)
    decreases |arrived|
  {
    if arrived != [] {
      var before, last := arrived[..|arrived| - 1], arrived[|arrived| - 1];
      assert arrived == before + [last];
      if last.runID == id && !last.payload.Error? {
        var n := |events| - 1;
        CarriedReadsAs(before, id, events[..n]);
        ReadsOneMore(before, last, id, events[..n], events[n]);
        assert events == events[..n] + [events[n]];
      } else {
        CarriedReadsAs(before, id, events);
      }
    }
  }

  /**
   The card of the run once everything has arrived, whatever else arrives in between: all the lines the
   server received, in order, its last note of progress, and the verdict on the run.
   */
  lemma CardShowsTheRun(events: seq<Event>, id: RunId, runs: RunStore.Runs, arrived: seq<RunStore.RunEvent>)
    requires Replay(events).Some? && id in Replay(events).value.runs
    requires var run := Replay(events).value.runs[id];
      && run.reaper.quietDerivation && run.channel.consumer.CEnded?
      && Carries(arrived, id, Events(run.channel.delivered))
    ensures LifecycleResults.QuitWith(events, id).Some? && id in RunStore.AfterEvents(runs, arrived)
    ensures var taken := Replay(events).value.runs[id].stream.taken;
      var first, shown := RunStore.Initially(runs, id), RunStore.AfterEvents(runs, arrived)[id].shown;
      && shown.output == first.output + Concat(taken, LineSaid)
      && shown.status == OnCard(VerdictOn(events, id))
      && (Concat(taken, NoteSaid) != [] ==>
            var note := LastOf(Concat(taken, NoteSaid)).value;
            shown.progress == Some(RunStore.Progress(note.current, note.total, note.name)))
  {
    var run := Replay(events).value.runs[id];
    AllThatWasTakenIsShown(events, id);
    CarriedReadsAs(arrived, id, Events(run.channel.delivered));
    RunStore.RunShowsItsEvents(runs, arrived, id);
    StatusIsMentioned(arrived, id);
  }

  lemma {:induction false} StatusIsMentioned(arrived: seq<RunStore.RunEvent>, id: RunId)
    requires RunStore.LastStatus(arrived, id).Some?
    ensures RunStore.Mentioned(arrived, id)
  {
    RunStore.MentionedLast(arrived, id);
    if arrived[|arrived| - 1].runID != id || !arrived[|arrived| - 1].payload.Status? {
      StatusIsMentioned(arrived[..|arrived| - 1], id);
    }
  }

  lemma {:induction false} CarriedPartReadsAs(arrived: seq<RunStore.RunEvent>, id: RunId, events: seq<UiEvent>, n: nat)
    requires n <= |events| && Carries(arrived, id, events[..n])
    ensures RunStore.Texts(arrived, id) <= Concat(events, LineOut)
  {
    CarriedReadsAs(arrived, id, events[..n]);
    ConcatPrefix(events[..n], events, LineOut);
  }

  /** At any time in any interleaving, the lines on the card are the first ones Python printed, in order. */
  lemma CardIsFaithful(events: seq<Event>, id: RunId, runs: RunStore.Runs, arrived: seq<RunStore.RunEvent>, n: nat)
    requires Replay(events).Some? && id in Replay(events).value.runs && id !in runs
    requires var shown := Events(Replay(events).value.runs[id].channel.delivered);
      n <= |shown| && Carries(arrived, id, shown[..n])
    ensures RunStore.Initially(RunStore.AfterEvents(runs, arrived), id).output
         <= Concat(LifecycleResults.Said(events, id), LineSaid)
  {
    WhatIsShownWasSaid(events, id);
    CarriedPartReadsAs(arrived, id, Events(Replay(events).value.runs[id].channel.delivered), n);
    RunStore.RunShowsItsEvents(runs, arrived, id);
    assert [] + RunStore.Texts(arrived, id) == RunStore.Texts(arrived, id);
  }

  // ----- From the forwarder to the other surfaces -----

  /** What a forwarder knows of its run; `fallback` is the sentence of a toast that has no error to show. */
  datatype About = About(runID: RunId, scriptID: string, fallback: string)

  /** The report as the reservoir gets it. */
  function Notice(report: Report, about: About): Banners.Event {
    match report
    case Line(text) => Plain(Banners.Info, Banners.OneShot, "python", "", text, "", about)
    case PythonError(message, traceback, severity, inFlight) =>
      Plain(severity, if inFlight then Banners.InFlight else Banners.OneShot, "python", "", message, traceback, about)
    case RunFailed(body, traceback) =>
      Plain(Banners.Error, Banners.OneShot, "backend", "Run failed",
            if body.Some? then body.value else about.fallback, traceback, about)
  }

  function Plain(severity: Banners.Severity, persistence: Banners.Persistence, source: string, title: string,
                 message: string, traceback: string, about: About): Banners.Event {
    Banners.Event("", severity, persistence, "",
                  Banners.Detail(source, title, message, about.runID, about.scriptID, traceback), 0)
  }

  /**
   Where an error of the client comes up: nowhere once the run counts as cancelled; otherwise on the
   critical pane, in the run's own pane, or as a toast, by the severity the client meant.
   */
  lemma ErrorsComeUp(report: Report, handled: Handled, about: About, stamp: Banners.Stamp)
    requires Fair(report, handled) && about.runID != ""
    ensures var notice := Banners.Stamped(Notice(report, about), stamp);
      && notice.detail.message == handled.msg.message && notice.detail.traceback == handled.msg.traceback
      && notice.detail.runID == about.runID && notice.detail.scriptID == about.scriptID
      && Banners.Route(notice) ==
           if handled.cancelled then []
           else match handled.msg.severity
             case 1 => [Banners.Toast(notice)]
             case 2 => [Banners.Toast(notice)]
             case 4 => [Banners.CriticalPane(notice)]
             case _ => [Banners.RunError(notice)]
  {}

  /** A line stays in the log, a failed run is a toast, and none of it is a banner. */
  lemma LinesStayInTheLog(report: Report, about: About, stamp: Banners.Stamp, banners: seq<Banners.Event>)
    ensures var notice := Banners.Stamped(Notice(report, about), stamp);
      && Banners.AfterReport(banners, notice) == banners
      && (report.Line? ==> Banners.Route(notice) == [])
      && (report.RunFailed? ==>
            && Banners.Route(notice) == [Banners.Toast(notice)]
            && notice.detail.message == (if report.body.Some? then report.body.value else about.fallback))
  {}

  /** The entry that a failed run puts on the frontend's list. */
  function FailureEntry(ops: seq<NotificationStack.Op>, notice: Banners.Event): NotificationStack.Notification {
    NotificationStack.Notification(
      NotificationStack.PerformFreely(ops).stack.nextId,
      NotificationStack.Input(Banners.Error, Banners.OneShot, "", notice.detail))
  }

  /** The toast of a failed run is on the list, whatever went before and happens after, exactly until it is closed or times out. */
  lemma FailureStaysOnScreen(report: Report, about: About, stamp: Banners.Stamp,
                             ops: seq<NotificationStack.Op>, later: seq<NotificationStack.Op>)
    requires report.RunFailed?
    ensures var notice := Banners.Stamped(Notice(report, about), stamp);
      var entry := FailureEntry(ops, notice);
      entry in NotificationStack.PerformFreely(ops + [NotificationStack.Report(notice)] + later).stack.items
      <==> NotificationStack.Remove(entry.id) !in later
  {
    var notice := Banners.Stamped(Notice(report, about), stamp);
    var entry := FailureEntry(ops, notice);
    PassingEntries.ShownUntilTakenAway(ops, NotificationStack.Report(notice), later);
    assert forall op :: PassingEntries.TakesAway(op, entry) <==> op == NotificationStack.Remove(entry.id);
    if PassingEntries.Spares(later, entry) {
      assert forall j :: 0 <= j < |later| ==> !PassingEntries.TakesAway(later[j], entry);
    }
  }

  /** Everything the reservoir emits for the reports of one run, ids and times apart. */
  function Emitted(reports: seq<Report>, about: About): seq<Banners.UiEvent> {
    if reports == [] then []
    else Emitted(reports[..|reports| - 1], about) + Banners.Route(Notice(reports[|reports| - 1], about))
  }

  /** What an event puts into the run's own pane. */
  function OnPane(event: Banners.UiEvent): seq<RunStore.Failure> {
    if event.RunError? then [RunStore.Failure(event.payload.detail.message, event.payload.detail.traceback)] else []
  }

  predicate IsError(p: int) {
    p != 1 && p != 2 && p != 4
  }

  /** An error belongs there if it is meant as one and its run does not count as cancelled. */
  function MeantForPane(handled: Handled): seq<RunStore.Failure> {
    if handled.msg.ErrorMsg? && !handled.cancelled && IsError(handled.msg.severity)
    then [RunStore.Failure(handled.msg.message, handled.msg.traceback)] else []
  }

  /** Of all reports, those of an error in flight go to the run's pane. */
  function PaneOf(report: Report): seq<RunStore.Failure> {
    if report.PythonError? && report.inFlight && report.severity == Banners.Error
    then [RunStore.Failure(report.message, report.traceback)] else []
  }

  lemma RouteOfReport(report: Report, about: About)
    requires about.runID != ""
    ensures var routed := Banners.Route(Notice(report, about));
      |routed| <= 1 && PaneOf(report) == if routed == [] then [] else OnPane(routed[0])
  {}

  lemma OneReportOnPane(report: Report, about: About)
    requires about.runID != ""
    ensures Concat(Emitted([report], about), OnPane) == PaneOf(report)
  {
    RouteOfReport(report, about);
    var routed := Banners.Route(Notice(report, about));
    assert [report][..0] == [] && Emitted([report], about) == routed;
    if routed != [] {
      assert routed == [routed[0]];
      ConcatOne(routed[0], OnPane);
    }
  }

  lemma MeantIsPane(before: seq<Message>, msg: Message, cancelled: bool)
    ensures var reports := ReportFor(before, msg, cancelled);
      |reports| <= 1 && MeantForPane(Handled(msg, cancelled)) == if reports == [] then [] else PaneOf(reports[0])
  {}

  lemma OneOnPane(before: seq<Message>, msg: Message, cancelled: bool, about: About)
    requires about.runID != ""
    ensures Concat(Emitted(ReportFor(before, msg, cancelled), about), OnPane) == MeantForPane(Handled(msg, cancelled))
  {
    MeantIsPane(before, msg, cancelled);
    var reports := ReportFor(before, msg, cancelled);
    if reports != [] {
      assert reports == [reports[0]];
      OneReportOnPane(reports[0], about);
    }
  }

  lemma EmittedPlus(reports: seq<Report>, more: seq<Report>, about: About)
    requires |more| <= 1
    ensures Emitted(reports + more, about) == Emitted(reports, about) + Emitted(more, about)
  {
    if more == [] {
      assert reports + more == reports;
    } else {
      assert (reports + more)[..|reports|] == reports && more[..0] == [];
    }
  }

  lemma PaneStep(reports: seq<Report>, more: seq<Report>, about: About)
    requires |more| <= 1
    ensures Concat(Emitted(reports + more, about), OnPane)
         == Concat(Emitted(reports, about), OnPane) + Concat(Emitted(more, about), OnPane)
  {
    EmittedPlus(reports, more, about);
    ConcatPlus(Emitted(reports, about), Emitted(more, about), OnPane);
  }

  /** The run's own pane gets exactly the errors that belong there, in order. */
  lemma {:induction false} PaneGetsTheErrors(msgs: seq<Message>, cancelled: seq<bool>, about: About)
    requires |msgs| <= |cancelled| && about.runID != ""
    ensures Concat(Emitted(Reports(msgs, cancelled), about), OnPane) == Concat(Handling(msgs, cancelled), MeantForPane)
  {
    if msgs != [] {
      var n := |msgs| - 1;
      PaneGetsTheErrors(msgs[..n], cancelled, about);
      HandlingStep(msgs, cancelled);
      ConcatStep(Handling(msgs[..n], cancelled), Handled(msgs[n], cancelled[n]), MeantForPane);
      PaneStep(Reports(msgs[..n], cancelled), ReportFor(msgs[..n], msgs[n], cancelled[n]), about);
      OneOnPane(msgs[..n], msgs[n], cancelled[n], about);
    }
  }

  function ErrorsArrived(arrived: seq<RunStore.RunEvent>, id: RunId): seq<RunStore.Failure> {
    if arrived == [] then []
    else
      var last := arrived[|arrived| - 1];
      ErrorsArrived(arrived[..|arrived| - 1], id)
      + if last.runID == id && last.payload.Error? then [last.payload.failure] else []
  }

  lemma {:induction false} LastErrorArrived(arrived: seq<RunStore.RunEvent>, id: RunId)
    ensures RunStore.LastFailure(arrived, id) == LastOf(ErrorsArrived(arrived, id))
  {
    if arrived != [] {
      LastErrorArrived(arrived[..|arrived| - 1], id);
    }
  }

  /** The card shows the last of the errors that were meant for it, if there was one. */
  lemma CardShowsTheLastError(msgs: seq<Message>, cancelled: seq<bool>, about: About,
                              runs: RunStore.Runs, arrived: seq<RunStore.RunEvent>)
    requires |msgs| <= |cancelled| && about.runID != ""
    requires ErrorsArrived(arrived, about.runID) == Concat(Emitted(Reports(msgs, cancelled), about), OnPane)
    ensures var meant := Concat(Handling(msgs, cancelled), MeantForPane);
      RunStore.Initially(RunStore.AfterEvents(runs, arrived), about.runID).failure
      == if meant == [] then RunStore.Initially(runs, about.runID).failure else Some(meant[|meant| - 1])
  {
    PaneGetsTheErrors(msgs, cancelled, about);
    LastErrorArrived(arrived, about.runID);
    RunStore.RunShowsItsEvents(runs, arrived, about.runID);
  }
}
