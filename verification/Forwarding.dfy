/**
 What `forwardMessages` lets through: how the UI events and the reports of a run follow from the
 messages of its channel, without reference to the loop or the fold that make them.
 */
module Forwarding {
  import opened Sequences
  import opened Wrappers
  import opened Lifecycle
  import opened RunnerService
  import Banners

  // ----- Events -----

  /** The text of a line of output, on the channel and on its way to the screen. */
  function LineIn(msg: Message): seq<string> {
    if msg.OutputMsg? then [msg.text] else []
  }

  function LineOut(event: UiEvent): seq<string> {
    if event.RunOutput? then [event.text] else []
  }

  /** One note of progress: current, total, name. */
  datatype Note = Note(current: int, total: int, name: string)

  function NoteIn(msg: Message): seq<Note> {
    if msg.ProgressMsg? then [Note(msg.current, msg.total, msg.name)] else []
  }

  function NoteOut(event: UiEvent): seq<Note> {
    if event.RunProgress? then [Note(event.current, event.total, event.name)] else []
  }

  lemma {:induction false} EventsConcat(msgs: seq<Message>)
    ensures Events(msgs) == Concat(msgs, EventFor)
  {
    if msgs != [] {
      EventsConcat(msgs[..|msgs| - 1]);
    }
  }

  lemma OneLineGoesOut(msg: Message)
    ensures Concat(EventFor(msg), LineOut) == LineIn(msg)
    ensures Concat(EventFor(msg), NoteOut) == NoteIn(msg)
  {
    if EventFor(msg) != [] {
      ConcatOne(EventFor(msg)[0], LineOut);
      ConcatOne(EventFor(msg)[0], NoteOut);
    }
  }

  /** Every line and every note of progress goes out once, as it came, in order. */
  lemma LinesAndNotesGoOut(msgs: seq<Message>)
    ensures Concat(Events(msgs), LineOut) == Concat(msgs, LineIn)
    ensures Concat(Events(msgs), NoteOut) == Concat(msgs, NoteIn)
  {
    EventsConcat(msgs);
    forall msg ensures Concat(EventFor(msg), LineOut) == LineIn(msg) && Concat(EventFor(msg), NoteOut) == NoteIn(msg) {
      OneLineGoesOut(msg);
    }
    ConcatConcat(msgs, EventFor, LineOut, LineIn);
    ConcatConcat(msgs, EventFor, NoteOut, NoteIn);
  }

  /** The messages that have an event: all but the errors. */
  function Visible(msgs: seq<Message>): seq<Message> {
    if msgs == [] then []
    else
      var last := msgs[|msgs| - 1];
      Visible(msgs[..|msgs| - 1]) + if last.ErrorMsg? then [] else [last]
  }

  /** The event says what the message says. */
  predicate Conveys(event: UiEvent, msg: Message) {
    match event
    case RunOutput(text) => msg.OutputMsg? && msg.text == text
    case RunProgress(current, total, name) =>
      msg.ProgressMsg? && msg.current == current && msg.total == total && msg.name == name
    case RunStatus(state) => msg.StatusMsg? && msg.state == state
  }

  /** Lines, notes and statuses go out in the order in which they came among each other, one event each. */
  lemma {:induction false} EventsConvey(msgs: seq<Message>)
    ensures |Events(msgs)| == |Visible(msgs)|
    ensures forall i :: 0 <= i < |Events(msgs)| ==> Conveys(Events(msgs)[i], Visible(msgs)[i])
  {
    if msgs != [] {
      EventsConvey(msgs[..|msgs| - 1]);
    }
  }

  // ----- Reports -----

  /** The number the client puts on an error of this severity. */
  function ToProto(severity: Banners.Severity): int {
    match severity case Info => 1 case Warn => 2 case Error => 3 case Critical => 4
  }

  /** The severity the client meant; a number it left unspecified, or that nobody assigned, counts as an error. */
  predicate Means(p: int, severity: Banners.Severity) {
    if 1 <= p <= 4 then p == ToProto(severity) else severity == Banners.Error
  }

  /** What is reported is what the client meant. */
  lemma SeverityIsMeant(p: int, severity: Banners.Severity)
    ensures SeverityFromProto(p) == severity <==> Means(p, severity)
    ensures SeverityFromProto(ToProto(severity)) == severity
  {}

  /** A message and whether its run counted as cancelled when it was handled. */
  datatype Handled = Handled(msg: Message, cancelled: bool)

  function Handling(msgs: seq<Message>, cancelled: seq<bool>): seq<Handled>
    requires |msgs| <= |cancelled|
  {
    seq(|msgs|, i requires 0 <= i < |msgs| => Handled(msgs[i], cancelled[i]))
  }

  function ErrorIn(handled: Handled): seq<Handled> {
    if handled.msg.ErrorMsg? then [handled] else []
  }

  function LogLine(report: Report): seq<string> {
    if report.Line? then [report.text] else []
  }

  function PythonErrorOut(report: Report): seq<Report> {
    if report.PythonError? then [report] else []
  }

  /** The report says what the client said, and is demoted to the log exactly if the run counted as cancelled. */
  predicate Fair(report: Report, handled: Handled) {
    && report.PythonError? && handled.msg.ErrorMsg?
    && report.message == handled.msg.message && report.traceback == handled.msg.traceback
    && (report.inFlight <==> !handled.cancelled)
    && if handled.cancelled then report.severity == Banners.Info else Means(handled.msg.severity, report.severity)
  }

  ghost predicate AllFair(reports: seq<Report>, errors: seq<Handled>) {
    |reports| == |errors| && forall i :: 0 <= i < |errors| ==> Fair(reports[i], errors[i])
  }

  lemma AllFairPlus(a: seq<Report>, b: seq<Report>, x: seq<Handled>, y: seq<Handled>)
    requires AllFair(a, x) && AllFair(b, y)
    ensures AllFair(a + b, x + y)
  {}

  lemma OneReport(before: seq<Message>, msg: Message, cancelled: bool)
    ensures var reports := ReportFor(before, msg, cancelled);
      && |reports| <= 1
      && LineIn(msg) == (if reports == [] then [] else LogLine(reports[0]))
      && AllFair(if reports == [] then [] else PythonErrorOut(reports[0]), ErrorIn(Handled(msg, cancelled)))
  {}

  lemma ConcatFew<T, U>(items: seq<T>, f: T -> seq<U>)
    requires |items| <= 1
    ensures Concat(items, f) == if items == [] then [] else f(items[0])
  {
    if items != [] {
      assert items == [items[0]];
      ConcatOne(items[0], f);
    }
  }

  lemma HandlingStep(msgs: seq<Message>, cancelled: seq<bool>)
    requires msgs != [] && |msgs| <= |cancelled|
    ensures var n := |msgs| - 1;
      Handling(msgs, cancelled) == Handling(msgs[..n], cancelled) + [Handled(msgs[n], cancelled[n])]
  {}

  /** Every line is logged, once and in order. */
  lemma {:induction false} LinesAreLogged(msgs: seq<Message>, cancelled: seq<bool>)
    requires |msgs| <= |cancelled|
    ensures Concat(Reports(msgs, cancelled), LogLine) == Concat(msgs, LineIn)
  {
    if msgs != [] {
      var n := |msgs| - 1;
      var before, last := Reports(msgs[..n], cancelled), ReportFor(msgs[..n], msgs[n], cancelled[n]);
      LinesAreLogged(msgs[..n], cancelled);
      OneReport(msgs[..n], msgs[n], cancelled[n]);
      ConcatFew(last, LogLine);
      ConcatPlus(before, last, LogLine);
    }
  }

  /** Every error is reported fairly, once and in order. */
  lemma {:induction false} ErrorsAreReported(msgs: seq<Message>, cancelled: seq<bool>)
    requires |msgs| <= |cancelled|
    ensures AllFair(Concat(Reports(msgs, cancelled), PythonErrorOut), Concat(Handling(msgs, cancelled), ErrorIn))
  {
    if msgs != [] {
      var n := |msgs| - 1;
      var before, last := Reports(msgs[..n], cancelled), ReportFor(msgs[..n], msgs[n], cancelled[n]);
      var handled := Handled(msgs[n], cancelled[n]);
      ErrorsAreReported(msgs[..n], cancelled);
      OneReport(msgs[..n], msgs[n], cancelled[n]);
      ConcatFew(last, PythonErrorOut);
      ConcatPlus(before, last, PythonErrorOut);
      HandlingStep(msgs, cancelled);
      ConcatStep(Handling(msgs[..n], cancelled), handled, ErrorIn);
      AllFairPlus(Concat(before, PythonErrorOut), Concat(last, PythonErrorOut),
                  Concat(Handling(msgs[..n], cancelled), ErrorIn), ErrorIn(handled));
    }
  }

  // ----- The failure toast -----

  /** The last error before position `n` is at `i`. */
  predicate LastErrorBefore(msgs: seq<Message>, n: nat, i: nat)
    requires n <= |msgs|
  {
    i < n && msgs[i].ErrorMsg? && forall j :: i < j < n ==> !msgs[j].ErrorMsg?
  }

  predicate NoErrorBefore(msgs: seq<Message>, n: nat)
    requires n <= |msgs|
  {
    forall i :: 0 <= i < n ==> !msgs[i].ErrorMsg?
  }

  lemma {:induction false} LastErrorOfIsLast(msgs: seq<Message>, n: nat)
    requires n <= |msgs|
    ensures forall i: nat :: LastErrorBefore(msgs, n, i) ==> LastErrorOf(msgs[..n]) == (msgs[i].message, msgs[i].traceback)
    ensures NoErrorBefore(msgs, n) ==> LastErrorOf(msgs[..n]) == ("", "")
    decreases n
  {
    if n > 0 {
      LastErrorOfIsLast(msgs, n - 1);
      assert msgs[..n][..n - 1] == msgs[..n - 1];
      forall i: nat | LastErrorBefore(msgs, n, i)
        ensures LastErrorOf(msgs[..n]) == (msgs[i].message, msgs[i].traceback)
      {
        if i < n - 1 {
          assert LastErrorBefore(msgs, n - 1, i);
        }
      }
    }
  }

  /** The toast of a failure at position `n` shows the last error before it, the fallback if that has no text or there is none. */
  ghost predicate ProperToast(toast: Report, msgs: seq<Message>, n: nat)
    requires n <= |msgs|
  {
    && toast.RunFailed?
    && (forall i: nat :: LastErrorBefore(msgs, n, i) ==>
          && toast.traceback == msgs[i].traceback
          && if msgs[i].message == "" then toast.body.None? else toast.body == Some(msgs[i].message))
    && (NoErrorBefore(msgs, n) ==> toast.body.None? && toast.traceback == "")
  }

  /** Over all messages there is one toast for each status that is Failed, and no other. */
  function Failures(msgs: seq<Message>): seq<nat> {
    if msgs == [] then []
    else
      var n := |msgs| - 1;
      Failures(msgs[..n]) + if msgs[n] == StatusMsg(Failed) then [n] else []
  }

  /** Each toast is the proper one for the failure at its position. */
  ghost predicate ToastsProper(toasts: seq<Report>, failures: seq<nat>, msgs: seq<Message>) {
    && |toasts| == |failures|
    && forall k :: 0 <= k < |toasts| ==> failures[k] <= |msgs| && ProperToast(toasts[k], msgs, failures[k])
  }

  lemma ProperStays(toast: Report, msgs: seq<Message>, last: Message, n: nat)
    requires n <= |msgs| && ProperToast(toast, msgs, n)
    ensures ProperToast(toast, msgs + [last], n)
  {
    var all := msgs + [last];
    forall i: nat | LastErrorBefore(all, n, i) ensures LastErrorBefore(msgs, n, i) && msgs[i] == all[i] {
      forall j | i < j < n ensures !msgs[j].ErrorMsg? {
        assert all[j] == msgs[j];
      }
    }
    if NoErrorBefore(all, n) {
      forall i | 0 <= i < n ensures !msgs[i].ErrorMsg? {
        assert all[i] == msgs[i];
      }
    }
  }

  lemma AllStayProper(toasts: seq<Report>, failures: seq<nat>, msgs: seq<Message>, last: Message)
    requires ToastsProper(toasts, failures, msgs)
    ensures ToastsProper(toasts, failures, msgs + [last])
  {
    forall k | 0 <= k < |toasts| ensures failures[k] <= |msgs| + 1 && ProperToast(toasts[k], msgs + [last], failures[k]) {
      ProperStays(toasts[k], msgs, last, failures[k]);
    }
  }

  lemma NewToastIsProper(msgs: seq<Message>, last: Message)
    requires last == StatusMsg(Failed)
    ensures ProperToast(RunFailed(Body(LastErrorOf(msgs).0), LastErrorOf(msgs).1), msgs + [last], |msgs|)
  {
    LastErrorOfIsLast(msgs + [last], |msgs|);
    assert (msgs + [last])[..|msgs|] == msgs;
  }

  lemma OneMoreIsProper(toasts: seq<Report>, failures: seq<nat>, msgs: seq<Message>, toast: Report, n: nat)
    requires ToastsProper(toasts, failures, msgs) && n <= |msgs| && ProperToast(toast, msgs, n)
    ensures ToastsProper(toasts + [toast], failures + [n], msgs)
  {}

  /** Whatever comes over the channel: one toast for each failure, in order, each with the last error before it. */
  lemma {:induction false} ToastsAreProper(msgs: seq<Message>, cancelled: seq<bool>)
    requires |msgs| <= |cancelled|
    ensures ToastsProper(Toasts(Reports(msgs, cancelled)), Failures(msgs), msgs)
  {
    if msgs != [] {
      var n := |msgs| - 1;
      var before, last := msgs[..n], msgs[n];
      assert msgs == before + [last];
      ToastsAreProper(before, cancelled);
      ToastsOf(msgs, cancelled);
      var toasts, failures := Toasts(Reports(before, cancelled)), Failures(before);
      AllStayProper(toasts, failures, before, last);
      if last == StatusMsg(Failed) {
        NewToastIsProper(before, last);
        OneMoreIsProper(toasts, failures, msgs, RunFailed(Body(LastErrorOf(before).0), LastErrorOf(before).1), n);
      } else {
        assert toasts + [] == toasts && failures + [] == failures;
      }
    }
  }
}
