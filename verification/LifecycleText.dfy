/** The text that goes with a failed run into the database: what it is, and that it gets there once. */
module LifecycleText {
  import opened Ids
  import opened Wrappers
  import opened Lifecycle
  import opened LifecycleInvariants
  import opened LifecycleTheorems
  import opened LifecycleResults

  // ----- The text that is called for -----

  /** The last error among the messages has this text: no error comes after it. */
  predicate LastErrorIs(msgs: seq<ClientMsg>, text: string) {
    exists i :: 0 <= i < |msgs| && LastErrorAt(msgs, i, text)
  }

  predicate LastErrorAt(msgs: seq<ClientMsg>, i: nat, text: string)
    requires i < |msgs|
  {
    msgs[i].Error? && msgs[i].message == text && forall j :: i < j < |msgs| ==> !msgs[j].Error?
  }

  /** The text is all of `full`, or its first 4096 characters and the mark. */
  predicate Shortens(text: string, full: string) {
    if |full| <= 4096 then text == full
    else |text| == 4096 + |TRUNCATED| && text[..4096] == full[..4096] && text[4096..] == TRUNCATED
  }

  /** The text that belongs to a run that ended this way and whose client said this. */
  predicate ProperText(text: string, exit: Exit, status: Status, msgs: seq<ClientMsg>) {
    if status != Failed then text == ""
    else if exit.stderr != "" then Shortens(text, exit.stderr)
    else if AnyError(msgs) && !LastErrorIs(msgs, "") then LastErrorIs(msgs, text)
    else text == if exit.waitErr.Some? then exit.waitErr.value else ""
  }

  lemma LastErrorStays(msgs: seq<ClientMsg>, msg: ClientMsg, text: string)
    requires !msg.Error? && LastErrorIs(msgs, text)
    ensures LastErrorIs(msgs + [msg], text)
  {
    var i :| 0 <= i < |msgs| && LastErrorAt(msgs, i, text);
    assert LastErrorAt(msgs + [msg], i, text);
  }

  lemma LastErrorWas(msgs: seq<ClientMsg>, msg: ClientMsg, text: string)
    requires LastErrorIs(msgs + [msg], text)
    ensures if msg.Error? then msg.message == text else LastErrorIs(msgs, text)
  {
    var all := msgs + [msg];
    var i :| 0 <= i < |all| && LastErrorAt(all, i, text);
    assert all[|msgs|] == msg;
    if i < |msgs| {
      assert forall j :: i < j < |msgs| ==> msgs[j] == all[j];
      assert LastErrorAt(msgs, i, text);
    }
  }

  /** The fold from the back finds the last error. */
  lemma {:induction false} LastErrorIsLast(msgs: seq<ClientMsg>, text: string)
    ensures LastErrorIs(msgs, text) <==> LastError(msgs) == Some(text)
  {
    if msgs != [] {
      var before, last := msgs[..|msgs| - 1], msgs[|msgs| - 1];
      assert msgs == before + [last];
      LastErrorIsLast(before, text);
      if LastErrorIs(msgs, text) {
        LastErrorWas(before, last, text);
      }
      if last.Error? && last.message == text {
        assert LastErrorAt(msgs, |before|, text);
      } else if !last.Error? && LastErrorIs(before, text) {
        LastErrorStays(before, last, text);
      }
    }
  }

  lemma {:induction false} NoErrorNoText(msgs: seq<ClientMsg>)
    ensures AnyError(msgs) <==> LastError(msgs).Some?
  {
    if msgs != [] {
      var before, last := msgs[..|msgs| - 1], msgs[|msgs| - 1];
      assert msgs == before + [last];
      NoErrorNoText(before);
      SummaryAppend(before, last);
    }
  }

  /** The priority of the code, on the flags or on what they stand for: stderr, the last error, the process error. */
  lemma ErrorTextIsProper(exit: Exit, registered: bool, flags: Flags, status: Status, msgs: seq<ClientMsg>)
    requires flags.errorMessage == LastError(msgs) && (registered || msgs == [])
    ensures ProperText(ErrorText(exit, registered, flags, status), exit, status, msgs)
  {
    NoErrorNoText(msgs);
    LastErrorIsLast(msgs, "");
    if LastError(msgs).Some? {
      LastErrorIsLast(msgs, LastError(msgs).value);
    }
  }

  lemma ShortensOnce(a: string, b: string, full: string)
    requires Shortens(a, full) && Shortens(b, full)
    ensures a == b
  {
    if |full| > 4096 {
      assert a == a[..4096] + a[4096..] && b == b[..4096] + b[4096..];
    }
  }

  /** And no other text is: what a run's end and its messages call for is determined. */
  lemma ProperTextIsUnique(a: string, b: string, exit: Exit, status: Status, msgs: seq<ClientMsg>)
    requires ProperText(a, exit, status, msgs) && ProperText(b, exit, status, msgs)
    ensures a == b
  {
    LastErrorIsLast(msgs, a);
    LastErrorIsLast(msgs, b);
    if status == Failed && exit.stderr != "" {
      ShortensOnce(a, b, exit.stderr);
    }
  }

  // ----- It is captured once -----

  predicate HasText(waiter: Waiter) {
    waiter.WCleanup? || CleanedUp(waiter)
  }

  /** The captured text is proper for the first `n` messages taken; if the stream ended in time, for all of them. */
  predicate TextOkAt(reaper: Reaper, taken: seq<ClientMsg>, n: nat) {
    && n <= |taken| && HasText(reaper.waiter) && reaper.exit.Some?
    && ProperText(reaper.waiter.message, reaper.exit.value, reaper.waiter.status, taken[..n])
    && (reaper.quietDerivation ==> n == |taken|)
  }

  ghost predicate TextOk(run: Run) {
    HasText(run.reaper.waiter) ==> exists n: nat :: TextOkAt(run.reaper, run.stream.taken, n)
  }

  /** What the error text stands for: all that was taken, or all but the message at hand. */
  function Counted(stream: Stream): (n: nat)
    ensures n <= |stream.taken|
  {
    if stream.taken != [] && (stream.handler.HGot? || stream.handler.HStored?) then |stream.taken| - 1 else |stream.taken|
  }

  lemma FlagTextIsLastError(stream: Stream)
    requires FlagsOk(stream)
    ensures stream.flags.errorMessage == LastError(stream.taken[..Counted(stream)])
    ensures Detached(stream) ==> Counted(stream) == |stream.taken|
  {
    assert stream.taken[..|stream.taken|] == stream.taken;
  }

  lemma Captures(run: Run, free: bool, timeout: bool)
    requires Ok(run) && WaitEnabled(run, free, timeout) && run.reaper.waiter.WReadMessage?
    ensures run.entry.registered && run.reaper.exit.Some?
    ensures var exit, status := run.reaper.exit, run.reaper.waiter.status;
      WaitOnReaper(run)
      == run.reaper.(waiter := WCleanup(status, ErrorText(exit.value, true, run.stream.flags, status)))
  {}

  lemma CaptureIsProper(run: Run, free: bool, timeout: bool)
    requires Ok(run) && WaitEnabled(run, free, timeout) && run.reaper.waiter.WReadMessage?
    ensures TextOkAt(WaitOnReaper(run), run.stream.taken, Counted(run.stream))
  {
    Captures(run, free, timeout);
    FlagTextIsLastError(run.stream);
    ErrorTextIsProper(run.reaper.exit.value, true, run.stream.flags, run.reaper.waiter.status,
                      run.stream.taken[..Counted(run.stream)]);
  }

  /** There is one step that captures the text. */
  lemma CapturedOnce(run: Run, free: bool, action: Action)
    requires Enabled(run, free, action) && !HasText(run.reaper.waiter)
    ensures HasText(Step(run, free, action).reaper.waiter) ==> action.Wait? && run.reaper.waiter.WReadMessage?
  {}

  /** Once captured it stays, and what is taken only grows, or stays if the stream has ended. */
  lemma CapturedStays(run: Run, free: bool, action: Action)
    requires Ok(run) && Enabled(run, free, action) && HasText(run.reaper.waiter)
    ensures var after := Step(run, free, action);
      && HasText(after.reaper.waiter) && after.reaper.exit == run.reaper.exit
      && after.reaper.waiter.message == run.reaper.waiter.message
      && after.reaper.waiter.status == run.reaper.waiter.status
      && after.reaper.quietDerivation == run.reaper.quietDerivation
  {}

  lemma TakenGrows(run: Run, free: bool, action: Action)
    requires Enabled(run, free, action)
    ensures run.stream.taken <= Step(run, free, action).stream.taken
    ensures Detached(run.stream) ==> Step(run, free, action).stream.taken == run.stream.taken
  {}

  lemma StepKeepsText(run: Run, free: bool, action: Action)
    requires Ok(run) && TextOk(run) && Enabled(run, free, action)
    ensures TextOk(Step(run, free, action))
  {
    var after := Step(run, free, action);
    if HasText(run.reaper.waiter) {
      var n: nat :| TextOkAt(run.reaper, run.stream.taken, n);
      CapturedStays(run, free, action);
      TakenGrows(run, free, action);
      assert after.stream.taken[..n] == run.stream.taken[..n];
      assert TextOkAt(after.reaper, after.stream.taken, n);
    } else {
      CapturedOnce(run, free, action);
      if action.Wait? && run.reaper.waiter.WReadMessage? {
        CaptureIsProper(run, free, action.timeout);
        assert after.stream == run.stream && after.reaper == WaitOnReaper(run);
      }
    }
  }

  lemma {:induction false} TextInvariance(events: seq<Event>, id: RunId)
    requires Replay(events).Some? && id in Replay(events).value.runs
    ensures TextOk(Replay(events).value.runs[id])
  {
    var before, last := events[..|events| - 1], events[|events| - 1];
    var state := Replay(before).value;
    if id in state.runs {
      TextInvariance(before, id);
      if last.run == id {
        Invariance(before);
        StepKeepsText(state.runs[id], state.serverMu.None?, last.action);
      }
    }
  }

  // ----- The database -----

  lemma ToldAsSettled(events: seq<Event>, id: RunId)
    requires Replay(events).Some? && id in Replay(events).value.runs
    requires Replay(events).value.runs[id].reaper.waiter.WDone?
    ensures var waiter := Replay(events).value.runs[id].reaper.waiter;
      UpdatesOf(Replay(events).value.db, id) == [Update(id, waiter.status, waiter.message)]
  {
    Invariance(events);
    assert DatabaseOf(Replay(events).value, id);
  }

  /** The text belongs to the run's end and an initial part of what its handler received. */
  ghost predicate BelongsToPart(text: string, exit: Exit, status: Status, taken: seq<ClientMsg>) {
    exists n: nat :: n <= |taken| && ProperText(text, exit, status, taken[..n])
  }

  lemma TextBelongs(reaper: Reaper, taken: seq<ClientMsg>, n: nat)
    requires TextOkAt(reaper, taken, n)
    ensures BelongsToPart(reaper.waiter.message, reaper.exit.value, reaper.waiter.status, taken)
    ensures reaper.quietDerivation ==>
      ProperText(reaper.waiter.message, reaper.exit.value, reaper.waiter.status, taken)
  {
    assert taken[..|taken|] == taken;
  }

  lemma TextIsProper(events: seq<Event>, id: RunId)
    requires Replay(events).Some? && id in Replay(events).value.runs
    requires HasText(Replay(events).value.runs[id].reaper.waiter)
    ensures var reaper, taken := Replay(events).value.runs[id].reaper, Replay(events).value.runs[id].stream.taken;
      && reaper.exit.Some?
      && BelongsToPart(reaper.waiter.message, reaper.exit.value, reaper.waiter.status, taken)
      && (reaper.quietDerivation ==>
            ProperText(reaper.waiter.message, reaper.exit.value, reaper.waiter.status, taken))
  {
    var run := Replay(events).value.runs[id];
    TextInvariance(events, id);
    var n: nat :| TextOkAt(run.reaper, run.stream.taken, n);
    TextBelongs(run.reaper, run.stream.taken, n);
  }

  lemma ExitIsQuit(events: seq<Event>, id: RunId)
    requires Replay(events).Some? && id in Replay(events).value.runs
    ensures Replay(events).value.runs[id].reaper.exit == QuitWith(events, id)
  {
    HistoryIsTheEvents(events, id);
  }

  /**
   In every interleaving whatever, a reaped run has had one database update, with the text that belongs
   to its end and to an initial part of what the handler received; if the stream ended in time, with
   the verdict on all of that and the text that belongs to all of it.
   */
  lemma DatabaseIsToldOnce(events: seq<Event>, id: RunId)
    requires Replay(events).Some? && id in Replay(events).value.runs
    requires Replay(events).value.runs[id].reaper.waiter.WDone?
    ensures QuitWith(events, id).Some? && |UpdatesOf(Replay(events).value.db, id)| == 1
    ensures var run, exit := Replay(events).value.runs[id], QuitWith(events, id).value;
      var told := UpdatesOf(Replay(events).value.db, id)[0];
      && told.run == id && (told.status == Cancelled <==> CancelledInTime(events, id))
      && BelongsToPart(told.message, exit, told.status, run.stream.taken)
      && (run.reaper.quietDerivation ==>
            && told.status == Verdict(CancelledInTime(events, id), exit, run.stream.taken)
            && ProperText(told.message, exit, told.status, run.stream.taken))
  {
    ToldAsSettled(events, id);
    TerminalStatusIsAFold(events, id);
    ExitIsQuit(events, id);
    TextIsProper(events, id);
  }
}
