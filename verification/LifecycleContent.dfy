/**
 What the channel carries. However the threads interleave, a run whose stream ended before its status
 was derived delivers what serving the client alone would have sent, then the status, and no more.
 */
module LifecycleContent {
  import opened Ids
  import opened Sequences
  import opened Lifecycle
  import opened LifecycleInvariants
  import opened LifecycleTheorems
  import LifecycleResults

  /** What the handler forwards, message by message. */
  function Forwarded(msgs: seq<ClientMsg>): seq<Message> {
    if msgs == [] then [] else Forwarded(msgs[..|msgs| - 1]) + ForwardedOne(msgs[|msgs| - 1])
  }

  function ForwardedOne(msg: ClientMsg): seq<Message> {
    match msg
    case Output(text) => [OutputMsg(text)]
    case Progress(current, total, name) => [ProgressMsg(current, total, name)]
    case Error(message, traceback, severity) => [ErrorMsg(message, traceback, severity)]
    case _ => []
  }

  lemma ForwardedAppend(msgs: seq<ClientMsg>, msg: ClientMsg)
    ensures Forwarded(msgs + [msg]) == Forwarded(msgs) + ForwardedOne(msg)
  {
    assert (msgs + [msg])[..|msgs|] == msgs;
  }

  /** The messages that did not come from the reaper. */
  function Content(msgs: seq<Message>): seq<Message> {
    if msgs == [] then []
    else
      var last := msgs[|msgs| - 1];
      Content(msgs[..|msgs| - 1]) + if last.StatusMsg? then [] else [last]
  }

  lemma ContentAppend(msgs: seq<Message>, msg: Message)
    ensures Content(msgs + [msg]) == Content(msgs) + if msg.StatusMsg? then [] else [msg]
  {
    assert (msgs + [msg])[..|msgs|] == msgs;
  }

  lemma {:induction false} NoStatusAllContent(msgs: seq<Message>)
    requires Statuses(msgs) == []
    ensures Content(msgs) == msgs
  {
    if msgs != [] {
      NoStatusAllContent(msgs[..|msgs| - 1]);
    }
  }

  /** What the handler has taken but not yet tried to send. */
  function Pending(handler: Handler): seq<Message> {
    match handler
    case HGot(msg) => ForwardedOne(msg)
    case HStored(msg) => ForwardedOne(msg)
    case HSend(out) => [out]
    case HHold(out) => [out]
    case _ => []
  }

  /** Nothing is lost while the channel is open, and nothing at all if the stream ended in time. */
  predicate ContentOk(stream: Stream, channel: Channel, quiet: bool) {
    && (channel.phase != Done ==> Content(channel.sent) + Pending(stream.handler) == Forwarded(stream.taken))
    && Content(channel.sent) <= Forwarded(stream.taken)
    && (quiet ==> Content(channel.sent) == Forwarded(stream.taken))
  }

  lemma TakeKeepsContent(stream: Stream, channel: Channel, quiet: bool, late: bool)
    requires ContentOk(stream, channel, quiet) && !quiet && stream.handler.HRecv? && stream.inbox != []
    ensures ContentOk(HandleStep(stream, channel.phase, true, late), channel, quiet)
  {
    ForwardedAppend(stream.taken, stream.inbox[0]);
    assert Content(channel.sent) + [] == Content(channel.sent);
  }

  lemma PushKeepsContent(stream: Stream, channel: Channel, quiet: bool, ok: bool, late: bool)
    requires ContentOk(stream, channel, quiet) && !quiet && StreamOk(stream)
    requires stream.handler.HHold? && channel.phase != Done
    ensures ContentOk(HandleStep(stream, channel.phase, ok, late), Push(channel, stream.handler.out), quiet)
  {
    ContentAppend(channel.sent, stream.handler.out);
    assert Content(channel.sent) + [stream.handler.out] + [] == Content(channel.sent) + [stream.handler.out];
  }

  lemma DispatchPends(stream: Stream, msg: ClientMsg, late: bool)
    ensures Dispatch(stream, msg, late).taken == stream.taken
    ensures Pending(Dispatch(stream, msg, late).handler) == ForwardedOne(msg)
  {}

  /** All other steps leave what is taken and pending as it is, or give a message up after the close. */
  lemma PassKeepsPending(stream: Stream, phase: Phase, ok: bool, late: bool)
    requires FlagsOk(stream) && !stream.handler.HHold? && !(stream.handler.HRecv? && ok && stream.inbox != [])
    ensures var after := HandleStep(stream, phase, ok, late);
      && after.taken == stream.taken
      && (Pending(after.handler) == Pending(stream.handler) || phase == Done)
  {
    if stream.handler.HGot? {
      DispatchPends(stream, stream.handler.msg, late);
    } else if stream.handler.HStored? {
      assert stream.handler.msg.Error?;
    }
  }

  lemma PassKeepsContent(stream: Stream, channel: Channel, quiet: bool, ok: bool, late: bool)
    requires ContentOk(stream, channel, quiet) && FlagsOk(stream)
    requires !stream.handler.HHold? && !(stream.handler.HRecv? && ok && stream.inbox != [])
    ensures ContentOk(HandleStep(stream, channel.phase, ok, late), HandleOnChannel(stream.handler, channel), quiet)
  {
    PassKeepsPending(stream, channel.phase, ok, late);
    var after := HandleOnChannel(stream.handler, channel);
    assert after.sent == channel.sent && after.phase == channel.phase;
  }

  lemma HandleKeepsContent(run: Run, free: bool, ok: bool)
    requires Ok(run) && ContentOk(run.stream, run.channel, run.reaper.quietDerivation)
    requires Enabled(run, free, Handle(ok))
    ensures var after := Step(run, free, Handle(ok));
      ContentOk(after.stream, after.channel, after.reaper.quietDerivation)
  {
    var late, quiet := CleanedUp(run.reaper.waiter), run.reaper.quietDerivation;
    if run.stream.handler.HHold? {
      PushKeepsContent(run.stream, run.channel, quiet, ok, late);
    } else if run.stream.handler.HRecv? && ok {
      TakeKeepsContent(run.stream, run.channel, quiet, late);
    } else {
      PassKeepsContent(run.stream, run.channel, quiet, ok, late);
    }
  }

  lemma WaitKeepsContent(run: Run, free: bool, timeout: bool)
    requires Ok(run) && ContentOk(run.stream, run.channel, run.reaper.quietDerivation)
    requires WaitEnabled(run, free, timeout)
    ensures ContentOk(run.stream, WaitOnChannel(run.reaper.waiter, run.channel), WaitOnReaper(run).quietDerivation)
  {
    if run.reaper.waiter.WHold? {
      ContentAppend(run.channel.sent, StatusMsg(run.reaper.waiter.status));
      assert Content(run.channel.sent) + [] == Content(run.channel.sent);
    } else {
      assert Detached(run.stream) ==> Pending(run.stream.handler) == [];
      assert Content(run.channel.sent) + [] == Content(run.channel.sent);
    }
  }

  lemma OthersKeepContent(run: Run, free: bool, action: Action)
    requires ContentOk(run.stream, run.channel, run.reaper.quietDerivation)
    requires Enabled(run, free, action) && !action.Handle? && !action.Wait?
    ensures var after := Step(run, free, action);
      ContentOk(after.stream, after.channel, after.reaper.quietDerivation)
  {}

  lemma StepKeepsContent(run: Run, free: bool, action: Action)
    requires Ok(run) && ContentOk(run.stream, run.channel, run.reaper.quietDerivation)
    requires Enabled(run, free, action)
    ensures var after := Step(run, free, action);
      ContentOk(after.stream, after.channel, after.reaper.quietDerivation)
  {
    if action.Handle? {
      HandleKeepsContent(run, free, action.ok);
    } else if action.Wait? {
      WaitKeepsContent(run, free, action.timeout);
    } else {
      OthersKeepContent(run, free, action);
    }
  }

  lemma {:induction false} ContentInvariance(events: seq<Event>, id: RunId)
    requires Replay(events).Some? && id in Replay(events).value.runs
    ensures var run := Replay(events).value.runs[id];
      ContentOk(run.stream, run.channel, run.reaper.quietDerivation)
  {
    var before, last := events[..|events| - 1], events[|events| - 1];
    var state := Replay(before).value;
    if id in state.runs {
      ContentInvariance(before, id);
      if last.run == id {
        Invariance(before);
        StepKeepsContent(state.runs[id], state.serverMu.None?, last.action);
      }
    }
  }

  lemma SplitLast(msgs: seq<Message>)
    requires msgs != [] && msgs[|msgs| - 1].StatusMsg? && |Statuses(msgs)| == 1
    ensures msgs == Content(msgs) + [msgs[|msgs| - 1]]
  {
    var before, last := msgs[..|msgs| - 1], msgs[|msgs| - 1];
    assert msgs == before + [last];
    StatusesAppend(before, last);
    ContentAppend(before, last);
    NoStatusAllContent(before);
  }

  lemma DrainedIsSent(events: seq<Event>, id: RunId)
    requires Replay(events).Some? && id in Replay(events).value.runs
    requires var run := Replay(events).value.runs[id]; run.reaper.quietDerivation && run.channel.consumer.CEnded?
    ensures var run := Replay(events).value.runs[id];
      && run.channel.delivered == run.channel.sent && Decided(run.reaper.waiter)
      && Statuses(run.channel.sent) == [run.reaper.waiter.status]
      && run.channel.sent != [] && run.channel.sent[|run.channel.sent| - 1] == StatusMsg(run.reaper.waiter.status)
  {
    Invariance(events);
    var run := Replay(events).value.runs[id];
    assert run.channel.delivered + [] == run.channel.delivered;
  }

  lemma QuietContent(events: seq<Event>, id: RunId)
    requires Replay(events).Some? && id in Replay(events).value.runs
    requires Replay(events).value.runs[id].reaper.quietDerivation
    ensures var run := Replay(events).value.runs[id]; Content(run.channel.sent) == Forwarded(run.stream.taken)
  {
    ContentInvariance(events, id);
  }

  /**
   The concurrent system refines the sequential one. Whatever the schedule, if the stream had ended
   when the status was derived and the consumer has drained the channel, the consumer was given
   exactly what serving the received messages in order sends, followed by the verdict on them.
   */
  lemma DeliveryIsSequential(events: seq<Event>, id: RunId)
    requires Replay(events).Some? && id in Replay(events).value.runs
    requires var run := Replay(events).value.runs[id]; run.reaper.quietDerivation && run.channel.consumer.CEnded?
    ensures LifecycleResults.QuitWith(events, id).Some?
    ensures var run := Replay(events).value.runs[id];
      run.channel.delivered == Forwarded(run.stream.taken)
        + [StatusMsg(Verdict(LifecycleResults.CancelledInTime(events, id), LifecycleResults.QuitWith(events, id).value, run.stream.taken))]
  {
    DrainedIsSent(events, id);
    QuietContent(events, id);
    LifecycleResults.TerminalStatusIsAFold(events, id);
    SplitLast(Replay(events).value.runs[id].channel.sent);
  }

  /** In any schedule, what is delivered is in the order Python said it, and nothing is made up. */
  lemma DeliveryIsFaithful(events: seq<Event>, id: RunId)
    requires Replay(events).Some? && id in Replay(events).value.runs
    ensures var run := Replay(events).value.runs[id];
      Content(run.channel.delivered + run.channel.buffer) <= Forwarded(LifecycleResults.Said(events, id))
  {
    var run := Replay(events).value.runs[id];
    Invariance(events);
    ContentInvariance(events, id);
    LifecycleResults.HistoryIsTheEvents(events, id);
    ForwardedPlus(run.stream.taken, run.stream.inbox);
    assert Forwarded(run.stream.taken) <= Forwarded(run.stream.taken) + Forwarded(run.stream.inbox);
  }

  lemma {:induction false} ForwardedIsConcat(msgs: seq<ClientMsg>)
    ensures Forwarded(msgs) == Concat(msgs, ForwardedOne)
  {
    if msgs != [] {
      ForwardedIsConcat(msgs[..|msgs| - 1]);
    }
  }

  lemma ForwardedPlus(msgs: seq<ClientMsg>, more: seq<ClientMsg>)
    ensures Forwarded(msgs + more) == Forwarded(msgs) + Forwarded(more)
  {
    ForwardedIsConcat(msgs);
    ForwardedIsConcat(more);
    ForwardedIsConcat(msgs + more);
    ConcatPlus(msgs, more, ForwardedOne);
  }
}
