/** The inductive invariants of the run lifecycle. */
module LifecycleInvariants {
  import opened Wrappers
  import opened Lifecycle

  // ----- Folds over the client's messages and the sent messages -----

  predicate AnyError(msgs: seq<ClientMsg>) {
    exists i :: 0 <= i < |msgs| && msgs[i].Error?
  }

  predicate TerminalReport(msg: ClientMsg) {
    msg.Report? && !msg.state.SaysOther?
  }

  /** The first status report that says completed or failed, reading from the front. */
  function FirstReport(msgs: seq<ClientMsg>): Option<Status> {
    if msgs == [] then None
    else if TerminalReport(msgs[0]) then Some(if msgs[0].state.SaysCompleted? then Completed else Failed)
    else FirstReport(msgs[1..])
  }

  /** The text of the last error, reading from the back. */
  function LastError(msgs: seq<ClientMsg>): Option<string> {
    if msgs == [] then None
    else
      var last := msgs[|msgs| - 1];
      if last.Error? then Some(last.message) else LastError(msgs[..|msgs| - 1])
  }

  /** What the flags stand for: sticky error, first report, last error text. */
  function Summary(msgs: seq<ClientMsg>): Flags {
    Flags(AnyError(msgs), FirstReport(msgs), LastError(msgs))
  }

  lemma {:induction false} FirstReportAppend(msgs: seq<ClientMsg>, msg: ClientMsg)
    ensures FirstReport(msgs + [msg])
         == if FirstReport(msgs).Some? then FirstReport(msgs) else FirstReport([msg])
  {
    if msgs == [] {
      assert msgs + [msg] == [msg];
    } else {
      assert (msgs + [msg])[0] == msgs[0] && (msgs + [msg])[1..] == msgs[1..] + [msg];
      FirstReportAppend(msgs[1..], msg);
    }
  }

  lemma SummaryAppend(msgs: seq<ClientMsg>, msg: ClientMsg)
    ensures Summary(msgs + [msg]) == Flags(
      AnyError(msgs) || msg.Error?,
      if FirstReport(msgs).Some? then FirstReport(msgs) else FirstReport([msg]),
      if msg.Error? then Some(msg.message) else LastError(msgs))
    ensures FirstReport([msg])
         == if TerminalReport(msg) then Some(if msg.state.SaysCompleted? then Completed else Failed) else None
  {
    FirstReportAppend(msgs, msg);
    var all := msgs + [msg];
    assert all[|all| - 1] == msg && all[..|all| - 1] == msgs;
    if AnyError(msgs) {
      var i :| 0 <= i < |msgs| && msgs[i].Error?;
      assert all[i].Error?;
    }
    assert [msg][1..] == [];
  }

  /** The statuses among the messages, in order. */
  function Statuses(msgs: seq<Message>): seq<Status> {
    if msgs == [] then []
    else
      var last := msgs[|msgs| - 1];
      Statuses(msgs[..|msgs| - 1]) + if last.StatusMsg? then [last.state] else []
  }

  lemma StatusesAppend(msgs: seq<Message>, msg: Message)
    ensures Statuses(msgs + [msg]) == Statuses(msgs) + if msg.StatusMsg? then [msg.state] else []
  {
    assert (msgs + [msg])[..|msgs|] == msgs;
  }

  // ----- One run -----

  predicate HasSent(waiter: Waiter) {
    waiter.WReadMessage? || waiter.WCleanup? || CleanedUp(waiter)
  }

  predicate Decided(waiter: Waiter) {
    waiter.WSend? || waiter.WLock? || waiter.WHold? || HasSent(waiter)
  }

  predicate Retired(waiter: Waiter) {
    waiter.WRecord? || waiter.WDone?
  }

  predicate ChannelGone(starter: Starter, waiter: Waiter) {
    starter.SGone? || waiter.WFinish? || Retired(waiter)
  }

  /** Which program counters go together, and with what in `activeRuns`. */
  predicate Shape(entry: Entry, reaper: Reaper, consumer: Consumer, idle: bool) {
    && (!reaper.waiter.WNone? <==> entry.starter.SReturned?)
    && (!reaper.waiter.WNone? && !reaper.waiter.WWait? ==> reaper.exit.Some?)
    && (entry.active.Some? <==> (entry.starter.SActive? || entry.starter.SReturned?) && !Retired(reaper.waiter))
    && (entry.active.Some? ==> entry.active.value.status == Running)
    && (!consumer.CNone? ==> entry.starter.SReturned?)
    && (!idle || reaper.exit.Some? ==> Spawned(entry.starter))
    && reaper.ignored == 0
  }

  /** The channel by itself. */
  predicate QueueOk(channel: Channel) {
    && channel.delivered + channel.buffer == channel.sent
    && |channel.buffer| <= MESSAGE_BUFFER_SIZE
    && channel.sendsAfterClose == 0
    && channel.closes == (if channel.phase == Done then 1 else 0)
    && (channel.phaseMu != Nobody ==> channel.phase != Done)
    && (channel.consumer.CEnded? ==> channel.buffer == [] && channel.phase == Done)
  }

  /** The channel against the threads that use it and the server's map. */
  predicate LinksOk(entry: Entry, handler: Handler, waiter: Waiter, channel: Channel) {
    && (entry.registered <==> channel.phase != Done)
    && (channel.phase == Done <==> ChannelGone(entry.starter, waiter))
    && (channel.phase == Connected ==> !handler.HIdle?)
    && (channel.phase == Registered ==> handler.HIdle?)
    && (channel.phaseMu == ByHandler <==> handler.HHold?)
    && (channel.phaseMu == ByWaiter <==> waiter.WHold?)
  }

  predicate StreamOk(stream: Stream) {
    && stream.connects == (if stream.handler.HIdle? then 0 else 1)
    && stream.ends == (if stream.handler.HEnded? then 1 else 0)
    && (stream.handler.HSend? || stream.handler.HHold? ==> !stream.handler.out.StatusMsg?)
  }

  /** The flags are the summary of what was taken, up to the message being dispatched. */
  predicate FlagsOk(stream: Stream) {
    var taken := stream.taken;
    match stream.handler
    case HGot(msg) =>
      taken != [] && taken[|taken| - 1] == msg && stream.flags == Summary(taken[..|taken| - 1])
    case HStored(msg) =>
      && taken != [] && taken[|taken| - 1] == msg && msg.Error?
      && stream.flags == Summary(taken[..|taken| - 1]).(gotError := true)
    case _ => stream.flags == Summary(taken)
  }

  predicate SentOk(reaper: Reaper, sent: seq<Message>) {
    var waiter := reaper.waiter;
    && Statuses(sent) == (if HasSent(waiter) then [waiter.status] else [])
    && (HasSent(waiter) && reaper.quietDerivation ==>
          sent != [] && sent[|sent| - 1] == StatusMsg(waiter.status))
  }

  /** The trust order of `deriveFinalStatus`, as one function of everything that happened. */
  function Verdict(cancelled: bool, exit: Exit, msgs: seq<ClientMsg>): Status {
    if cancelled then Cancelled
    else if Clean(exit) && !AnyError(msgs) && FirstReport(msgs) == Some(Completed) then Completed
    else Failed
  }

  /** The same decision on the flags. */
  function FlagVerdict(cancelled: bool, exit: Exit, flags: Flags): Status {
    if cancelled then Cancelled
    else if Clean(exit) && !flags.gotError && flags.pythonStatus == Some(Completed) then Completed
    else Failed
  }

  predicate VerdictOk(cancelled: bool, reaper: Reaper, flags: Flags) {
    var waiter, quiet := reaper.waiter, reaper.quietDerivation;
    && (waiter.WReadError? || waiter.WReadFailed? || waiter.WReadCompleted? ==>
          !cancelled && reaper.exit.Some? && Clean(reaper.exit.value))
    && (quiet && (waiter.WReadFailed? || waiter.WReadCompleted?) ==> !flags.gotError)
    && (Decided(waiter) ==>
          && reaper.exit.Some? && IsTerminal(waiter.status)
          && (waiter.status == Cancelled <==> cancelled)
          && (waiter.status == Completed ==> Clean(reaper.exit.value) && flags.pythonStatus == Some(Completed))
          && (quiet ==> waiter.status == FlagVerdict(cancelled, reaper.exit.value, flags)))
  }

  /** Once quiet, the stream stays quiet, so what was folded is all there will ever be. */
  predicate QuietOk(reaper: Reaper, stream: Stream) {
    && (reaper.quietDerivation ==> Detached(stream) && HasRead(reaper.waiter))
    && (reaper.quietCleanup ==> Detached(stream) && CleanedUp(reaper.waiter))
    && (stream.lateCacheUse ==> CleanedUp(reaper.waiter) && !reaper.quietCleanup)
  }

  predicate CancelOk(entry: Entry, reaper: Reaper, outbox: seq<ServerMsg>) {
    && (!HasRead(reaper.waiter) ==>
          (entry.cancelledInTime <==> entry.active.Some? && entry.active.value.cancelRequested))
    && (reaper.exit.None? && (entry.cancelsInFlight > 0 || CancelRequest in outbox) ==> entry.cancelledInTime)
    && (entry.cancelSeen ==> entry.cancelledInTime)
  }

  predicate Ok(run: Run) {
    && Shape(run.entry, run.reaper, run.channel.consumer, run.stream.handler.HIdle?)
    && QueueOk(run.channel)
    && LinksOk(run.entry, run.stream.handler, run.reaper.waiter, run.channel)
    && StreamOk(run.stream)
    && FlagsOk(run.stream)
    && SentOk(run.reaper, run.channel.sent)
    && VerdictOk(run.entry.cancelledInTime, run.reaper, run.stream.flags)
    && QuietOk(run.reaper, run.stream)
    && CancelOk(run.entry, run.reaper, run.stream.outbox)
  }

  // ----- The handler -----

  /** Sticky error, first write of the status, last write of the text: one message at a time. */
  lemma DispatchKeepsFlags(stream: Stream, msg: ClientMsg, late: bool)
    requires FlagsOk(stream) && stream.handler == HGot(msg)
    ensures FlagsOk(Dispatch(stream, msg, late))
  {
    var before := stream.taken[..|stream.taken| - 1];
    assert stream.taken == before + [msg];
    SummaryAppend(before, msg);
  }

  lemma StoreKeepsFlags(stream: Stream, phase: Phase, ok: bool, late: bool)
    requires FlagsOk(stream) && stream.handler.HStored?
    ensures FlagsOk(HandleStep(stream, phase, ok, late))
  {
    var before := stream.taken[..|stream.taken| - 1];
    assert stream.taken == before + [stream.handler.msg];
    SummaryAppend(before, stream.handler.msg);
  }

  lemma HandleKeepsFlags(stream: Stream, phase: Phase, ok: bool, late: bool)
    requires FlagsOk(stream)
    ensures FlagsOk(HandleStep(stream, phase, ok, late))
  {
    if stream.handler.HGot? {
      DispatchKeepsFlags(stream, stream.handler.msg, late);
    } else if stream.handler.HStored? {
      StoreKeepsFlags(stream, phase, ok, late);
    } else if stream.handler.HRecv? && stream.inbox != [] {
      assert (stream.taken + [stream.inbox[0]])[..|stream.taken|] == stream.taken;
    }
  }

  lemma HandleKeepsStream(stream: Stream, channel: Channel, ok: bool, late: bool)
    requires StreamOk(stream) && HandleEnabled(stream, channel, ok)
    ensures StreamOk(HandleStep(stream, channel.phase, ok, late))
  {}

  lemma PushKeepsQueue(channel: Channel, msg: Message)
    requires QueueOk(channel) && |channel.buffer| < MESSAGE_BUFFER_SIZE && channel.phaseMu != Nobody
    ensures QueueOk(Push(channel, msg))
  {
    assert channel.delivered + (channel.buffer + [msg]) == channel.delivered + channel.buffer + [msg];
  }

  lemma HandleKeepsQueue(run: Run, ok: bool)
    requires QueueOk(run.channel) && LinksOk(run.entry, run.stream.handler, run.reaper.waiter, run.channel)
    requires HandleEnabled(run.stream, run.channel, ok)
    ensures QueueOk(HandleOnChannel(run.stream.handler, run.channel))
  {
    if run.stream.handler.HHold? {
      PushKeepsQueue(run.channel, run.stream.handler.out);
    }
  }

  lemma HandleKeepsLinks(run: Run, ok: bool, late: bool)
    requires QueueOk(run.channel) && LinksOk(run.entry, run.stream.handler, run.reaper.waiter, run.channel)
    requires HandleEnabled(run.stream, run.channel, ok)
    ensures LinksOk(run.entry, HandleStep(run.stream, run.channel.phase, ok, late).handler, run.reaper.waiter,
                    HandleOnChannel(run.stream.handler, run.channel))
  {}

  /** What the other threads may rely on when the handler takes a step. */
  lemma HandleFrame(stream: Stream, channel: Channel, ok: bool, late: bool)
    requires HandleEnabled(stream, channel, ok)
    ensures var after := HandleStep(stream, channel.phase, ok, late);
      && !Detached(stream) && !after.handler.HIdle?
      && (stream.flags.pythonStatus.Some? ==> after.flags.pythonStatus == stream.flags.pythonStatus)
      && (CancelRequest in after.outbox ==> CancelRequest in stream.outbox)
      && (after.lateCacheUse ==> stream.lateCacheUse || late)
  {}

  lemma HandleKeepsSent(reaper: Reaper, stream: Stream, channel: Channel, ok: bool)
    requires SentOk(reaper, channel.sent) && StreamOk(stream) && QuietOk(reaper, stream)
    requires HandleEnabled(stream, channel, ok)
    ensures SentOk(reaper, HandleOnChannel(stream.handler, channel).sent)
  {
    if stream.handler.HHold? {
      StatusesAppend(channel.sent, stream.handler.out);
    }
  }

  lemma HandleKeepsOk(run: Run, free: bool, ok: bool)
    requires Ok(run) && Enabled(run, free, Handle(ok))
    ensures Ok(Step(run, free, Handle(ok)))
  {
    var late := CleanedUp(run.reaper.waiter);
    HandleKeepsFlags(run.stream, run.channel.phase, ok, late);
    HandleKeepsStream(run.stream, run.channel, ok, late);
    HandleKeepsQueue(run, ok);
    HandleKeepsLinks(run, ok, late);
    HandleFrame(run.stream, run.channel, ok, late);
    HandleKeepsSent(run.reaper, run.stream, run.channel, ok);
  }

  // ----- The reaper -----

  lemma WaitKeepsShape(run: Run, free: bool, timeout: bool)
    requires Shape(run.entry, run.reaper, run.channel.consumer, run.stream.handler.HIdle?)
    requires WaitEnabled(run, free, timeout)
    ensures Shape(WaitOnEntry(run.reaper.waiter, run.entry), WaitOnReaper(run),
                  run.channel.consumer, run.stream.handler.HIdle?)
  {}

  lemma WaitKeepsQueue(run: Run, free: bool, timeout: bool)
    requires QueueOk(run.channel) && LinksOk(run.entry, run.stream.handler, run.reaper.waiter, run.channel)
    requires WaitEnabled(run, free, timeout)
    ensures QueueOk(WaitOnChannel(run.reaper.waiter, run.channel))
  {
    if run.reaper.waiter.WHold? {
      PushKeepsQueue(run.channel, StatusMsg(run.reaper.waiter.status));
    }
  }

  lemma WaitKeepsLinks(run: Run, free: bool, timeout: bool)
    requires Ok(run) && WaitEnabled(run, free, timeout)
    ensures LinksOk(WaitOnEntry(run.reaper.waiter, run.entry), run.stream.handler, NextWaiter(run),
                    WaitOnChannel(run.reaper.waiter, run.channel))
  {}

  /** The status goes out in one step of the reaper, and does not change afterwards. */
  lemma StatusGoesOutOnce(run: Run, free: bool, timeout: bool)
    requires LinksOk(run.entry, run.stream.handler, run.reaper.waiter, run.channel)
    requires Shape(run.entry, run.reaper, run.channel.consumer, run.stream.handler.HIdle?)
    requires WaitEnabled(run, free, timeout)
    ensures HasSent(NextWaiter(run)) <==> HasSent(run.reaper.waiter) || run.reaper.waiter.WHold?
    ensures HasSent(NextWaiter(run)) ==>
      && NextWaiter(run).status == run.reaper.waiter.status
      && WaitOnReaper(run).quietDerivation == run.reaper.quietDerivation
  {}

  lemma SentNow(reaper: Reaper, sent: seq<Message>, status: Status)
    requires Statuses(sent) == [] && HasSent(reaper.waiter) && reaper.waiter.status == status
    ensures SentOk(reaper, sent + [StatusMsg(status)])
  {
    StatusesAppend(sent, StatusMsg(status));
  }

  lemma SentBefore(reaper: Reaper, after: Reaper, sent: seq<Message>)
    requires SentOk(reaper, sent) && (HasSent(after.waiter) <==> HasSent(reaper.waiter))
    requires HasSent(after.waiter) ==>
      after.waiter.status == reaper.waiter.status && after.quietDerivation == reaper.quietDerivation
    ensures SentOk(after, sent)
  {}

  lemma WaitKeepsSent(run: Run, free: bool, timeout: bool)
    requires LinksOk(run.entry, run.stream.handler, run.reaper.waiter, run.channel)
    requires SentOk(run.reaper, run.channel.sent) && WaitEnabled(run, free, timeout)
    requires Shape(run.entry, run.reaper, run.channel.consumer, run.stream.handler.HIdle?)
    ensures SentOk(WaitOnReaper(run), WaitOnChannel(run.reaper.waiter, run.channel).sent)
  {
    StatusGoesOutOnce(run, free, timeout);
    var waiter, sent := run.reaper.waiter, run.channel.sent;
    if waiter.WHold? {
      SentNow(WaitOnReaper(run), sent, waiter.status);
    } else {
      SentBefore(run.reaper, WaitOnReaper(run), sent);
    }
  }

  lemma DeciderKeepsVerdict(run: Run, free: bool, timeout: bool)
    requires Ok(run) && WaitEnabled(run, free, timeout) && !Decided(run.reaper.waiter)
    ensures VerdictOk(run.entry.cancelledInTime, WaitOnReaper(run), run.stream.flags)
  {}

  lemma DecidedKeepsVerdict(run: Run, free: bool, timeout: bool)
    requires VerdictOk(run.entry.cancelledInTime, run.reaper, run.stream.flags)
    requires Shape(run.entry, run.reaper, run.channel.consumer, run.stream.handler.HIdle?)
    requires WaitEnabled(run, free, timeout) && Decided(run.reaper.waiter)
    ensures VerdictOk(run.entry.cancelledInTime, WaitOnReaper(run), run.stream.flags)
  {}

  lemma WaitKeepsVerdict(run: Run, free: bool, timeout: bool)
    requires Ok(run) && WaitEnabled(run, free, timeout)
    ensures VerdictOk(run.entry.cancelledInTime, WaitOnReaper(run), run.stream.flags)
  {
    if Decided(run.reaper.waiter) {
      DecidedKeepsVerdict(run, free, timeout);
    } else {
      DeciderKeepsVerdict(run, free, timeout);
    }
  }

  lemma WaitKeepsQuiet(run: Run, free: bool, timeout: bool)
    requires QuietOk(run.reaper, run.stream) && WaitEnabled(run, free, timeout)
    ensures QuietOk(WaitOnReaper(run), run.stream)
  {}

  lemma WaitKeepsCancel(run: Run, free: bool, timeout: bool)
    requires Ok(run) && WaitEnabled(run, free, timeout)
    ensures CancelOk(WaitOnEntry(run.reaper.waiter, run.entry), WaitOnReaper(run), run.stream.outbox)
  {}

  lemma WaitKeepsOk(run: Run, free: bool, timeout: bool)
    requires Ok(run) && Enabled(run, free, Wait(timeout))
    ensures Ok(Step(run, free, Wait(timeout)))
  {
    WaitKeepsShape(run, free, timeout);
    WaitKeepsQueue(run, free, timeout);
    WaitKeepsLinks(run, free, timeout);
    WaitKeepsSent(run, free, timeout);
    WaitKeepsVerdict(run, free, timeout);
    WaitKeepsQuiet(run, free, timeout);
    WaitKeepsCancel(run, free, timeout);
  }

  // ----- Everybody else -----

  lemma ConsumeKeepsOk(run: Run, free: bool)
    requires Ok(run) && Enabled(run, free, Consume)
    ensures Ok(Step(run, free, Consume))
  {
    var channel := run.channel;
    if channel.buffer != [] {
      assert channel.delivered + [channel.buffer[0]] + channel.buffer[1..] == channel.delivered + channel.buffer;
    }
  }

  lemma StartKeepsShape(run: Run, free: bool, ok: bool)
    requires Ok(run) && StartEnabled(run, free)
    ensures var after := StartStep(run, ok);
      && Shape(after.entry, after.reaper, after.channel.consumer, after.stream.handler.HIdle?)
      && LinksOk(after.entry, after.stream.handler, after.reaper.waiter, after.channel)
  {}

  lemma StartKeepsOk(run: Run, free: bool, ok: bool)
    requires Ok(run) && Enabled(run, free, Start(ok))
    ensures Ok(Step(run, free, Start(ok)))
  {
    StartKeepsShape(run, free, ok);
  }

  lemma ConnectKeepsOk(run: Run, free: bool)
    requires Ok(run) && Enabled(run, free, Connect)
    ensures Ok(Step(run, free, Connect))
  {}

  lemma CancelKeepsOk(run: Run, free: bool)
    requires Ok(run) && Enabled(run, free, CancelRun)
    ensures Ok(Step(run, free, CancelRun))
  {}

  lemma SendCancelKeepsOk(run: Run, free: bool, ok: bool)
    requires Ok(run) && Enabled(run, free, SendCancel(ok))
    ensures Ok(Step(run, free, SendCancel(ok)))
  {}

  lemma ObserveKeepsOk(run: Run, free: bool)
    requires Ok(run) && Enabled(run, free, Observe)
    ensures Ok(Step(run, free, Observe))
  {}

  lemma EnvironmentKeepsOk(run: Run, free: bool, action: Action)
    requires Ok(run) && Enabled(run, free, action)
    requires action.Attach? || action.ClientSend? || action.Quit? || action.AnswerDialog?
    ensures Ok(Step(run, free, action))
  {}

  lemma StepKeepsOk(run: Run, free: bool, action: Action)
    requires Ok(run) && Enabled(run, free, action)
    ensures Ok(Step(run, free, action))
  {
    match action
    case Register =>
    case Start(ok) => StartKeepsOk(run, free, ok);
    case Attach => EnvironmentKeepsOk(run, free, action);
    case Connect => ConnectKeepsOk(run, free);
    case ClientSend(_) => EnvironmentKeepsOk(run, free, action);
    case Observe => ObserveKeepsOk(run, free);
    case AnswerDialog => EnvironmentKeepsOk(run, free, action);
    case Quit(_) => EnvironmentKeepsOk(run, free, action);
    case Handle(ok) => HandleKeepsOk(run, free, ok);
    case Wait(timeout) => WaitKeepsOk(run, free, timeout);
    case Consume => ConsumeKeepsOk(run, free);
    case CancelRun => CancelKeepsOk(run, free);
    case SendCancel(ok) => SendCancelKeepsOk(run, free, ok);
  }
}
