/**
 The run lifecycle as a transition system over unboundedly many runs: `GRPCServer.Execute` and the
 message channel, `Manager.StartRun`, `Manager.waitForExit`, `Manager.CancelRun`, the Python process
 and the consumer of the channel.

 Every thread of the source has its own program counter and every step is one atomic access or one
 critical section. Two locks are held across a wait and are therefore part of the state: the server
 lock, which `UnregisterRun` holds while it waits for `phaseMu`, and `phaseMu`, which `trySend` holds
 while it waits for buffer space. All other critical sections wait for nothing inside.
 */
module Lifecycle {
  import opened Ids
  import opened Wrappers
  import Cache

  const MESSAGE_BUFFER_SIZE := 100

  datatype Status = Running | Completed | Failed | Cancelled

  predicate IsTerminal(status: Status) {
    status == Completed || status == Failed || status == Cancelled
  }

  /** The text of a status report, as far as the handler tells texts apart. */
  datatype Reported = SaysCompleted | SaysFailed | SaysOther(text: string)

  /** What Python puts on the stream; `Request` stands for the database calls. */
  datatype ClientMsg =
    | Output(text: string)
    | Progress(current: int, total: int, name: string)
    | Report(state: Reported)
    | Error(message: string, traceback: string, severity: int)
    | CacheCreate(key: string, shm: string, size: int)
    | CacheLookup(key: string)
    | CacheRelease(key: string)
    | Request
    | Dialog

  datatype ServerMsg = CancelRequest | Reply

  /** The messages that are answered. */
  predicate Asks(msg: ClientMsg) {
    msg.CacheCreate? || msg.CacheLookup? || msg.Request? || msg.Dialog?
  }

  /** What travels over a run's `Messages` channel. */
  datatype Message =
    | OutputMsg(text: string)
    | ProgressMsg(current: int, total: int, name: string)
    | StatusMsg(state: Status)
    | ErrorMsg(message: string, traceback: string, severity: int)

  datatype Exit = Exit(code: int, waitErr: Option<string>, stderr: string)

  predicate Clean(exit: Exit) {
    exit.waitErr.None? && exit.code == 0
  }

  datatype Phase = Registered | Connected | Done

  predicate LegalPhaseTransition(from: Phase, to: Phase) {
    if to == Done then from != Done else from == Registered && to == Connected
  }

  datatype Holder = Nobody | ByHandler | ByWaiter

  /** The `Messages` channel of a run with its lock; the last four fields are history. */
  datatype Channel = Channel(
    phase: Phase, phaseMu: Holder, buffer: seq<Message>, consumer: Consumer,
    sent: seq<Message>, delivered: seq<Message>, closes: nat, sendsAfterClose: nat)

  /** The payload atomics of a `RunChannel`. */
  datatype Flags = Flags(gotError: bool, pythonStatus: Option<Status>, errorMessage: Option<string>)

  /** `StartRun`. */
  datatype Starter = SRegistered | SStarted | SActive | SReturned | SFailed | SUnregistering | SGone

  /** `Execute` and `handleClientMessage`. */
  datatype Handler =
    | HIdle | HRecv | HGot(msg: ClientMsg) | HStored(msg: ClientMsg)
    | HSend(out: Message) | HHold(out: Message) | HDialog | HReply | HEnded

  /** `waitForExit`, down to the atomic reads of `deriveFinalStatus`. */
  datatype Waiter =
    | WNone | WWait | WCheckStream | WAwaitStream
    | WReadCancel | WReadError | WReadFailed | WReadCompleted
    | WSend(status: Status) | WLock(status: Status) | WHold(status: Status) | WReadMessage(status: Status)
    | WCleanup(status: Status, message: string) | WUnregister(status: Status, message: string)
    | WUnregistering(status: Status, message: string) | WFinish(status: Status, message: string)
    | WRecord(status: Status, message: string) | WDone(status: Status, message: string)

  datatype Consumer = CNone | CRange | CEnded

  datatype ActiveRun = ActiveRun(status: Status, cancelRequested: bool)

  /** A run's gRPC stream with the goroutine that serves it, and both directions of traffic. */
  datatype Stream = Stream(
    handler: Handler, flags: Flags,
    inbox: seq<ClientMsg>,        // client to server, not yet received
    taken: seq<ClientMsg>,        // received by the handler, in order
    outbox: seq<ServerMsg>,       // server to client, not yet read by Python
    connects: nat, ends: nat,     // closes of `connected` and of `streamDone`
    lateCacheUse: bool)           // history: the handler used the cache after CleanupRun

  /** The goroutine that reaps a run's process. The flags and the count are history. */
  datatype Reaper = Reaper(
    waiter: Waiter, exit: Option<Exit>,
    quietDerivation: bool,        // no live handler when derivation began
    quietCleanup: bool,           // no live handler when CleanupRun ran
    ignored: nat)                 // "ignoring status transition" reports

  /** A run's keys in `GRPCServer.runs` and `Manager.activeRuns`, its starter and its cancellers. */
  datatype Entry = Entry(
    starter: Starter, registered: bool, active: Option<ActiveRun>,
    cancelsInFlight: nat,         // CancelRun calls between setting the flag and SendCancel
    cancelledInTime: bool,        // history: some CancelRun set the flag before it was read
    cancelSeen: bool)             // history: Python has read a CancelRequest

  datatype Run = Run(entry: Entry, stream: Stream, reaper: Reaper, channel: Channel)

  datatype Record = Record(run: RunId, status: Status)
  datatype Update = Update(run: RunId, status: Status, message: string)

  datatype State = State(
    runs: map<RunId, Run>,
    serverMu: Option<RunId>,      // the run whose UnregisterRun holds the server lock
    history: seq<Record>,
    db: seq<Update>,
    cache: Cache.Registry)

  datatype Action =
    | Register
    | Start(ok: bool)
    | Attach                      // `go forwardMessages`
    | Connect                     // Execute up to its receive loop
    | ClientSend(msg: ClientMsg)
    | Observe                     // Python reads one server message
    | AnswerDialog                // the user closes a file dialog
    | Quit(exit: Exit)
    | Handle(ok: bool)
    | Wait(timeout: bool)
    | Consume
    | CancelRun
    | SendCancel(ok: bool)

  const INIT := State(map[], None, [], [], Cache.EMPTY)

  const FRESH := Run(
    Entry(SRegistered, true, None, 0, false, false),
    Stream(HIdle, Flags(false, None, None), [], [], [], 0, 0, false),
    Reaper(WNone, None, false, false, 0),
    Channel(Registered, Nobody, [], CNone, [], [], 0, 0))

  // ----- The stream handler -----

  predicate Detached(stream: Stream) {
    stream.handler.HIdle? || stream.handler.HEnded?
  }

  /** `handleClientMessage` up to its next atomic access; `late` once the cache was cleaned up. */
  function Dispatch(stream: Stream, msg: ClientMsg, late: bool): Stream {
    match msg
    case Output(text) => stream.(handler := HSend(OutputMsg(text)))
    case Progress(current, total, name) => stream.(handler := HSend(ProgressMsg(current, total, name)))
    case Report(state) =>
      stream.(handler := HRecv, flags := stream.flags.(pythonStatus := FirstWrite(stream.flags.pythonStatus, state)))
    case Error(_, _, _) => stream.(handler := HStored(msg), flags := stream.flags.(gotError := true))
    case CacheCreate(_, _, _) => stream.(handler := HReply, lateCacheUse := stream.lateCacheUse || late)
    case CacheLookup(_) => stream.(handler := HReply, lateCacheUse := stream.lateCacheUse || late)
    case CacheRelease(_) => stream.(handler := HRecv)
    case Request => stream.(handler := HReply)
    case Dialog => stream.(handler := HDialog)
  }

  function FirstWrite(first: Option<Status>, state: Reported): Option<Status> {
    if first.Some? then first
    else match state
      case SaysCompleted => Some(Completed)
      case SaysFailed => Some(Failed)
      case SaysOther(_) => None
  }

  predicate HandleEnabled(stream: Stream, channel: Channel, ok: bool) {
    match stream.handler
    case HIdle => false
    case HRecv => ok ==> stream.inbox != []
    case HSend(_) => channel.phaseMu == Nobody
    case HHold(_) => |channel.buffer| < MESSAGE_BUFFER_SIZE
    case HDialog => false
    case HEnded => false
    case _ => true
  }

  /** One step of the handler on its own stream; `ok` is false when `Recv` or `Send` fails. */
  function HandleStep(stream: Stream, phase: Phase, ok: bool, late: bool): Stream {
    match stream.handler
    case HRecv =>
      if !ok || stream.inbox == [] then stream.(handler := HEnded, ends := stream.ends + 1)
      else
        var msg := stream.inbox[0];
        stream.(handler := HGot(msg), inbox := stream.inbox[1..], taken := stream.taken + [msg])
    case HGot(msg) => Dispatch(stream, msg, late)
    case HStored(msg) =>
      if !msg.Error? then stream
      else stream.(handler := HSend(ErrorMsg(msg.message, msg.traceback, msg.severity)),
                   flags := stream.flags.(errorMessage := Some(msg.message)))
    case HSend(out) => stream.(handler := if phase == Done then HRecv else HHold(out))
    case HHold(_) => stream.(handler := HRecv)
    case HReply =>
      if ok then stream.(handler := HRecv, outbox := stream.outbox + [Reply])
      else stream.(handler := HEnded, ends := stream.ends + 1)
    case _ => stream
  }

  // ----- The channel -----

  function TransitionTo(channel: Channel, target: Phase): Channel {
    if !LegalPhaseTransition(channel.phase, target) then channel
    else if target == Done then channel.(phase := Done, closes := channel.closes + 1)
    else channel.(phase := target)
  }

  function LockToSend(channel: Channel, holder: Holder): Channel {
    if channel.phase == Done then channel else channel.(phaseMu := holder)
  }

  function Push(channel: Channel, msg: Message): Channel {
    channel.(phaseMu := Nobody,
             buffer := channel.buffer + [msg],
             sent := channel.sent + [msg],
             sendsAfterClose := channel.sendsAfterClose + if channel.closes > 0 then 1 else 0)
  }

  /** What a handler step does to the channel. */
  function HandleOnChannel(handler: Handler, channel: Channel): Channel {
    match handler
    case HSend(_) => LockToSend(channel, ByHandler)
    case HHold(out) => Push(channel, out)
    case _ => channel
  }

  predicate ConsumeEnabled(channel: Channel) {
    channel.consumer.CRange? && (channel.buffer != [] || channel.closes > 0)
  }

  function ConsumeStep(channel: Channel): Channel {
    if channel.buffer == [] then channel.(consumer := CEnded)
    else channel.(buffer := channel.buffer[1..], delivered := channel.delivered + [channel.buffer[0]])
  }

  // ----- Reaping -----

  predicate HasRead(waiter: Waiter) {
    !(waiter.WNone? || waiter.WWait? || waiter.WCheckStream? || waiter.WAwaitStream? || waiter.WReadCancel?)
  }

  predicate CleanedUp(waiter: Waiter) {
    waiter.WUnregister? || waiter.WUnregistering? || waiter.WFinish? || waiter.WRecord? || waiter.WDone?
  }

  predicate WaitEnabled(run: Run, free: bool, timeout: bool) {
    match run.reaper.waiter
    case WNone => false
    case WWait => run.reaper.exit.Some?
    case WCheckStream => free
    case WAwaitStream => timeout || run.stream.ends > 0
    case WReadCancel => run.reaper.exit.Some?
    case WReadError => free
    case WReadFailed => free
    case WReadCompleted => free
    case WSend(_) => free
    case WLock(_) => run.channel.phaseMu == Nobody
    case WHold(_) => |run.channel.buffer| < MESSAGE_BUFFER_SIZE
    case WReadMessage(status) =>
      run.reaper.exit.Some? && (free || status != Failed || run.reaper.exit.value.stderr != "")
    case WCleanup(_, _) => true
    case WUnregister(_, _) => free
    case WUnregistering(_, _) => run.channel.phaseMu == Nobody
    case WFinish(_, _) => true
    case WRecord(_, _) => true
    case WDone(_, _) => false
  }

  const MAX_STDERR_LOG := 4096

  const TRUNCATED := "\n... (truncated)"

  function Truncated(text: string): string {
    if |text| > MAX_STDERR_LOG then text[..MAX_STDERR_LOG] + TRUNCATED else text
  }

  /** The text for the database: stderr, else the last error message, else the process error. */
  function ErrorText(exit: Exit, registered: bool, flags: Flags, status: Status): string {
    if status != Failed then ""
    else if exit.stderr != "" then Truncated(exit.stderr)
    else if registered && flags.errorMessage.Some? && flags.errorMessage.value != "" then flags.errorMessage.value
    else if exit.waitErr.Some? then exit.waitErr.value
    else ""
  }

  predicate Stuck(entry: Entry) {
    entry.active.Some? && IsTerminal(entry.active.value.status)
  }

  function RecordedStatus(entry: Entry, status: Status): Status {
    if Stuck(entry) then entry.active.value.status else status
  }

  /** Where `waitForExit` goes next. */
  function NextWaiter(run: Run): Waiter {
    var registered, flags := run.entry.registered, run.stream.flags;
    match run.reaper.waiter
    case WWait => WCheckStream
    case WCheckStream => if registered && run.stream.connects > 0 then WAwaitStream else WReadCancel
    case WAwaitStream => WReadCancel
    case WReadCancel =>
      if run.entry.active.Some? && run.entry.active.value.cancelRequested then WSend(Cancelled)
      else if run.reaper.exit.Some? && !Clean(run.reaper.exit.value) then WSend(Failed)
      else WReadError
    case WReadError => if registered && flags.gotError then WSend(Failed) else WReadFailed
    case WReadFailed => if registered && flags.pythonStatus == Some(Failed) then WSend(Failed) else WReadCompleted
    case WReadCompleted => WSend(if registered && flags.pythonStatus == Some(Completed) then Completed else Failed)
    case WSend(status) => if registered then WLock(status) else WReadMessage(status)
    case WLock(status) => if run.channel.phase == Done then WReadMessage(status) else WHold(status)
    case WHold(status) => WReadMessage(status)
    case WReadMessage(status) =>
      WCleanup(status, if run.reaper.exit.Some? then ErrorText(run.reaper.exit.value, registered, flags, status) else "")
    case WCleanup(status, message) => WUnregister(status, message)
    case WUnregister(status, message) => if registered then WUnregistering(status, message) else WFinish(status, message)
    case WUnregistering(status, message) => WFinish(status, message)
    case WFinish(status, message) => WRecord(RecordedStatus(run.entry, status), message)
    case WRecord(status, message) => WDone(status, message)
    case other => other
  }

  function WaitOnReaper(run: Run): Reaper {
    var reaper := run.reaper.(waiter := NextWaiter(run));
    match run.reaper.waiter
    case WReadCancel => reaper.(quietDerivation := Detached(run.stream))
    case WCleanup(_, _) => reaper.(quietCleanup := Detached(run.stream))
    case WFinish(_, _) => reaper.(ignored := reaper.ignored + if Stuck(run.entry) then 1 else 0)
    case _ => reaper
  }

  function WaitOnChannel(waiter: Waiter, channel: Channel): Channel {
    match waiter
    case WLock(_) => LockToSend(channel, ByWaiter)
    case WHold(status) => Push(channel, StatusMsg(status))
    case WUnregistering(_, _) => TransitionTo(channel, Done)
    case _ => channel
  }

  function WaitOnEntry(waiter: Waiter, entry: Entry): Entry {
    match waiter
    case WUnregistering(_, _) => entry.(registered := false)
    case WFinish(_, _) => entry.(active := None)
    case _ => entry
  }

  // ----- Starting -----

  predicate StartEnabled(run: Run, free: bool) {
    match run.entry.starter
    case SRegistered => true
    case SStarted => true
    case SActive => true
    case SFailed => free
    case SUnregistering => run.channel.phaseMu == Nobody
    case _ => false
  }

  function StartStep(run: Run, ok: bool): Run {
    var entry := run.entry;
    match entry.starter
    case SRegistered => run.(entry := entry.(starter := if ok then SStarted else SFailed))
    case SStarted => run.(entry := entry.(starter := SActive, active := Some(ActiveRun(Running, false))))
    case SActive => run.(entry := entry.(starter := SReturned), reaper := run.reaper.(waiter := WWait))
    case SFailed => run.(entry := entry.(starter := if entry.registered then SUnregistering else SGone))
    case SUnregistering =>
      run.(entry := entry.(starter := SGone, registered := false), channel := TransitionTo(run.channel, Done))
    case _ => run
  }

  // ----- One run -----

  predicate Spawned(starter: Starter) {
    starter.SStarted? || starter.SActive? || starter.SReturned?
  }

  predicate Alive(run: Run) {
    Spawned(run.entry.starter) && run.reaper.exit.None?
  }

  /** May the run take this step, the server lock being free or not? */
  predicate Enabled(run: Run, free: bool, action: Action) {
    match action
    case Register => false
    case Start(_) => StartEnabled(run, free)
    case Attach => run.entry.starter.SReturned? && run.channel.consumer.CNone?
    case Connect => Alive(run) && run.stream.handler.HIdle? && run.entry.registered && free
    case ClientSend(_) => Alive(run) && !run.stream.handler.HIdle?
    case Observe => Alive(run) && run.stream.outbox != []
    case AnswerDialog => run.stream.handler.HDialog?
    case Quit(_) => Alive(run)
    case Handle(ok) => HandleEnabled(run.stream, run.channel, ok)
    case Wait(timeout) => WaitEnabled(run, free, timeout)
    case Consume => ConsumeEnabled(run.channel)
    case CancelRun => run.entry.active.Some?
    case SendCancel(ok) =>
      run.entry.cancelsInFlight > 0 && free && (ok ==> run.entry.registered && !run.stream.handler.HIdle?)
  }

  function ConnectStep(run: Run): Run {
    var opens := if LegalPhaseTransition(run.channel.phase, Connected) then 1 else 0;
    run.(stream := run.stream.(handler := HRecv, connects := run.stream.connects + opens),
         channel := TransitionTo(run.channel, Connected))
  }

  function CancelStep(run: Run): Run
    requires run.entry.active.Some?
  {
    run.(entry := run.entry.(active := Some(run.entry.active.value.(cancelRequested := true)),
                             cancelsInFlight := run.entry.cancelsInFlight + 1,
                             cancelledInTime := run.entry.cancelledInTime || !HasRead(run.reaper.waiter)))
  }

  function SendCancelStep(run: Run, ok: bool): Run
    requires run.entry.cancelsInFlight > 0
  {
    run.(entry := run.entry.(cancelsInFlight := run.entry.cancelsInFlight - 1),
         stream := run.stream.(outbox := run.stream.outbox + if ok then [CancelRequest] else []))
  }

  function ObserveStep(run: Run): Run
    requires run.stream.outbox != []
  {
    run.(entry := run.entry.(cancelSeen := run.entry.cancelSeen || run.stream.outbox[0] == CancelRequest),
         stream := run.stream.(outbox := run.stream.outbox[1..]))
  }

  function Step(run: Run, free: bool, action: Action): Run
    requires Enabled(run, free, action)
  {
    match action
    case Register => run
    case Start(ok) => StartStep(run, ok)
    case Attach => run.(channel := run.channel.(consumer := CRange))
    case Connect => ConnectStep(run)
    case ClientSend(msg) => run.(stream := run.stream.(inbox := run.stream.inbox + [msg]))
    case Observe => ObserveStep(run)
    case AnswerDialog => run.(stream := run.stream.(handler := HReply))
    case Quit(exit) => run.(reaper := run.reaper.(exit := Some(exit)))
    case Handle(ok) =>
      run.(stream := HandleStep(run.stream, run.channel.phase, ok, CleanedUp(run.reaper.waiter)),
           channel := HandleOnChannel(run.stream.handler, run.channel))
    case Wait(_) =>
      Run(WaitOnEntry(run.reaper.waiter, run.entry), run.stream, WaitOnReaper(run),
          WaitOnChannel(run.reaper.waiter, run.channel))
    case Consume => run.(channel := ConsumeStep(run.channel))
    case CancelRun => CancelStep(run)
    case SendCancel(ok) => SendCancelStep(run, ok)
  }

  // ----- All runs -----

  predicate HoldsServerMu(run: Run) {
    run.entry.starter.SUnregistering? || run.reaper.waiter.WUnregistering?
  }

  function CacheEffect(cache: Cache.Registry, id: RunId, run: Run, action: Action): Cache.Registry {
    if action.Handle? && run.stream.handler.HGot? then
      match run.stream.handler.msg
      case CacheCreate(key, shm, size) => Cache.AfterRegister(cache, key, shm, size, id)
      case CacheLookup(key) => Cache.AfterLookup(cache, key, id)
      case CacheRelease(key) => Cache.AfterRelease(cache, key, id)
      case _ => cache
    else if action.Wait? && run.reaper.waiter.WCleanup? then Cache.AfterCleanup(cache, id)
    else cache
  }

  predicate CanStep(state: State, id: RunId, action: Action) {
    if action.Register? then id !in state.runs && state.serverMu.None?
    else id in state.runs && Enabled(state.runs[id], state.serverMu.None?, action)
  }

  function Next(state: State, id: RunId, action: Action): State
    requires CanStep(state, id, action)
  {
    if action.Register? then state.(runs := state.runs[id := FRESH])
    else
      var run := state.runs[id];
      var after := Step(run, state.serverMu.None?, action);
      State(
        state.runs[id := after],
        if HoldsServerMu(after) then Some(id) else if HoldsServerMu(run) then None else state.serverMu,
        state.history + Appended(id, run, action),
        state.db + Updated(id, run, action),
        CacheEffect(state.cache, id, run, action))
  }

  function Appended(id: RunId, run: Run, action: Action): seq<Record> {
    if action.Wait? && run.reaper.waiter.WFinish?
    then [Record(id, RecordedStatus(run.entry, run.reaper.waiter.status))] else []
  }

  function Updated(id: RunId, run: Run, action: Action): seq<Update> {
    if action.Wait? && run.reaper.waiter.WRecord?
    then [Update(id, run.reaper.waiter.status, run.reaper.waiter.message)] else []
  }

  datatype Event = Event(run: RunId, action: Action)

  /** The state after these events from the start, if each of them was possible where it occurs. */
  function Replay(events: seq<Event>): Option<State> {
    if events == [] then Some(INIT)
    else
      var before := Replay(events[..|events| - 1]);
      var last := events[|events| - 1];
      if before.None? || !CanStep(before.value, last.run, last.action) then None
      else Some(Next(before.value, last.run, last.action))
  }
}
