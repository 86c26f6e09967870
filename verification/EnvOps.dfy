/**
 Installing and uninstalling packages (`env_service.go`): any number of threads call `runInstall`,
 one compare-and-swap decides who proceeds, and the winner brackets its work with a start and an
 end event while two forwarders emit its log lines. One step is one access to the flag or one event.
 */
module EnvOps {
  type Tid = nat

  datatype Job = Job(op: string, spec: string)

  /** What observers see, with the thread on whose behalf it was emitted; `Polled` is an `EnvBusy` call. */
  datatype Event =
    | Start(who: Tid, job: Job)
    | Log(who: Tid, line: string)
    | Outcome(who: Tid, ok: bool)
    | End(who: Tid, job: Job)
    | Refusal(who: Tid)
    | Polled(busy: bool)

  datatype Phase =
    | Refused                                  // lost the swap, about to report "Operation busy"
    | Entered(job: Job)                        // won the swap, start event not yet emitted
    | Launching(job: Job)                      // building and starting the command
    | Streaming(job: Job, out: bool, err: bool)// which forwarders are still reading
    | Exited(job: Job, ok: bool)               // `runStreamed` returned
    | Reported(job: Job)                       // the outcome was reported, `exit` is deferred
    | Leaving                                  // end event emitted, flag not yet cleared

  datatype State = State(busy: bool, threads: map<Tid, Phase>, trace: seq<Event>)

  datatype Action =
    | CallRun(tid: Tid, job: Job)
    | ReportRefusal(tid: Tid)
    | EmitStart(tid: Tid)
    | Launch(tid: Tid, started: bool)
    | EmitLine(tid: Tid, stdout: bool, line: string)
    | CloseStream(tid: Tid, stdout: bool)
    | WaitReturns(tid: Tid, ok: bool)
    | ReportOutcome(tid: Tid)
    | EmitEnd(tid: Tid)
    | ClearFlag(tid: Tid)
    | Poll

  const INIT := State(false, map[], [])

  predicate CanStep(state: State, action: Action) {
    var threads := state.threads;
    match action
    case CallRun(tid, _) => tid !in threads
    case ReportRefusal(tid) => tid in threads && threads[tid].Refused?
    case EmitStart(tid) => tid in threads && threads[tid].Entered?
    case Launch(tid, _) => tid in threads && threads[tid].Launching?
    case EmitLine(tid, stdout, _) => tid in threads && Reads(threads[tid], stdout)
    case CloseStream(tid, stdout) => tid in threads && Reads(threads[tid], stdout)
    case WaitReturns(tid, _) => tid in threads && threads[tid].Streaming? && !threads[tid].out && !threads[tid].err
    case ReportOutcome(tid) => tid in threads && threads[tid].Exited?
    case EmitEnd(tid) => tid in threads && threads[tid].Reported?
    case ClearFlag(tid) => tid in threads && threads[tid].Leaving?
    case Poll => true
  }

  predicate Reads(phase: Phase, stdout: bool) {
    phase.Streaming? && if stdout then phase.out else phase.err
  }

  function Emit(state: State, event: Event): State {
    state.(trace := state.trace + [event])
  }

  function Move(state: State, tid: Tid, phase: Phase): State {
    state.(threads := state.threads[tid := phase])
  }

  function Step(state: State, action: Action): State
    requires CanStep(state, action)
  {
    match action
    case CallRun(tid, job) =>
      if state.busy then Move(state, tid, Refused) else Move(state.(busy := true), tid, Entered(job))
    case ReportRefusal(tid) => Emit(state.(threads := state.threads - {tid}), Refusal(tid))
    case EmitStart(tid) =>
      var job := state.threads[tid].job;
      Emit(Move(state, tid, Launching(job)), Start(tid, job))
    case Launch(tid, started) =>
      var job := state.threads[tid].job;
      Move(state, tid, if started then Streaming(job, true, true) else Exited(job, false))
    case EmitLine(tid, _, line) => Emit(state, Log(tid, line))
    case CloseStream(tid, stdout) =>
      var phase := state.threads[tid];
      Move(state, tid, if stdout then phase.(out := false) else phase.(err := false))
    case WaitReturns(tid, ok) => Move(state, tid, Exited(state.threads[tid].job, ok))
    case ReportOutcome(tid) =>
      var phase := state.threads[tid];
      Emit(Move(state, tid, Reported(phase.job)), Outcome(tid, phase.ok))
    case EmitEnd(tid) => Emit(Move(state, tid, Leaving), End(tid, state.threads[tid].job))
    case ClearFlag(tid) => state.(busy := false, threads := state.threads - {tid})
    case Poll => Emit(state, Polled(state.busy))
  }

  predicate CanReplay(state: State, actions: seq<Action>)
    decreases actions
  {
    actions == [] || (CanStep(state, actions[0]) && CanReplay(Step(state, actions[0]), actions[1..]))
  }

  function Replay(state: State, actions: seq<Action>): State
    requires CanReplay(state, actions)
    decreases actions
  {
    if actions == [] then state else Replay(Step(state, actions[0]), actions[1..])
  }

  // ----- What a proper trace is, without reference to threads or flags -----

  datatype Bracket = Closed | Working(who: Tid, job: Job) | Settled(who: Tid, job: Job) | Broken

  /**
   Brackets never nest or overlap; a start is followed by its own log lines only, then its own single
   outcome, then its own end; nobody who looks between a start and its end sees an idle service.
   */
  function After(bracket: Bracket, event: Event): Bracket {
    match event
    case Start(who, job) => if bracket.Closed? then Working(who, job) else Broken
    case Log(who, _) => if bracket.Working? && bracket.who == who then bracket else Broken
    case Outcome(who, _) => if bracket.Working? && bracket.who == who then Settled(who, bracket.job) else Broken
    case End(who, job) => if bracket == Settled(who, job) then Closed else Broken
    case Refusal(_) => bracket
    case Polled(busy) => if busy || bracket.Closed? then bracket else Broken
  }

  function Scan(trace: seq<Event>): Bracket {
    if trace == [] then Closed else After(Scan(trace[..|trace| - 1]), trace[|trace| - 1])
  }

  // ----- The invariant -----

  /** Which part of its bracket a thread is in. */
  function Share(tid: Tid, phase: Phase): Bracket {
    match phase
    case Launching(job) => Working(tid, job)
    case Streaming(job, _, _) => Working(tid, job)
    case Exited(job, _) => Working(tid, job)
    case Reported(job) => Settled(tid, job)
    case _ => Closed
  }

  predicate OnlyHolder(threads: map<Tid, Phase>, holder: Tid) {
    forall t :: t in threads ==> (t == holder <==> !threads[t].Refused?)
  }

  predicate NoHolder(threads: map<Tid, Phase>) {
    forall t :: t in threads ==> threads[t].Refused?
  }

  predicate HeldBy(state: State, holder: Tid) {
    && state.busy
    && holder in state.threads
    && OnlyHolder(state.threads, holder)
    && Scan(state.trace) == Share(holder, state.threads[holder])
  }

  ghost predicate Invariant(state: State) {
    if state.busy then exists holder :: HeldBy(state, holder)
    else NoHolder(state.threads) && Scan(state.trace) == Closed
  }

  /** The steps that only move a thread or the flag. */
  predicate Silent(action: Action) {
    action.CallRun? || action.Launch? || action.CloseStream? || action.WaitReturns? || action.ClearFlag?
  }

  lemma SilentStepKeepsHolder(state: State, action: Action, holder: Tid)
    requires HeldBy(state, holder) && CanStep(state, action) && Silent(action)
    ensures action != ClearFlag(holder) ==> HeldBy(Step(state, action), holder)
    ensures action == ClearFlag(holder) ==> Invariant(Step(state, action))
  {
  }

  /** The event a step that is not silent emits. */
  function EventOf(state: State, action: Action): Event
    requires CanStep(state, action) && !Silent(action)
  {
    match action
    case ReportRefusal(tid) => Refusal(tid)
    case EmitStart(tid) => Start(tid, state.threads[tid].job)
    case EmitLine(tid, _, line) => Log(tid, line)
    case ReportOutcome(tid) => Outcome(tid, state.threads[tid].ok)
    case EmitEnd(tid) => End(tid, state.threads[tid].job)
    case _ => Polled(state.busy)
  }

  lemma EventIsEmitted(state: State, action: Action)
    requires CanStep(state, action) && !Silent(action)
    ensures Step(state, action).trace == state.trace + [EventOf(state, action)]
    ensures Scan(Step(state, action).trace) == After(Scan(state.trace), EventOf(state, action))
  {
    var trace := state.trace + [EventOf(state, action)];
    assert Step(state, action).trace == trace;
    assert trace[..|trace| - 1] == state.trace;
  }

  lemma EventKeepsHolder(state: State, action: Action, holder: Tid)
    requires HeldBy(state, holder) && CanStep(state, action) && !Silent(action)
    ensures HeldBy(Step(state, action), holder)
  {
    EventIsEmitted(state, action);
  }

  lemma StepFromIdle(state: State, action: Action)
    requires Invariant(state) && !state.busy && CanStep(state, action)
    ensures Invariant(Step(state, action))
  {
    if action.CallRun? {
      assert HeldBy(Step(state, action), action.tid);
    } else {
      assert action.ReportRefusal? || action.Poll?;
      EventIsEmitted(state, action);
    }
  }

  lemma {:induction false} Invariance(state: State, actions: seq<Action>)
    requires Invariant(state) && CanReplay(state, actions)
    ensures Invariant(Replay(state, actions))
    decreases actions
  {
    if actions != [] {
      if state.busy {
        var holder :| HeldBy(state, holder);
        if Silent(actions[0]) {
          SilentStepKeepsHolder(state, actions[0], holder);
        } else {
          EventKeepsHolder(state, actions[0], holder);
        }
      } else {
        StepFromIdle(state, actions[0]);
      }
      Invariance(Step(state, actions[0]), actions[1..]);
    }
  }

  // ----- Results -----

  /** In every run, whatever the interleaving, the trace is a sequence of proper brackets. */
  lemma TraceIsBracketed(actions: seq<Action>)
    requires CanReplay(INIT, actions)
    ensures !Scan(Replay(INIT, actions).trace).Broken?
    ensures !Scan(Replay(INIT, actions).trace).Closed? ==> Replay(INIT, actions).busy
  {
    Invariance(INIT, actions);
  }

  /** At most one thread is past the compare-and-swap, and there is one exactly while the flag is set. */
  lemma MutualExclusion(actions: seq<Action>, t: Tid, u: Tid)
    requires CanReplay(INIT, actions)
    requires t in Replay(INIT, actions).threads && !Replay(INIT, actions).threads[t].Refused?
    ensures Replay(INIT, actions).busy
    ensures u in Replay(INIT, actions).threads && !Replay(INIT, actions).threads[u].Refused? ==> t == u
  {
    Invariance(INIT, actions);
  }

  /** The moves that take the holder from any phase to the cleared flag. */
  function WayOut(tid: Tid, phase: Phase): (out: seq<Action>)
    requires !phase.Refused?
    decreases match phase
      case Entered(_) => 7
      case Launching(_) => 6
      case Streaming(_, o, e) => 3 + (if o then 1 else 0) + (if e then 1 else 0)
      case Exited(_, _) => 2
      case Reported(_) => 1
      case _ => 0
  {
    match phase
    case Entered(job) => [EmitStart(tid)] + WayOut(tid, Launching(job))
    case Launching(job) => [Launch(tid, true)] + WayOut(tid, Streaming(job, true, true))
    case Streaming(job, o, e) =>
      if o then [CloseStream(tid, true)] + WayOut(tid, Streaming(job, false, e))
      else if e then [CloseStream(tid, false)] + WayOut(tid, Streaming(job, false, false))
      else [WaitReturns(tid, true)] + WayOut(tid, Exited(job, true))
    case Exited(job, ok) => [ReportOutcome(tid)] + WayOut(tid, Reported(job))
    case Reported(job) => [EmitEnd(tid)] + WayOut(tid, Leaving)
    case Leaving => [ClearFlag(tid)]
  }

  /** The holder never needs another thread: its own moves always lead to the cleared flag. */
  lemma {:induction false} HolderCanLeave(state: State, tid: Tid)
    requires tid in state.threads && !state.threads[tid].Refused?
    ensures CanReplay(state, WayOut(tid, state.threads[tid]))
    ensures Replay(state, WayOut(tid, state.threads[tid])).busy == false
    ensures Replay(state, WayOut(tid, state.threads[tid])).threads == state.threads - {tid}
    decreases |WayOut(tid, state.threads[tid])|
  {
    var path := WayOut(tid, state.threads[tid]);
    var next := Step(state, path[0]);
    if !state.threads[tid].Leaving? {
      assert path[1..] == WayOut(tid, next.threads[tid]);
      HolderCanLeave(next, tid);
      assert next.threads - {tid} == state.threads - {tid};
    } else {
      assert path[1..] == [];
    }
  }

  /** A set flag is always released: some continuation of any run clears it with the last bracket closed. */
  lemma FlagIsReleasable(actions: seq<Action>) returns (more: seq<Action>)
    requires CanReplay(INIT, actions)
    ensures CanReplay(Replay(INIT, actions), more)
    ensures !Replay(Replay(INIT, actions), more).busy
    ensures Scan(Replay(Replay(INIT, actions), more).trace) == Closed
  {
    var state := Replay(INIT, actions);
    Invariance(INIT, actions);
    more := [];
    if state.busy {
      var holder :| HeldBy(state, holder);
      HolderCanLeave(state, holder);
      more := WayOut(holder, state.threads[holder]);
      Invariance(state, more);
    }
  }

  // ----- What a proper trace says, position by position -----

  predicate Edge(event: Event) {
    event.Start? || event.End?
  }

  predicate Quiet(trace: seq<Event>, from: int, to: int) {
    forall m :: 0 <= m < |trace| && from < m < to ==> !Edge(trace[m])
  }

  lemma {:induction false} PrefixIsProper(trace: seq<Event>, n: nat)
    requires n <= |trace| && !Scan(trace).Broken?
    ensures !Scan(trace[..n]).Broken?
    decreases |trace|
  {
    if n < |trace| {
      PrefixIsProper(trace[..|trace| - 1], n);
      assert trace[..|trace| - 1][..n] == trace[..n];
    } else {
      assert trace[..n] == trace;
    }
  }

  lemma ScanNext(trace: seq<Event>, n: nat)
    requires n < |trace|
    ensures Scan(trace[..n + 1]) == After(Scan(trace[..n]), trace[n])
  {
    assert trace[..n + 1][..n] == trace[..n];
  }

  /** An open bracket was opened by the last edge before it. */
  lemma {:induction false} OpenedBy(trace: seq<Event>, n: nat) returns (k: nat)
    requires n <= |trace|
    requires Scan(trace[..n]).Working? || Scan(trace[..n]).Settled?
    ensures k < n && trace[k] == Start(Scan(trace[..n]).who, Scan(trace[..n]).job)
    ensures Quiet(trace, k, n)
    decreases n
  {
    ScanNext(trace, n - 1);
    if trace[n - 1].Start? {
      k := n - 1;
    } else {
      k := OpenedBy(trace, n - 1);
    }
  }

  /** Log line, outcome, end: each belongs to the thread of the last start, with no edge in between. */
  lemma InsideItsBracket(actions: seq<Action>, n: nat) returns (k: nat)
    requires CanReplay(INIT, actions) && n < |Replay(INIT, actions).trace|
    requires var e := Replay(INIT, actions).trace[n]; e.Log? || e.Outcome? || e.End?
    ensures var trace := Replay(INIT, actions).trace;
      && k < n && Quiet(trace, k, n)
      && trace[k].Start? && trace[k].who == trace[n].who
      && (trace[n].End? ==> trace[k].job == trace[n].job)
  {
    var trace := Replay(INIT, actions).trace;
    TraceIsBracketed(actions);
    PrefixIsProper(trace, n + 1);
    ScanNext(trace, n);
    k := OpenedBy(trace, n);
  }

  /** After a start, with no edge since, the bracket is still that start's. */
  lemma {:induction false} StillOpen(trace: seq<Event>, k: nat, n: nat)
    requires k < n <= |trace| && trace[k].Start? && Quiet(trace, k, n) && !Scan(trace).Broken?
    ensures Scan(trace[..n]) in {Working(trace[k].who, trace[k].job), Settled(trace[k].who, trace[k].job)}
    decreases n
  {
    PrefixIsProper(trace, n);
    ScanNext(trace, n - 1);
    if n - 1 > k {
      StillOpen(trace, k, n - 1);
    }
  }

  /**
   From a start to the next edge: that edge is the start's own end, and whoever polls meanwhile
   sees the service busy.
   */
  lemma NextEdgeIsItsEnd(actions: seq<Action>, k: nat, n: nat)
    requires CanReplay(INIT, actions) && k < n < |Replay(INIT, actions).trace|
    requires Replay(INIT, actions).trace[k].Start? && Quiet(Replay(INIT, actions).trace, k, n)
    ensures var trace := Replay(INIT, actions).trace;
      && (Edge(trace[n]) ==> trace[n] == End(trace[k].who, trace[k].job))
      && (trace[n].Polled? ==> trace[n].busy)
  {
    var trace := Replay(INIT, actions).trace;
    TraceIsBracketed(actions);
    StillOpen(trace, k, n);
    PrefixIsProper(trace, n + 1);
    ScanNext(trace, n);
  }

  /** Between a start and its end there is an outcome, reported by the same thread. */
  lemma {:induction false} SettledBy(trace: seq<Event>, k: nat, n: nat) returns (m: nat)
    requires k < n <= |trace| && trace[k].Start? && Quiet(trace, k, n) && Scan(trace[..n]).Settled?
    ensures k < m < n && trace[m].Outcome? && trace[m].who == Scan(trace[..n]).who
    ensures forall i :: m < i < n ==> !trace[i].Log? && !trace[i].Outcome?
    decreases n
  {
    ScanNext(trace, n - 1);
    if trace[n - 1].Outcome? {
      m := n - 1;
    } else {
      m := SettledBy(trace, k, n - 1);
    }
  }

  /** Every end is preceded, inside its bracket, by its outcome, after which no log line follows. */
  lemma EndAfterItsOutcome(actions: seq<Action>, k: nat, n: nat) returns (m: nat)
    requires CanReplay(INIT, actions) && k < n < |Replay(INIT, actions).trace|
    requires Replay(INIT, actions).trace[k].Start? && Quiet(Replay(INIT, actions).trace, k, n)
    requires Replay(INIT, actions).trace[n].End?
    ensures k < m < n
    ensures var trace := Replay(INIT, actions).trace;
      && trace[m].Outcome? && trace[m].who == trace[n].who
      && forall i :: m < i < n ==> !trace[i].Log? && !trace[i].Outcome?
  {
    var trace := Replay(INIT, actions).trace;
    TraceIsBracketed(actions);
    PrefixIsProper(trace, n + 1);
    ScanNext(trace, n);
    m := SettledBy(trace, k, n);
  }

  // ----- The service, called by one thread at a time -----

  function LogsOf(who: Tid, lines: seq<string>): seq<Event> {
    seq(|lines|, i requires 0 <= i < |lines| => Log(who, lines[i]))
  }

  /** Everything one accepted call emits. */
  function BracketOf(who: Tid, job: Job, lines: seq<string>, ok: bool): seq<Event> {
    [Start(who, job)] + LogsOf(who, lines) + [Outcome(who, ok), End(who, job)]
  }

  lemma {:induction false} LogsStayInside(trace: seq<Event>, who: Tid, lines: seq<string>)
    requires Scan(trace).Working? && Scan(trace).who == who
    ensures Scan(trace + LogsOf(who, lines)) == Scan(trace)
    decreases |lines|
  {
    if lines == [] {
      assert trace + LogsOf(who, lines) == trace;
    } else {
      var n := |lines| - 1;
      LogsStayInside(trace, who, lines[..n]);
      ScanAppend(trace + LogsOf(who, lines[..n]), Log(who, lines[n]));
      assert trace + LogsOf(who, lines) == trace + LogsOf(who, lines[..n]) + [Log(who, lines[n])];
    }
  }

  lemma ScanAppend(trace: seq<Event>, event: Event)
    ensures Scan(trace + [event]) == After(Scan(trace), event)
  {
    assert (trace + [event])[..|trace|] == trace;
  }

  lemma BracketPieces(trace: seq<Event>, who: Tid, job: Job, lines: seq<string>, ok: bool)
    ensures trace + [Start(who, job)] + LogsOf(who, lines) + [Outcome(who, ok)] + [End(who, job)]
         == trace + BracketOf(who, job, lines, ok)
  {}

  /** A whole call is a whole bracket. */
  lemma CallIsABracket(trace: seq<Event>, who: Tid, job: Job, lines: seq<string>, ok: bool)
    requires Scan(trace) == Closed
    ensures Scan(trace + BracketOf(who, job, lines, ok)) == Closed
  {
    var begun := trace + [Start(who, job)];
    ScanAppend(trace, Start(who, job));
    LogsStayInside(begun, who, lines);
    var logged := begun + LogsOf(who, lines);
    ScanAppend(logged, Outcome(who, ok));
    ScanAppend(logged + [Outcome(who, ok)], End(who, job));
    BracketPieces(trace, who, job, lines, ok);
  }

  class EnvService {
    var running: bool
    var emitted: seq<Event>

    constructor ()
      ensures !running && emitted == []
    {
      running, emitted := false, [];
    }

    method TryEnter(who: Tid, job: Job) returns (entered: bool)
      modifies this
      ensures running && entered == !old(running)
      ensures emitted == old(emitted) + if entered then [Start(who, job)] else []
    {
      if running {
        return false;
      }
      running := true;
      emitted := emitted + [Start(who, job)];
      return true;
    }

    method Exit(who: Tid, job: Job)
      modifies this
      ensures !running && emitted == old(emitted) + [End(who, job)]
    {
      emitted := emitted + [End(who, job)];
      running := false;
    }

    method ForwardLines(who: Tid, lines: seq<string>)
      modifies this`emitted
      ensures emitted == old(emitted) + LogsOf(who, lines)
    {
      var i := 0;
      while i < |lines|
        invariant 0 <= i <= |lines|
        invariant emitted == old(emitted) + LogsOf(who, lines[..i])
      {
        emitted := emitted + [Log(who, lines[i])];
        assert LogsOf(who, lines[..i + 1]) == LogsOf(who, lines[..i]) + [Log(who, lines[i])];
        i := i + 1;
      }
      assert lines[..i] == lines;
    }

    /** `started`: the command could be started; `lines`: its output as the forwarders merge it; `ok`: how it ended. */
    method RunInstall(who: Tid, job: Job, started: bool, lines: seq<string>, ok: bool) returns (success: bool)
      modifies this
      ensures running == old(running)
      ensures success == (!old(running) && started && ok)
      ensures emitted == old(emitted)
        + if old(running) then [Refusal(who)] else BracketOf(who, job, if started then lines else [], success)
      ensures Scan(old(emitted)) == Closed ==> Scan(emitted) == Closed
    {
      var entered := TryEnter(who, job);
      if !entered {
        ScanAppend(emitted, Refusal(who));
        emitted := emitted + [Refusal(who)];
        return false;
      }
      ghost var was, shown := old(emitted), if started then lines else [];
      if started {
        ForwardLines(who, lines);
      } else {
        assert emitted + LogsOf(who, []) == emitted;
      }
      success := started && ok;
      emitted := emitted + [Outcome(who, success)];
      Exit(who, job);
      BracketPieces(was, who, job, shown, success);
      if Scan(was) == Closed {
        CallIsABracket(was, who, job, shown, success);
      }
    }
  }
}
