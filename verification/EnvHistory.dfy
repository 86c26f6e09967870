/**
 What the trace of the install service says is what happened: every call, line and outcome of every
 thread, in order, and nothing else.
 */
module EnvHistory {
  import opened Sequences
  import opened Wrappers
  import opened EnvOps

  lemma {:induction false} ReplayPlus(state: State, actions: seq<Action>, last: Action)
    requires CanReplay(state, actions + [last])
    ensures CanReplay(state, actions) && CanStep(Replay(state, actions), last)
    ensures Replay(state, actions + [last]) == Step(Replay(state, actions), last)
    decreases |actions|
  {
    var all := actions + [last];
    if actions == [] {
      assert all == [last] && all[1..] == [];
    } else {
      assert all[0] == actions[0] && all[1..] == actions[1..] + [last];
      ReplayPlus(Step(state, actions[0]), actions[1..], last);
    }
  }

  /** The state after all but the last action, and the last step. */
  lemma LastStep(actions: seq<Action>)
    requires CanReplay(INIT, actions) && actions != []
    ensures var before, last := actions[..|actions| - 1], actions[|actions| - 1];
      && CanReplay(INIT, before) && CanStep(Replay(INIT, before), last)
      && Replay(INIT, actions) == Step(Replay(INIT, before), last)
  {
    assert actions == actions[..|actions| - 1] + [actions[|actions| - 1]];
    ReplayPlus(INIT, actions[..|actions| - 1], actions[|actions| - 1]);
  }

  // ----- Read off the actions -----

  /** What the thread last asked for. */
  function JobOf(actions: seq<Action>, tid: Tid): Option<Job> {
    if actions == [] then None
    else
      var last := actions[|actions| - 1];
      if last.CallRun? && last.tid == tid then Some(last.job) else JobOf(actions[..|actions| - 1], tid)
  }

  /** How its command ended: it could not be started, or with what waiting for it returned. */
  function WentWell(actions: seq<Action>, tid: Tid): bool {
    if actions == [] then false
    else
      var last := actions[|actions| - 1];
      if last.WaitReturns? && last.tid == tid then last.ok
      else if last.Launch? && last.tid == tid then false
      else WentWell(actions[..|actions| - 1], tid)
  }

  /** Everything observers are to see of the threads that were let in, in order. */
  function Shown(actions: seq<Action>): seq<Event> {
    if actions == [] then [] else Shown(actions[..|actions| - 1]) + ShownBy(actions[..|actions| - 1], actions[|actions| - 1])
  }

  function ShownBy(before: seq<Action>, last: Action): seq<Event> {
    match last
    case EmitStart(tid) => if JobOf(before, tid).Some? then [Start(tid, JobOf(before, tid).value)] else []
    case EmitLine(tid, _, line) => [Log(tid, line)]
    case ReportOutcome(tid) => [Outcome(tid, WentWell(before, tid))]
    case EmitEnd(tid) => if JobOf(before, tid).Some? then [End(tid, JobOf(before, tid).value)] else []
    case ReportRefusal(tid) => [Refusal(tid)]
    case _ => []
  }

  /** What is on the trace apart from the polls. */
  function Told(event: Event): seq<Event> {
    if event.Polled? then [] else [event]
  }

  // ----- Every thread is where its actions put it -----

  predicate HasJob(phase: Phase) {
    phase.Entered? || phase.Launching? || phase.Streaming? || phase.Exited? || phase.Reported?
  }

  predicate PlaceOk(threads: map<Tid, Phase>, actions: seq<Action>, tid: Tid) {
    tid in threads ==>
      && (HasJob(threads[tid]) ==> JobOf(actions, tid) == Some(threads[tid].job))
      && (threads[tid].Exited? ==> threads[tid].ok == WentWell(actions, tid))
  }

  lemma StepKeepsPlace(state: State, actions: seq<Action>, last: Action, tid: Tid)
    requires CanStep(state, last) && PlaceOk(state.threads, actions, tid)
    ensures PlaceOk(Step(state, last).threads, actions + [last], tid)
  {
    assert (actions + [last])[..|actions|] == actions;
  }

  lemma {:induction false} PlacesAreOk(actions: seq<Action>, tid: Tid)
    requires CanReplay(INIT, actions)
    ensures PlaceOk(Replay(INIT, actions).threads, actions, tid)
  {
    if actions != [] {
      var before, last := actions[..|actions| - 1], actions[|actions| - 1];
      LastStep(actions);
      PlacesAreOk(before, tid);
      StepKeepsPlace(Replay(INIT, before), before, last, tid);
      assert actions == before + [last];
    }
  }

  lemma StepTells(state: State, before: seq<Action>, last: Action)
    requires CanStep(state, last) && forall tid :: PlaceOk(state.threads, before, tid)
    ensures var trace := Step(state, last).trace;
      && state.trace <= trace && |trace| <= |state.trace| + 1
      && ShownBy(before, last) == if trace == state.trace then [] else Told(trace[|state.trace|])
  {
    if last.EmitStart? || last.ReportOutcome? || last.EmitEnd? {
      assert PlaceOk(state.threads, before, last.tid);
    }
  }

  /**
   In every interleaving, the trace without the polls is what the actions of the threads call for: each
   start and end with the job that was asked for, each line as it came, each outcome as the command
   ended, each refusal, in order and nothing more.
   */
  lemma {:induction false} TraceIsWhatHappened(actions: seq<Action>)
    requires CanReplay(INIT, actions)
    ensures Concat(Replay(INIT, actions).trace, Told) == Shown(actions)
  {
    if actions != [] {
      var before, last := actions[..|actions| - 1], actions[|actions| - 1];
      LastStep(actions);
      TraceIsWhatHappened(before);
      var state, trace := Replay(INIT, before), Replay(INIT, actions).trace;
      forall tid ensures PlaceOk(state.threads, before, tid) {
        PlacesAreOk(before, tid);
      }
      StepTells(state, before, last);
      if trace == state.trace {
        assert Shown(before) + [] == Shown(before);
      } else {
        assert trace == state.trace + [trace[|state.trace|]];
        ConcatStep(state.trace, trace[|state.trace|], Told);
      }
    }
  }

  /** Anybody may call at any time, and is let in exactly if nobody else is. */
  lemma CallIsLetInIff(actions: seq<Action>, tid: Tid, job: Job)
    requires CanReplay(INIT, actions) && tid !in Replay(INIT, actions).threads
    ensures var state := Replay(INIT, actions);
      && CanStep(state, CallRun(tid, job))
      && Step(state, CallRun(tid, job)).threads
         == state.threads[tid := if forall t :: t in state.threads ==> state.threads[t].Refused? then Entered(job) else Refused]
  {
    Invariance(INIT, actions);
    var state := Replay(INIT, actions);
    if state.busy {
      var holder :| HeldBy(state, holder);
      assert holder in state.threads && !state.threads[holder].Refused?;
    }
  }

  /**
   Nothing the command or the observers may do is left out: it may fail to start, write any line to
   either stream while that is open, close them in any order and end either way; anybody may poll.
   */
  lemma CommandIsFree(state: State, tid: Tid, stdout: bool, line: string, ok: bool)
    requires tid in state.threads
    ensures CanStep(state, Poll)
    ensures state.threads[tid].Launching? ==> CanStep(state, Launch(tid, ok))
    ensures state.threads[tid].Streaming? ==>
      var open := if stdout then state.threads[tid].out else state.threads[tid].err;
      && (open ==> CanStep(state, EmitLine(tid, stdout, line)) && CanStep(state, CloseStream(tid, stdout)))
      && (!state.threads[tid].out && !state.threads[tid].err ==> CanStep(state, WaitReturns(tid, ok)))
  {}

  /** Whoever polls learns whether some thread is past the compare-and-swap. */
  lemma PollTells(actions: seq<Action>)
    requires CanReplay(INIT, actions)
    ensures var state := Replay(INIT, actions);
      Step(state, Poll).trace == state.trace + [Polled(exists t :: t in state.threads && !state.threads[t].Refused?)]
  {
    Invariance(INIT, actions);
    var state := Replay(INIT, actions);
    if state.busy {
      var holder :| HeldBy(state, holder);
      assert holder in state.threads && !state.threads[holder].Refused?;
    }
  }

  // ----- Every call is answered, and every command waited for -----

  function Calls(actions: seq<Action>, tid: Tid): nat {
    if actions == [] then 0
    else
      var last := actions[|actions| - 1];
      Calls(actions[..|actions| - 1], tid) + if last.CallRun? && last.tid == tid then 1 else 0
  }

  /** How often a call of the thread was answered with a refusal or a start. */
  function Answers(trace: seq<Event>, tid: Tid): nat {
    if trace == [] then 0
    else
      var last := trace[|trace| - 1];
      Answers(trace[..|trace| - 1], tid) + if (last.Refusal? || last.Start?) && last.who == tid then 1 else 0
  }

  lemma AnswersStep(trace: seq<Event>, event: Event, tid: Tid)
    ensures Answers(trace + [event], tid) == Answers(trace, tid) + if (event.Refusal? || event.Start?) && event.who == tid then 1 else 0
  {
    assert (trace + [event])[..|trace|] == trace;
  }

  predicate Unanswered(threads: map<Tid, Phase>, tid: Tid) {
    tid in threads && (threads[tid].Refused? || threads[tid].Entered?)
  }

  lemma StepOnTrace(state: State, last: Action)
    requires CanStep(state, last)
    ensures Silent(last) ==> Step(state, last).trace == state.trace
    ensures !Silent(last) ==> Step(state, last).trace == state.trace + [EventOf(state, last)]
  {
    if !Silent(last) {
      EventIsEmitted(state, last);
    }
  }

  predicate Answered(state: State, last: Action, tid: Tid)
    requires CanStep(state, last)
  {
    !Silent(last) && var event := EventOf(state, last); (event.Refusal? || event.Start?) && event.who == tid
  }

  lemma StepOnUnanswered(state: State, last: Action, tid: Tid)
    requires CanStep(state, last)
    ensures (if Unanswered(state.threads, tid) then 1 else 0) + (if last.CallRun? && last.tid == tid then 1 else 0)
         == (if Unanswered(Step(state, last).threads, tid) then 1 else 0) + (if Answered(state, last, tid) then 1 else 0)
  {}

  lemma StepOnAnswers(state: State, last: Action, tid: Tid)
    requires CanStep(state, last)
    ensures Answers(Step(state, last).trace, tid) == Answers(state.trace, tid) + if Answered(state, last, tid) then 1 else 0
  {
    StepOnTrace(state, last);
    if !Silent(last) {
      AnswersStep(state.trace, EventOf(state, last), tid);
    }
  }

  /** Every call has been answered with one refusal or one start, except one that is about to be. */
  lemma {:induction false} EveryCallIsAnswered(actions: seq<Action>, tid: Tid)
    requires CanReplay(INIT, actions)
    ensures var state := Replay(INIT, actions);
      Calls(actions, tid) == Answers(state.trace, tid) + if Unanswered(state.threads, tid) then 1 else 0
  {
    if actions != [] {
      var before, last := actions[..|actions| - 1], actions[|actions| - 1];
      LastStep(actions);
      EveryCallIsAnswered(before, tid);
      StepOnUnanswered(Replay(INIT, before), last, tid);
      StepOnAnswers(Replay(INIT, before), last, tid);
    }
  }

  /** Whether this stream of the thread's last command has been read to its end, if it was started. */
  predicate Drained(actions: seq<Action>, tid: Tid, stdout: bool) {
    if actions == [] then true
    else
      var last := actions[|actions| - 1];
      if last == CloseStream(tid, stdout) then true
      else if last.Launch? && last.tid == tid then !last.started
      else Drained(actions[..|actions| - 1], tid, stdout)
  }

  predicate StreamsOk(threads: map<Tid, Phase>, actions: seq<Action>, tid: Tid, stdout: bool) {
    tid in threads ==> match threads[tid]
      case Streaming(_, out, err) => Drained(actions, tid, stdout) == !(if stdout then out else err)
      case Exited(_, _) => Drained(actions, tid, stdout)
      case Reported(_) => Drained(actions, tid, stdout)
      case _ => true
  }

  /** No outcome is reported before both streams of the command have been forwarded to their ends. */
  lemma {:induction false} OutcomeAfterTheStreams(actions: seq<Action>, tid: Tid, stdout: bool)
    requires CanReplay(INIT, actions)
    ensures StreamsOk(Replay(INIT, actions).threads, actions, tid, stdout)
  {
    if actions != [] {
      LastStep(actions);
      OutcomeAfterTheStreams(actions[..|actions| - 1], tid, stdout);
    }
  }
}
