/**
 The direction from the server to Python: what was put on each stream, what Python has read of it, and
 what became of every accepted cancel, read off the events alone.
 */
module LifecycleStreams {
  import opened Ids
  import opened Wrappers
  import opened Sequences
  import opened Lifecycle
  import opened LifecycleInvariants
  import opened LifecycleTheorems
  import opened LifecycleResults

  // ----- The stream as a FIFO -----

  predicate Replies(run: Run, action: Action) {
    action == Handle(true) && run.stream.handler.HReply?
  }

  /** What a step of the run puts on its stream: a cancel that is sent, or the response of its handler. */
  function PushedBy(run: Run, action: Action): seq<ServerMsg> {
    if action == SendCancel(true) then [CancelRequest] else if Replies(run, action) then [Reply] else []
  }

  /** Everything the server put on the stream of `id`. */
  function Pushed(events: seq<Event>, id: RunId): seq<ServerMsg> {
    if events == [] then []
    else
      var before, last := events[..|events| - 1], events[|events| - 1];
      Pushed(before, id)
      + if last.run == id && Replay(before).Some? && id in Replay(before).value.runs
        then PushedBy(Replay(before).value.runs[id], last.action) else []
  }

  /** How many actions of this kind the events hold for `id`. */
  function Count(events: seq<Event>, id: RunId, kind: Action -> bool): nat {
    if events == [] then 0
    else
      var last := events[|events| - 1];
      Count(events[..|events| - 1], id, kind) + if last.run == id && kind(last.action) then 1 else 0
  }

  /** How many messages Python has read. */
  function Observed(events: seq<Event>, id: RunId): nat {
    Count(events, id, (action: Action) => action.Observe?)
  }

  /** Whatever else a step does, it pushes at the end, reads at the front, and remembers a cancel that was read. */
  lemma StepOnOutbox(run: Run, free: bool, action: Action)
    requires Enabled(run, free, action)
    ensures var after := Step(run, free, action);
      && (!action.Observe? ==>
            && after.stream.outbox == run.stream.outbox + PushedBy(run, action)
            && after.entry.cancelSeen == run.entry.cancelSeen)
      && (action.Observe? ==>
            && run.stream.outbox != [] && after.stream.outbox == run.stream.outbox[1..]
            && after.entry.cancelSeen == (run.entry.cancelSeen || run.stream.outbox[0] == CancelRequest))
  {}

  /** The first `read` of the pushed messages have been read, the others wait in order. */
  predicate Queued(run: Run, pushed: seq<ServerMsg>, read: nat) {
    && read <= |pushed|
    && run.stream.outbox == pushed[read..]
    && (run.entry.cancelSeen <==> CancelRequest in pushed[..read])
  }

  lemma PushKeepsQueued(run: Run, after: Run, pushed: seq<ServerMsg>, more: seq<ServerMsg>, read: nat)
    requires Queued(run, pushed, read)
    requires after.stream.outbox == run.stream.outbox + more && after.entry.cancelSeen == run.entry.cancelSeen
    ensures Queued(after, pushed + more, read)
  {
    assert (pushed + more)[read..] == pushed[read..] + more;
    assert (pushed + more)[..read] == pushed[..read];
  }

  lemma ReadKeepsQueued(run: Run, after: Run, pushed: seq<ServerMsg>, read: nat)
    requires Queued(run, pushed, read) && run.stream.outbox != []
    requires after.stream.outbox == run.stream.outbox[1..]
    requires after.entry.cancelSeen == (run.entry.cancelSeen || run.stream.outbox[0] == CancelRequest)
    ensures Queued(after, pushed, read + 1)
  {
    assert pushed[read..][1..] == pushed[read + 1..];
    assert pushed[..read + 1] == pushed[..read] + [pushed[read]];
  }

  lemma StepKeepsQueued(run: Run, free: bool, action: Action, pushed: seq<ServerMsg>, read: nat)
    requires Enabled(run, free, action) && Queued(run, pushed, read)
    ensures Queued(Step(run, free, action), pushed + PushedBy(run, action), read + if action.Observe? then 1 else 0)
  {
    var after := Step(run, free, action);
    StepOnOutbox(run, free, action);
    if action.Observe? {
      ReadKeepsQueued(run, after, pushed, read);
      assert pushed + [] == pushed;
    } else {
      PushKeepsQueued(run, after, pushed, PushedBy(run, action), read);
    }
  }

  /**
   In every reachable state what waits on a stream is what was put there less what Python has read, in
   order; and Python has seen a cancel exactly if one is among the messages it has read.
   */
  lemma {:induction false} StreamIsAQueue(events: seq<Event>, id: RunId)
    requires Replay(events).Some?
    ensures id in Replay(events).value.runs ==>
      Queued(Replay(events).value.runs[id], Pushed(events, id), Observed(events, id))
    ensures id !in Replay(events).value.runs ==> Pushed(events, id) == [] && Observed(events, id) == 0
  {
    if events != [] {
      var before, last := events[..|events| - 1], events[|events| - 1];
      StreamIsAQueue(before, id);
      var state := Replay(before).value;
      if last.run == id && id in state.runs {
        StepKeepsQueued(state.runs[id], state.serverMu.None?, last.action, Pushed(before, id), Observed(before, id));
      }
      assert Pushed(before, id) + [] == Pushed(before, id);
    }
  }

  /** In particular once Python has read all there is, it has seen every cancel that was sent. */
  lemma EmptyStreamMeansSeen(events: seq<Event>, id: RunId)
    requires Replay(events).Some? && id in Replay(events).value.runs
    requires Replay(events).value.runs[id].stream.outbox == []
    ensures Replay(events).value.runs[id].entry.cancelSeen <==> CancelRequest in Pushed(events, id)
  {
    StreamIsAQueue(events, id);
    var pushed, read := Pushed(events, id), Observed(events, id);
    assert pushed == pushed[..read] + pushed[read..];
  }

  // ----- Every accepted cancel is sent or given up once -----

  function CancelsAccepted(events: seq<Event>, id: RunId): nat {
    Count(events, id, (action: Action) => action.CancelRun?)
  }

  function CancelsDealtWith(events: seq<Event>, id: RunId): nat {
    Count(events, id, (action: Action) => action.SendCancel?)
  }

  lemma StepOnCancels(run: Run, free: bool, action: Action)
    requires Enabled(run, free, action)
    ensures Step(run, free, action).entry.cancelsInFlight + (if action.SendCancel? then 1 else 0)
         == run.entry.cancelsInFlight + if action.CancelRun? then 1 else 0
  {}

  /** Every accepted cancel is still on its way or has been sent, or failed to be, exactly once. */
  lemma {:induction false} CancelsAreConserved(events: seq<Event>, id: RunId)
    requires Replay(events).Some?
    ensures CancelsAccepted(events, id)
         == CancelsDealtWith(events, id)
            + if id in Replay(events).value.runs then Replay(events).value.runs[id].entry.cancelsInFlight else 0
  {
    if events != [] {
      var before, last := events[..|events| - 1], events[|events| - 1];
      CancelsAreConserved(before, id);
      var state := Replay(before).value;
      if last.run == id && id in state.runs {
        StepOnCancels(state.runs[id], state.serverMu.None?, last.action);
      }
    }
  }

  /** What `WasCancelled` answers for the run, by which the consumer demotes the client's errors. */
  predicate CountsAsCancelled(run: Run) {
    run.entry.active.Some? && run.entry.active.value.cancelRequested
  }

  /** The run counts as cancelled exactly if a cancel has been accepted and it is not yet recorded. */
  predicate FlagOk(run: Run, accepted: nat) {
    CountsAsCancelled(run) <==> accepted > 0 && !Retired(run.reaper.waiter)
  }

  lemma WaitKeepsFlag(run: Run, free: bool, timeout: bool, accepted: nat)
    requires Shape(run.entry, run.reaper, run.channel.consumer, run.stream.handler.HIdle?)
    requires WaitEnabled(run, free, timeout) && FlagOk(run, accepted)
    ensures FlagOk(Step(run, free, Wait(timeout)), accepted)
  {}

  lemma OthersOnFlag(run: Run, free: bool, action: Action)
    requires Enabled(run, free, action) && !action.Wait? && !action.Start? && !action.CancelRun?
    ensures Step(run, free, action).entry.active == run.entry.active
    ensures Step(run, free, action).reaper.waiter == run.reaper.waiter
  {}

  lemma StepKeepsFlag(run: Run, free: bool, action: Action, accepted: nat)
    requires Shape(run.entry, run.reaper, run.channel.consumer, run.stream.handler.HIdle?)
    requires Enabled(run, free, action) && FlagOk(run, accepted)
    ensures FlagOk(Step(run, free, action), accepted + if action.CancelRun? then 1 else 0)
  {
    if action.Wait? {
      WaitKeepsFlag(run, free, action.timeout, accepted);
    } else if !action.Start? && !action.CancelRun? {
      OthersOnFlag(run, free, action);
    }
  }

  predicate FlagOf(state: State, id: RunId, accepted: nat) {
    if id in state.runs then FlagOk(state.runs[id], accepted) else accepted == 0
  }

  lemma NextKeepsFlag(state: State, who: RunId, action: Action, id: RunId, accepted: nat)
    requires RunsOk(state) && CanStep(state, who, action) && FlagOf(state, id, accepted)
    ensures FlagOf(Next(state, who, action), id, accepted + if who == id && action.CancelRun? then 1 else 0)
  {
    if who == id && id in state.runs {
      assert Ok(state.runs[id]);
      StepKeepsFlag(state.runs[id], state.serverMu.None?, action, accepted);
    }
  }

  /**
   A run counts as cancelled from the first accepted cancel until it is recorded, and no longer: what
   the consumer handles after that is not demoted.
   */
  lemma {:induction false} CancelledUntilRecorded(events: seq<Event>, id: RunId)
    requires Replay(events).Some?
    ensures FlagOf(Replay(events).value, id, CancelsAccepted(events, id))
  {
    if events != [] {
      var before, last := events[..|events| - 1], events[|events| - 1];
      CancelledUntilRecorded(before, id);
      Invariance(before);
      NextKeepsFlag(Replay(before).value, last.run, last.action, id, CancelsAccepted(before, id));
    }
  }

  // ----- Every request is answered once -----

  function Requests(msgs: seq<ClientMsg>): nat {
    if msgs == [] then 0 else Requests(msgs[..|msgs| - 1]) + if Asks(msgs[|msgs| - 1]) then 1 else 0
  }

  lemma RequestsAppend(msgs: seq<ClientMsg>, msg: ClientMsg)
    ensures Requests(msgs + [msg]) == Requests(msgs) + if Asks(msg) then 1 else 0
  {
    assert (msgs + [msg])[..|msgs|] == msgs;
  }

  function Responses(pushed: seq<ServerMsg>): nat {
    if pushed == [] then 0 else Responses(pushed[..|pushed| - 1]) + if pushed[|pushed| - 1].Reply? then 1 else 0
  }

  lemma ResponsesAppend(pushed: seq<ServerMsg>, msg: ServerMsg)
    ensures Responses(pushed + [msg]) == Responses(pushed) + if msg.Reply? then 1 else 0
  {
    assert (pushed + [msg])[..|pushed|] == pushed;
  }

  /** The handler is at work on a request. */
  predicate Answering(handler: Handler) {
    handler.HDialog? || handler.HReply? || (handler.HGot? && Asks(handler.msg))
  }

  /** All requests taken are answered but the one at work, or the one whose response could not be sent. */
  predicate AnswersOk(handler: Handler, requests: nat, responses: nat) {
    if handler.HEnded? then responses <= requests <= responses + 1
    else requests == responses + if Answering(handler) then 1 else 0
  }

  /** The handler takes a message. */
  predicate Takes(stream: Stream, ok: bool) {
    stream.handler.HRecv? && ok && stream.inbox != []
  }

  /** What a step of the handler does to the requests taken and to the one it is at work on. */
  lemma HandleOnRequests(stream: Stream, phase: Phase, ok: bool, late: bool, requests: nat, responses: nat)
    requires stream.handler.HStored? ==> stream.handler.msg.Error?
    requires AnswersOk(stream.handler, requests, responses)
    ensures var after := HandleStep(stream, phase, ok, late);
      && after.taken == stream.taken + (if Takes(stream, ok) then [stream.inbox[0]] else [])
      && AnswersOk(after.handler, requests + (if Takes(stream, ok) && Asks(stream.inbox[0]) then 1 else 0),
                   responses + if ok && stream.handler.HReply? then 1 else 0)
  {}

  lemma HandleKeepsAnswers(stream: Stream, phase: Phase, ok: bool, late: bool, responses: nat)
    requires AnswersOk(stream.handler, Requests(stream.taken), responses)
    requires stream.handler.HStored? ==> stream.handler.msg.Error?
    ensures var after := HandleStep(stream, phase, ok, late);
      AnswersOk(after.handler, Requests(after.taken), responses + if ok && stream.handler.HReply? then 1 else 0)
  {
    HandleOnRequests(stream, phase, ok, late, Requests(stream.taken), responses);
    if Takes(stream, ok) {
      RequestsAppend(stream.taken, stream.inbox[0]);
    } else {
      assert stream.taken + [] == stream.taken;
    }
  }

  lemma StepKeepsAnswers(run: Run, free: bool, action: Action, responses: nat)
    requires Ok(run) && Enabled(run, free, action)
    requires AnswersOk(run.stream.handler, Requests(run.stream.taken), responses)
    ensures var after := Step(run, free, action).stream;
      AnswersOk(after.handler, Requests(after.taken), responses + if Replies(run, action) then 1 else 0)
  {
    if action.Handle? {
      HandleKeepsAnswers(run.stream, run.channel.phase, action.ok, CleanedUp(run.reaper.waiter), responses);
    } else {
      assert Step(run, free, action).stream.taken == run.stream.taken;
    }
  }

  lemma PushedResponses(pushed: seq<ServerMsg>, run: Run, action: Action)
    ensures Responses(pushed + PushedBy(run, action)) == Responses(pushed) + if Replies(run, action) then 1 else 0
  {
    if action == SendCancel(true) {
      ResponsesAppend(pushed, CancelRequest);
    } else if Replies(run, action) {
      ResponsesAppend(pushed, Reply);
    } else {
      assert pushed + [] == pushed;
    }
  }

  /**
   In every reachable state the server has put one response on the stream for every request it took,
   apart from the one it is at work on, or one that could not be sent before the stream ended.
   */
  lemma {:induction false} EveryRequestIsAnswered(events: seq<Event>, id: RunId)
    requires Replay(events).Some? && id in Replay(events).value.runs
    ensures var stream := Replay(events).value.runs[id].stream;
      AnswersOk(stream.handler, Requests(stream.taken), Responses(Pushed(events, id)))
  {
    var before, last := events[..|events| - 1], events[|events| - 1];
    var state := Replay(before).value;
    if id in state.runs {
      EveryRequestIsAnswered(before, id);
      if last.run == id {
        Invariance(before);
        StepKeepsAnswers(state.runs[id], state.serverMu.None?, last.action, Responses(Pushed(before, id)));
        PushedResponses(Pushed(before, id), state.runs[id], last.action);
      } else {
        assert Pushed(before, id) + [] == Pushed(before, id);
      }
    } else {
      StreamIsAQueue(before, id);
    }
  }

  // ----- A dialog is answered by the user -----

  function Dialogs(msgs: seq<ClientMsg>): nat {
    if msgs == [] then 0 else Dialogs(msgs[..|msgs| - 1]) + if msgs[|msgs| - 1].Dialog? then 1 else 0
  }

  lemma DialogsAppend(msgs: seq<ClientMsg>, msg: ClientMsg)
    ensures Dialogs(msgs + [msg]) == Dialogs(msgs) + if msg.Dialog? then 1 else 0
  {
    assert (msgs + [msg])[..|msgs|] == msgs;
  }

  function DialogsClosed(events: seq<Event>, id: RunId): nat {
    Count(events, id, (action: Action) => action.AnswerDialog?)
  }

  /** Every dialog asked for was closed by the user, but the one that is open or about to be. */
  predicate DialogsOk(handler: Handler, dialogs: nat, closed: nat) {
    dialogs == closed + if handler.HDialog? || (handler.HGot? && handler.msg.Dialog?) then 1 else 0
  }

  lemma HandleOnDialogs(stream: Stream, phase: Phase, ok: bool, late: bool, dialogs: nat, closed: nat)
    requires !stream.handler.HDialog? && DialogsOk(stream.handler, dialogs, closed)
    ensures var after := HandleStep(stream, phase, ok, late);
      && after.taken == stream.taken + (if Takes(stream, ok) then [stream.inbox[0]] else [])
      && DialogsOk(after.handler, dialogs + if Takes(stream, ok) && stream.inbox[0].Dialog? then 1 else 0, closed)
  {}

  lemma StepKeepsDialogs(run: Run, free: bool, action: Action, closed: nat)
    requires Enabled(run, free, action) && DialogsOk(run.stream.handler, Dialogs(run.stream.taken), closed)
    ensures var after := Step(run, free, action).stream;
      DialogsOk(after.handler, Dialogs(after.taken), closed + if action.AnswerDialog? then 1 else 0)
  {
    if action.Handle? {
      HandleOnDialogs(run.stream, run.channel.phase, action.ok, CleanedUp(run.reaper.waiter), Dialogs(run.stream.taken), closed);
      if Takes(run.stream, action.ok) {
        DialogsAppend(run.stream.taken, run.stream.inbox[0]);
      } else {
        assert run.stream.taken + [] == run.stream.taken;
      }
    } else {
      assert Step(run, free, action).stream.taken == run.stream.taken;
    }
  }

  /** In every reachable state the handler has gone on after exactly the dialogs that the user closed. */
  lemma {:induction false} DialogsWaitForTheUser(events: seq<Event>, id: RunId)
    requires Replay(events).Some? && id in Replay(events).value.runs
    ensures var stream := Replay(events).value.runs[id].stream;
      DialogsOk(stream.handler, Dialogs(stream.taken), DialogsClosed(events, id))
  {
    var before, last := events[..|events| - 1], events[|events| - 1];
    var state := Replay(before).value;
    if id in state.runs {
      DialogsWaitForTheUser(before, id);
      if last.run == id {
        StepKeepsDialogs(state.runs[id], state.serverMu.None?, last.action, DialogsClosed(before, id));
      }
    } else {
      NothingCounted(before, id, (action: Action) => action.AnswerDialog?);
    }
  }

  lemma {:induction false} NothingCounted(events: seq<Event>, id: RunId, kind: Action -> bool)
    requires Replay(events).Some? && id !in Replay(events).value.runs && !kind(Register)
    ensures Count(events, id, kind) == 0
  {
    if events != [] {
      NothingCounted(events[..|events| - 1], id, kind);
    }
  }

  // ----- A cancel that is sent arrives -----

  /** Python reads `n` messages. */
  function Reading(id: RunId, n: nat): seq<Event> {
    if n == 0 then [] else Reading(id, n - 1) + [Event(id, Observe)]
  }

  lemma ReplayOneMore(events: seq<Event>, last: Event)
    requires Replay(events).Some? && CanStep(Replay(events).value, last.run, last.action)
    ensures Replay(events + [last]) == Some(Next(Replay(events).value, last.run, last.action))
  {
    assert (events + [last])[..|events|] == events;
  }

  /** `after` is what is left of a live run once Python has read `n` of the messages that waited. */
  predicate ReadThrough(run: Run, after: Run, n: nat)
    requires n <= |run.stream.outbox|
  {
    && Alive(after) && after.stream.outbox == run.stream.outbox[n..]
    && after.entry.cancelSeen == (run.entry.cancelSeen || CancelRequest in run.stream.outbox[..n])
  }

  lemma ReadsOneMore(run: Run, after: Run, n: nat)
    requires n < |run.stream.outbox| && ReadThrough(run, after, n)
    ensures Enabled(after, true, Observe) && ReadThrough(run, ObserveStep(after), n + 1)
  {
    var outbox := run.stream.outbox;
    assert outbox[n..][1..] == outbox[n + 1..];
    assert outbox[..n + 1] == outbox[..n] + [outbox[n]];
  }

  /** These events lead to a state in which the run stands like this. */
  predicate LeadsTo(events: seq<Event>, id: RunId, run: Run) {
    Replay(events).Some? && id in Replay(events).value.runs && Replay(events).value.runs[id] == run
  }

  lemma ReadOne(events: seq<Event>, id: RunId, run: Run)
    requires LeadsTo(events, id, run) && Enabled(run, true, Observe)
    ensures LeadsTo(events + [Event(id, Observe)], id, ObserveStep(run))
  {
    ReplayOneMore(events, Event(id, Observe));
  }

  /** A live process can read all that is on its stream, in order. */
  lemma {:induction false} CanRead(events: seq<Event>, id: RunId, run: Run, n: nat) returns (after: Run)
    requires LeadsTo(events, id, run) && Alive(run) && n <= |run.stream.outbox|
    ensures LeadsTo(events + Reading(id, n), id, after) && ReadThrough(run, after, n)
  {
    if n == 0 {
      assert events + [] == events;
      after := run;
    } else {
      var before := CanRead(events, id, run, n - 1);
      ReadsOneMore(run, before, n - 1);
      ReadOne(events + Reading(id, n - 1), id, before);
      Reassociate(events, Reading(id, n - 1), [Event(id, Observe)]);
      after := ObserveStep(before);
    }
  }

  /**
   A cancel that is sent to a live process arrives: once Python has read what was on the stream before
   it, it has seen the cancel, the cancel counts as in time, and the run ends Cancelled or not at all.
   */
  lemma SentCancelArrives(events: seq<Event>, id: RunId)
    requires Replay(events).Some? && CanStep(Replay(events).value, id, SendCancel(true))
    requires Alive(Replay(events).value.runs[id])
    ensures var waiting := |Replay(events).value.runs[id].stream.outbox|;
      var later := events + [Event(id, SendCancel(true))] + Reading(id, waiting + 1);
      && Replay(later).Some? && id in Replay(later).value.runs
      && Replay(later).value.runs[id].entry.cancelSeen && CancelledInTime(later, id)
      && var waiter := Replay(later).value.runs[id].reaper.waiter; Decided(waiter) ==> waiter.status == Cancelled
  {
    var run, sent := Replay(events).value.runs[id], events + [Event(id, SendCancel(true))];
    ReplayOneMore(events, Event(id, SendCancel(true)));
    StepOnOutbox(run, true, SendCancel(true));
    var outbox := run.stream.outbox + [CancelRequest];
    var after := CanRead(sent, id, Replay(sent).value.runs[id], |outbox|);
    assert outbox[..|outbox|] == outbox && outbox[|outbox| - 1] == CancelRequest;
    CancelCausality(sent + Reading(id, |outbox|), id);
  }

  /** The server has sent a cancel to a connected run and Python is still to read it. */
  function CancelSent(): Run {
    SendCancelStep(CancelStep(Connection(HRecv, NO_FLAGS, [], [], [])), true)
  }

  lemma CancelsAreSent(id: RunId)
    ensures Reachable(Alone(id, CancelSent()))
  {
    var live := Connection(HRecv, NO_FLAGS, [], [], []);
    CanBeLaunched(id);
    Moves(id, Unconnected(WWait, None), Connect, live);
    Moves(id, live, CancelRun, CancelStep(live));
    Moves(id, CancelStep(live), SendCancel(true), CancelSent());
  }

  /** There is a reachable state in which Python has read a cancel. */
  lemma CancelsAreRead(id: RunId)
    ensures exists run :: Reachable(Alone(id, run)) && run.entry.cancelSeen && run.stream.handler.HRecv?
  {
    CancelsAreSent(id);
    assert CancelSent().stream.outbox == [CancelRequest];
    Moves(id, CancelSent(), Observe, ObserveStep(CancelSent()));
    assert ObserveStep(CancelSent()).entry.cancelSeen;
  }
}
