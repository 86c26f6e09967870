/**
 The client side of the stream (`runner.py`): any number of Python threads share one message
 iterator, one request lock, one reader thread and one response queue, while the server answers
 requests in order and pushes cancel messages whenever it likes. One step is one access to a shared
 variable or one queue operation, so every interleaving is covered.
 */
module Client {
  import opened Sequences
  import opened Wrappers

  type Tid = nat

  /** The synchronous API functions. */
  datatype Api = CacheSet | CacheGet | DialogOpen | DialogSave | DbExecute | DbQuery

  datatype Request = CacheCreateRequest | CacheLookupRequest | FileDialogRequest | DbExecuteRequest | DbQueryRequest

  datatype Response = CacheCreateResponse | CacheLookupResponse | FileDialogResponse | DbExecuteResponse | DbQueryResponse

  /** The request each API function builds. */
  function RequestOf(api: Api): Request {
    match api
    case CacheSet => CacheCreateRequest
    case CacheGet => CacheLookupRequest
    case DialogOpen => FileDialogRequest
    case DialogSave => FileDialogRequest
    case DbExecute => DbExecuteRequest
    case DbQuery => DbQueryRequest
  }

  /** The response `handleClientMessage` sends for each request. */
  function Answered(request: Request): Response {
    match request
    case CacheCreateRequest => CacheCreateResponse
    case CacheLookupRequest => CacheLookupResponse
    case FileDialogRequest => FileDialogResponse
    case DbExecuteRequest => DbExecuteResponse
    case DbQueryRequest => DbQueryResponse
  }

  /** The field each API function checks for before it accepts a response. */
  function Expected(api: Api): Response {
    match api
    case CacheSet => CacheCreateResponse
    case CacheGet => CacheLookupResponse
    case DialogOpen => FileDialogResponse
    case DialogSave => FileDialogResponse
    case DbExecute => DbExecuteResponse
    case DbQuery => DbQueryResponse
  }

  /** One invocation of a synchronous API function. */
  datatype Call = Call(id: nat, api: Api)

  /** Whatever sits in one of the queues; `Answer` remembers which call it was computed from. */
  datatype Msg = Ask(call: Call) | Note | CancelRequest | Answer(call: Call, response: Response) | Sentinel

  /** A thread inside a synchronous call, holding the request lock. */
  datatype Caller =
    | CheckFinished(call: Call) | CheckCancel(call: Call) | Put(call: Call) | Await(call: Call, asked: bool)

  /** A thread inside an unlocked `_send`. */
  datatype Sender = NoteFinished | NoteCancel | NotePut

  /** A response taken from the queue, by which call, and how many waits had been given up before. */
  datatype Taken = Taken(call: Call, asked: bool, answer: Msg, abandoned: nat)

  /** `_request_lock` and what its holder is doing; the other senders; `_finished`, `_cancel_event`. */
  datatype Gate = Gate(
    lock: Option<Tid>, caller: Caller, senders: map<Tid, Sender>, finished: bool, cancelled: bool)

  /**
   The message iterator (`outgoing`), what gRPC pulled from it (`wire`), what the server sent
   (`incoming`) and `_response_queue` (`responses`).
   */
  datatype Pipes = Pipes(
    outgoing: seq<Msg>, closed: bool, wire: seq<Msg>, pullEnded: bool,
    incoming: seq<Msg>, serverEnded: bool, responses: seq<Msg>, readerDone: bool)

  /**
   The calls made, the requests put, the responses taken; the waits for a request that was put that
   were given up or closed out; the responses taken by a call whose request was dropped.
   */
  datatype Past = Past(
    calls: nat, asked: seq<Call>, got: seq<Taken>, abandoned: nat, closedOut: nat, strays: nat)

  datatype State = State(gate: Gate, pipes: Pipes, past: Past)

  datatype Action =
    | Enter(tid: Tid, api: Api)   // acquire the lock and start the call
    | Proceed                     // the lock holder's next access
    | GiveUp                      // its wait times out or is interrupted
    | StartNote(tid: Tid, force: bool)
    | ProceedNote(tid: Tid)
    | Finish                      // `_finish`
    | Pull                        // gRPC takes the next message from the iterator
    | Serve                       // the server handles the next message
    | EndServer
    | PushCancel
    | Read                        // the reader thread handles the next server message
    | EndReader                   // end of stream, or an exception in the reader

  const NO_CALL := Call(0, CacheSet)

  const INIT := State(
    Gate(None, CheckFinished(NO_CALL), map[], false, false),
    Pipes([], false, [], false, [], false, [], false),
    Past(0, [], [], 0, 0, 0))

  predicate CanStep(state: State, action: Action) {
    var gate, pipes := state.gate, state.pipes;
    match action
    case Enter(tid, _) => gate.lock.None? && tid !in gate.senders
    case Proceed => gate.lock.Some? && (gate.caller.Await? ==> pipes.responses != [])
    case GiveUp => gate.lock.Some? && gate.caller.Await?
    case StartNote(tid, _) => tid !in gate.senders && gate.lock != Some(tid)
    case ProceedNote(tid) => tid in gate.senders
    case Finish => true
    case Pull => !pipes.pullEnded && (pipes.outgoing != [] || pipes.closed)
    case Serve => !pipes.serverEnded && pipes.wire != []
    case EndServer => !pipes.serverEnded
    case PushCancel => !pipes.serverEnded
    case Read => !pipes.readerDone && pipes.incoming != []
    case EndReader => !pipes.readerDone
  }

  function Send(pipes: Pipes, msg: Msg): Pipes {
    pipes.(outgoing := pipes.outgoing + [msg])
  }

  /** The lock holder takes the next entry of the response queue, and releases the lock. */
  function Take(state: State, call: Call, asked: bool): State
    requires state.pipes.responses != []
  {
    var msg, past := state.pipes.responses[0], state.past;
    State(
      state.gate.(lock := None),
      state.pipes.(responses := state.pipes.responses[1..]),
      if msg == Sentinel then past.(closedOut := past.closedOut + if asked then 1 else 0)
      else past.(got := past.got + [Taken(call, asked, msg, past.abandoned)],
                 strays := past.strays + if asked then 0 else 1))
  }

  function CallerStep(state: State): State
    requires CanStep(state, Proceed)
  {
    var gate := state.gate;
    match gate.caller
    case CheckFinished(call) =>
      state.(gate := gate.(caller := if gate.finished then Await(call, false) else CheckCancel(call)))
    case CheckCancel(call) =>
      state.(gate := if gate.cancelled then gate.(lock := None) else gate.(caller := Put(call)))
    case Put(call) =>
      State(gate.(caller := Await(call, true)), Send(state.pipes, Ask(call)),
            state.past.(asked := state.past.asked + [call]))
    case Await(call, asked) => Take(state, call, asked)
  }

  function SenderStep(state: State, tid: Tid): State
    requires tid in state.gate.senders
  {
    var gate := state.gate;
    var gone := gate.(senders := gate.senders - {tid});
    match gate.senders[tid]
    case NoteFinished =>
      state.(gate := if gate.finished then gone else gate.(senders := gate.senders[tid := NoteCancel]))
    case NoteCancel =>
      state.(gate := if gate.cancelled then gone else gate.(senders := gate.senders[tid := NotePut]))
    case NotePut => state.(gate := gone, pipes := Send(state.pipes, Note))
  }

  function PullStep(pipes: Pipes): Pipes {
    if pipes.outgoing == [] then pipes.(pullEnded := true)
    else pipes.(outgoing := pipes.outgoing[1..], wire := pipes.wire + [pipes.outgoing[0]])
  }

  /** `handleClientMessage`, as far as responses go. */
  function Served(msg: Msg): seq<Msg> {
    if msg.Ask? then [Answer(msg.call, Answered(RequestOf(msg.call.api)))] else []
  }

  function ServeStep(pipes: Pipes): Pipes
    requires pipes.wire != []
  {
    pipes.(wire := pipes.wire[1..], incoming := pipes.incoming + Served(pipes.wire[0]))
  }

  function ReadStep(pipes: Pipes): Pipes
    requires pipes.incoming != []
  {
    var msg := pipes.incoming[0];
    pipes.(incoming := pipes.incoming[1..],
           responses := pipes.responses + if msg == CancelRequest then [] else [msg])
  }

  function Next(state: State, action: Action): State
    requires CanStep(state, action)
  {
    var gate, pipes, past := state.gate, state.pipes, state.past;
    match action
    case Enter(tid, api) =>
      state.(gate := gate.(lock := Some(tid), caller := CheckFinished(Call(past.calls, api))),
             past := past.(calls := past.calls + 1))
    case Proceed => CallerStep(state)
    case GiveUp =>
      state.(gate := gate.(lock := None),
             past := past.(abandoned := past.abandoned + if gate.caller.asked then 1 else 0))
    case StartNote(tid, force) =>
      state.(gate := gate.(senders := gate.senders[tid := if force then NotePut else NoteFinished]))
    case ProceedNote(tid) => SenderStep(state, tid)
    case Finish => state.(gate := gate.(finished := true), pipes := pipes.(closed := true))
    case Pull => state.(pipes := PullStep(pipes))
    case Serve => state.(pipes := ServeStep(pipes))
    case EndServer => state.(pipes := pipes.(serverEnded := true))
    case PushCancel => state.(pipes := pipes.(incoming := pipes.incoming + [CancelRequest]))
    case Read =>
      state.(gate := gate.(cancelled := gate.cancelled || pipes.incoming[0] == CancelRequest),
             pipes := ReadStep(pipes))
    case EndReader => state.(pipes := pipes.(readerDone := true, responses := pipes.responses + [Sentinel]))
  }

  /** The state after these actions, if each of them was possible where it occurs. */
  function Replay(actions: seq<Action>): Option<State> {
    if actions == [] then Some(INIT)
    else
      var before := Replay(actions[..|actions| - 1]);
      var last := actions[|actions| - 1];
      if before.None? || !CanStep(before.value, last) then None else Some(Next(before.value, last))
  }

  // ----- Alignment -----

  /** The calls that the messages ask for or answer, in order. */
  function Calls(msgs: seq<Msg>): seq<Call> {
    if msgs == [] then [] else CallOf(msgs[0]) + Calls(msgs[1..])
  }

  function CallOf(msg: Msg): seq<Call> {
    if msg.Ask? || msg.Answer? then [msg.call] else []
  }

  lemma {:induction false} CallsAppend(msgs: seq<Msg>, more: seq<Msg>)
    ensures Calls(msgs + more) == Calls(msgs) + Calls(more)
  {
    if msgs == [] {
      assert msgs + more == more;
    } else {
      assert (msgs + more)[0] == msgs[0] && (msgs + more)[1..] == msgs[1..] + more;
      CallsAppend(msgs[1..], more);
      Reassociate(CallOf(msgs[0]), Calls(msgs[1..]), Calls(more));
    }
  }

  function Answers(got: seq<Taken>): seq<Msg> {
    seq(|got|, i requires 0 <= i < |got| => got[i].answer)
  }

  /** The synchronous calls still under way in the pipes, oldest first. */
  function UnderWay(pipes: Pipes): seq<Call> {
    Calls(pipes.responses) + Calls(pipes.incoming) + Calls(pipes.wire) + Calls(pipes.outgoing)
  }

  predicate Aligned(state: State) {
    state.past.asked == Calls(Answers(state.past.got)) + UnderWay(state.pipes)
  }

  /** The correct answer to a call, as the API function that made it sees it. */
  function ProperAnswer(call: Call): Msg {
    Answer(call, Expected(call.api))
  }

  ghost predicate ClientMsgs(msgs: seq<Msg>) {
    forall i :: 0 <= i < |msgs| ==> msgs[i].Ask? || msgs[i].Note?
  }

  ghost predicate ServerMsgs(msgs: seq<Msg>) {
    forall i :: 0 <= i < |msgs| ==> msgs[i] == CancelRequest || IsProper(msgs[i])
  }

  predicate IsProper(msg: Msg) {
    msg.Answer? && msg == ProperAnswer(msg.call)
  }

  ghost predicate ProperAnswers(msgs: seq<Msg>) {
    forall i :: 0 <= i < |msgs| ==> IsProper(msgs[i])
  }

  /** What each queue may hold; the sentinel comes last, from a reader that is done. */
  ghost predicate Typed(pipes: Pipes) {
    var n := |pipes.responses|;
    && ClientMsgs(pipes.outgoing) && ClientMsgs(pipes.wire)
    && ServerMsgs(pipes.incoming)
    && (if pipes.readerDone
        then n > 0 ==> pipes.responses[n - 1] == Sentinel && ProperAnswers(pipes.responses[..n - 1])
        else ProperAnswers(pipes.responses))
  }

  predicate Waiting(gate: Gate) {
    gate.lock.Some? && gate.caller.Await? && gate.caller.asked
  }

  /** How many answers are due: the given-up waits', the closed-out waits', and the current one's. */
  predicate Counted(state: State) {
    var gate, past := state.gate, state.past;
    && |past.asked| + past.strays == |past.got| + past.abandoned + past.closedOut + (if Waiting(gate) then 1 else 0)
    && (past.strays > 0 ==> gate.finished)
    && (gate.lock.Some? && past.strays > 0 ==> gate.caller.CheckFinished? || (gate.caller.Await? && !gate.caller.asked))
    && (gate.lock.Some? && gate.caller.Await? && !gate.caller.asked ==> gate.finished)
    && (Waiting(gate) ==> past.asked != [] && past.asked[|past.asked| - 1] == gate.caller.call)
    && (past.closedOut > 0 ==> state.pipes.readerDone && state.pipes.responses == [])
  }

  /** Call numbers are never reused. */
  ghost predicate Numbered(gate: Gate, past: Past) {
    && (forall i :: 0 <= i < |past.asked| ==> past.asked[i].id < past.calls)
    && (forall i, j :: 0 <= i < j < |past.asked| ==> past.asked[i].id < past.asked[j].id)
    && (gate.lock.Some? ==> gate.caller.call.id < past.calls)
    && (gate.lock.Some? && !Waiting(gate) ==>
          forall i :: 0 <= i < |past.asked| ==> past.asked[i].id < gate.caller.call.id)
  }

  /** The i-th response taken answers the i-th request put; it is the taker's own iff no wait was given up. */
  predicate TakenOk(past: Past, i: nat)
    requires i < |past.got|
  {
    var taken := past.got[i];
    && i < |past.asked|
    && taken.answer == ProperAnswer(past.asked[i])
    && (taken.abandoned == 0 <==> taken.asked && taken.answer == ProperAnswer(taken.call))
  }

  ghost predicate AllTakenOk(past: Past) {
    forall i :: 0 <= i < |past.got| ==> TakenOk(past, i)
  }

  ghost predicate Invariant(state: State) {
    && Aligned(state) && Typed(state.pipes) && Counted(state)
    && Numbered(state.gate, state.past) && AllTakenOk(state.past)
  }

  /** Moving the head of one queue to the end of the queue before it. */
  lemma MoveKeepsCalls(to: seq<Msg>, moved: seq<Msg>, from: seq<Msg>)
    requires from != [] && Calls(moved) == CallOf(from[0])
    ensures Calls(to + moved) + Calls(from[1..]) == Calls(to) + Calls(from)
  {
    CallsAppend(to, moved);
    Reassociate(Calls(to), Calls(moved), Calls(from[1..]));
  }

  lemma PullKeepsUnderWay(pipes: Pipes)
    ensures UnderWay(PullStep(pipes)) == UnderWay(pipes)
  {
    if pipes.outgoing != [] {
      var after := PullStep(pipes);
      assert [pipes.outgoing[0]][1..] == [];
      MoveKeepsCalls(pipes.wire, [pipes.outgoing[0]], pipes.outgoing);
      var front := Calls(pipes.responses) + Calls(pipes.incoming);
      Reassociate(front, Calls(pipes.wire), Calls(pipes.outgoing));
      Reassociate(front, Calls(after.wire), Calls(after.outgoing));
    }
  }

  lemma ServeKeepsUnderWay(pipes: Pipes)
    requires pipes.wire != [] && ClientMsgs(pipes.wire)
    ensures UnderWay(ServeStep(pipes)) == UnderWay(pipes)
  {
    var after, served := ServeStep(pipes), Served(pipes.wire[0]);
    if served != [] {
      assert served[1..] == [];
    }
    MoveKeepsCalls(pipes.incoming, served, pipes.wire);
    Reassociate(Calls(pipes.responses), Calls(pipes.incoming), Calls(pipes.wire));
    Reassociate(Calls(pipes.responses), Calls(after.incoming), Calls(after.wire));
  }

  lemma ReadKeepsUnderWay(pipes: Pipes)
    requires pipes.incoming != []
    ensures UnderWay(ReadStep(pipes)) == UnderWay(pipes)
  {
    var head := pipes.incoming[0];
    assert [head][1..] == [];
    MoveKeepsCalls(pipes.responses, if head == CancelRequest then [] else [head], pipes.incoming);
  }

  lemma SendKeepsUnderWay(pipes: Pipes, msg: Msg)
    ensures UnderWay(Send(pipes, msg)) == UnderWay(pipes) + CallOf(msg)
  {
    CallsAppend(pipes.outgoing, [msg]);
    assert [msg][1..] == [];
    Reassociate(Calls(pipes.responses) + Calls(pipes.incoming) + Calls(pipes.wire), Calls(pipes.outgoing), CallOf(msg));
  }

  /** `Answers` puts one call per response, in order. */
  lemma {:induction false} CallsOfAnswers(msgs: seq<Msg>)
    requires ProperAnswers(msgs)
    ensures |Calls(msgs)| == |msgs|
    ensures forall i :: 0 <= i < |msgs| ==> Calls(msgs)[i] == msgs[i].call
  {
    if msgs != [] {
      assert IsProper(msgs[0]);
      CallsOfAnswers(msgs[1..]);
    }
  }

  lemma GotAppend(got: seq<Taken>, taken: Taken)
    ensures Calls(Answers(got + [taken])) == Calls(Answers(got)) + CallOf(taken.answer)
  {
    assert Answers(got + [taken]) == Answers(got) + [taken.answer];
    CallsAppend(Answers(got), [taken.answer]);
    assert [taken.answer][1..] == [];
  }

  lemma PopUnderWay(pipes: Pipes)
    requires pipes.responses != []
    ensures UnderWay(pipes) == CallOf(pipes.responses[0]) + UnderWay(pipes.(responses := pipes.responses[1..]))
  {
    var head, rest := CallOf(pipes.responses[0]), Calls(pipes.responses[1..]);
    var a, b, c := Calls(pipes.incoming), Calls(pipes.wire), Calls(pipes.outgoing);
    Reassociate(head, rest, a);
    Reassociate(head, rest + a, b);
    Reassociate(head, rest + a + b, c);
  }

  lemma TakeKeepsAligned(state: State, call: Call, asked: bool)
    requires Aligned(state) && state.pipes.responses != []
    ensures Aligned(Take(state, call, asked))
  {
    var msg, past := state.pipes.responses[0], state.past;
    PopUnderWay(state.pipes);
    if msg != Sentinel {
      GotAppend(past.got, Taken(call, asked, msg, past.abandoned));
      Reassociate(Calls(Answers(past.got)), CallOf(msg), UnderWay(Take(state, call, asked).pipes));
    }
  }

  lemma CallerKeepsAligned(state: State)
    requires Aligned(state) && CanStep(state, Proceed)
    ensures Aligned(CallerStep(state))
  {
    match state.gate.caller
    case Put(call) =>
      SendKeepsUnderWay(state.pipes, Ask(call));
      Reassociate(Calls(Answers(state.past.got)), UnderWay(state.pipes), [call]);
    case Await(call, asked) => TakeKeepsAligned(state, call, asked);
    case _ =>
  }

  lemma ForeignAppend(msgs: seq<Msg>, msg: Msg)
    requires CallOf(msg) == []
    ensures Calls(msgs + [msg]) == Calls(msgs)
  {
    CallsAppend(msgs, [msg]);
    assert [msg][1..] == [];
  }

  lemma PipesKeepAligned(state: State, next: State)
    requires Aligned(state) && UnderWay(next.pipes) == UnderWay(state.pipes)
    requires next.past.asked == state.past.asked && next.past.got == state.past.got
    ensures Aligned(next)
  {}

  /** The steps that move messages along or touch none. */
  lemma TransportKeepsUnderWay(state: State, action: Action)
    requires Typed(state.pipes) && CanStep(state, action) && !action.Proceed?
    ensures UnderWay(Next(state, action).pipes) == UnderWay(state.pipes)
  {
    match action
    case ProceedNote(tid) => SendKeepsUnderWay(state.pipes, Note);
    case Pull => PullKeepsUnderWay(state.pipes);
    case Serve => ServeKeepsUnderWay(state.pipes);
    case Read => ReadKeepsUnderWay(state.pipes);
    case PushCancel => ForeignAppend(state.pipes.incoming, CancelRequest);
    case EndReader => ForeignAppend(state.pipes.responses, Sentinel);
    case _ =>
  }

  lemma NextKeepsAligned(state: State, action: Action)
    requires Aligned(state) && Typed(state.pipes) && CanStep(state, action)
    ensures Aligned(Next(state, action))
  {
    if action.Proceed? {
      CallerKeepsAligned(state);
    } else {
      TransportKeepsUnderWay(state, action);
      PipesKeepAligned(state, Next(state, action));
    }
  }

  /** The queue keeps its type when its head is taken. */
  lemma PopKeepsTyped(pipes: Pipes)
    requires Typed(pipes) && pipes.responses != []
    ensures Typed(pipes.(responses := pipes.responses[1..]))
  {
    var n := |pipes.responses|;
    if pipes.readerDone && n > 1 {
      assert pipes.responses[1..][..n - 2] == pipes.responses[..n - 1][1..];
    }
  }

  lemma ServeKeepsTyped(pipes: Pipes)
    requires Typed(pipes) && pipes.wire != []
    ensures Typed(ServeStep(pipes))
  {
    if pipes.wire[0].Ask? {
      assert IsProper(Served(pipes.wire[0])[0]);
    }
  }

  lemma ReadKeepsTyped(pipes: Pipes)
    requires Typed(pipes) && pipes.incoming != [] && !pipes.readerDone
    ensures Typed(ReadStep(pipes))
  {
    assert pipes.incoming[0] == CancelRequest || IsProper(pipes.incoming[0]);
  }

  lemma EndReaderKeepsTyped(pipes: Pipes)
    requires Typed(pipes) && !pipes.readerDone
    ensures Typed(pipes.(readerDone := true, responses := pipes.responses + [Sentinel]))
  {
    assert (pipes.responses + [Sentinel])[..|pipes.responses|] == pipes.responses;
  }

  lemma SendKeepsTyped(pipes: Pipes, msg: Msg)
    requires Typed(pipes) && (msg.Ask? || msg.Note?)
    ensures Typed(Send(pipes, msg))
  {}

  lemma PullKeepsTyped(pipes: Pipes)
    requires Typed(pipes)
    ensures Typed(PullStep(pipes))
  {}

  lemma NextKeepsTyped(state: State, action: Action)
    requires Typed(state.pipes) && CanStep(state, action)
    ensures Typed(Next(state, action).pipes)
  {
    match action
    case Proceed =>
      if state.gate.caller.Await? {
        PopKeepsTyped(state.pipes);
      } else if state.gate.caller.Put? {
        SendKeepsTyped(state.pipes, Ask(state.gate.caller.call));
      }
    case ProceedNote(_) => SendKeepsTyped(state.pipes, Note);
    case Pull => PullKeepsTyped(state.pipes);
    case Serve => ServeKeepsTyped(state.pipes);
    case Read => ReadKeepsTyped(state.pipes);
    case EndReader => EndReaderKeepsTyped(state.pipes);
    case _ =>
  }

  lemma CallerKeepsNumbered(state: State)
    requires Numbered(state.gate, state.past) && CanStep(state, Proceed)
    ensures Numbered(CallerStep(state).gate, CallerStep(state).past)
  {}

  lemma NextKeepsNumbered(state: State, action: Action)
    requires Numbered(state.gate, state.past) && CanStep(state, action)
    ensures Numbered(Next(state, action).gate, Next(state, action).past)
  {
    if action.Proceed? {
      CallerKeepsNumbered(state);
    }
  }

  /** A sentinel is the last thing the queue ever holds. */
  lemma SentinelIsLast(pipes: Pipes)
    requires Typed(pipes) && pipes.responses != []
    ensures IsProper(pipes.responses[0]) || (pipes.readerDone && pipes.responses == [Sentinel])
  {
    var n := |pipes.responses|;
    if pipes.readerDone && n > 1 {
      assert pipes.responses[..n - 1][0] == pipes.responses[0];
    }
  }

  lemma NextKeepsCounted(state: State, action: Action)
    requires Counted(state) && Typed(state.pipes) && CanStep(state, action)
    ensures Counted(Next(state, action))
  {
    if action.Proceed? && state.gate.caller.Await? && state.pipes.responses[0] == Sentinel {
      SentinelIsLast(state.pipes);
      assert state.pipes.responses[1..] == [];
    }
  }

  /** A response taken now answers the request whose turn it is. */
  lemma TakeIsOk(state: State, call: Call, asked: bool)
    requires Invariant(state) && state.gate.lock.Some? && state.gate.caller == Await(call, asked)
    requires state.pipes.responses != [] && state.pipes.responses[0] != Sentinel
    ensures TakenOk(Take(state, call, asked).past, |state.past.got|)
  {
    var past, pipes, k := state.past, state.pipes, |state.past.got|;
    SentinelIsLast(pipes);
    CallsOfGot(past);
    assert past.asked[k] == pipes.responses[0].call;
    assert pipes.responses[0] == ProperAnswer(past.asked[k]);
    assert past.closedOut == 0;
    if asked && past.abandoned > 0 {
      assert past.asked[k].id < past.asked[|past.asked| - 1].id;
    }
  }

  lemma CallsOfGot(past: Past)
    requires AllTakenOk(past)
    ensures |Calls(Answers(past.got))| == |past.got|
  {
    forall i | 0 <= i < |past.got| ensures IsProper(Answers(past.got)[i]) {
      assert TakenOk(past, i);
    }
    CallsOfAnswers(Answers(past.got));
  }

  lemma NextKeepsTaken(state: State, action: Action)
    requires Invariant(state) && CanStep(state, action)
    ensures AllTakenOk(Next(state, action).past)
  {
    var past, next := state.past, Next(state, action).past;
    if |next.got| > |past.got| {
      TakeIsOk(state, state.gate.caller.call, state.gate.caller.asked);
    }
    forall i | 0 <= i < |next.got| ensures TakenOk(next, i) {
      if i < |past.got| {
        assert TakenOk(past, i);
      }
    }
  }

  lemma {:induction false} Invariance(actions: seq<Action>)
    requires Replay(actions).Some?
    ensures Invariant(Replay(actions).value)
  {
    if actions != [] {
      Invariance(actions[..|actions| - 1]);
      var before, last := Replay(actions[..|actions| - 1]).value, actions[|actions| - 1];
      NextKeepsAligned(before, last);
      NextKeepsTyped(before, last);
      NextKeepsCounted(before, last);
      NextKeepsNumbered(before, last);
      NextKeepsTaken(before, last);
    }
  }

  // ----- The promises -----

  /** The k-th response taken answers the k-th synchronous request put on the stream. */
  lemma RepliesAreAligned(actions: seq<Action>, k: nat)
    requires Replay(actions).Some? && k < |Replay(actions).value.past.got|
    ensures var past := Replay(actions).value.past;
      && k < |past.asked|
      && past.got[k].answer == ProperAnswer(past.asked[k])
  {
    Invariance(actions);
    assert TakenOk(Replay(actions).value.past, k);
  }

  /** A caller that gets a response gets its own, of the kind it expects, iff no wait was given up before. */
  lemma OwnReplyIffNothingAbandoned(actions: seq<Action>, k: nat)
    requires Replay(actions).Some? && k < |Replay(actions).value.past.got|
    ensures var taken := Replay(actions).value.past.got[k];
      taken.abandoned == 0 <==> taken.asked && taken.answer == ProperAnswer(taken.call)
  {
    Invariance(actions);
    assert TakenOk(Replay(actions).value.past, k);
  }

  /** Giving up is counted for good, so without timeouts everybody gets their own. */
  lemma NoTimeoutsNoMixups(actions: seq<Action>)
    requires Replay(actions).Some? && Replay(actions).value.past.abandoned == 0
    ensures forall k :: 0 <= k < |Replay(actions).value.past.got| ==>
              var taken := Replay(actions).value.past.got[k]; taken.answer == ProperAnswer(taken.call)
  {
    AbandonedOnlyGrows(actions);
    forall k | 0 <= k < |Replay(actions).value.past.got|
      ensures var taken := Replay(actions).value.past.got[k]; taken.answer == ProperAnswer(taken.call)
    {
      OwnReplyIffNothingAbandoned(actions, k);
    }
  }

  lemma {:induction false} AbandonedOnlyGrows(actions: seq<Action>)
    requires Replay(actions).Some?
    ensures var past := Replay(actions).value.past;
      forall k :: 0 <= k < |past.got| ==> past.got[k].abandoned <= past.abandoned
  {
    if actions != [] {
      AbandonedOnlyGrows(actions[..|actions| - 1]);
    }
  }

  // ----- What a wait that was given up does to the next caller -----

  ghost predicate Reachable(state: State) {
    exists actions :: Replay(actions) == Some(state)
  }

  lemma Goes(before: State, action: Action, after: State)
    requires Reachable(before) && CanStep(before, action) && Next(before, action) == after
    ensures Reachable(after)
  {
    var actions :| Replay(actions) == Some(before);
    var more := actions + [action];
    assert more[..|more| - 1] == actions;
    assert Replay(more) == Some(after);
  }

  /** Only the lock, its holder and the outgoing queue have been used. */
  function Asking(lock: Option<Tid>, caller: Caller, outgoing: seq<Msg>, past: Past): State {
    State(Gate(lock, caller, map[], false, false), Pipes(outgoing, false, [], false, [], false, [], false), past)
  }

  /** The second call waits, and the first answer is on its way. */
  function Waits(second: Call, pipes: Pipes, past: Past): State {
    State(Gate(Some(1), Await(second, true), map[], false, false), pipes, past)
  }

  lemma FirstGivesUp(first: Call)
    requires first.id == 0
    ensures Reachable(Asking(None, Await(first, true), [Ask(first)], Past(1, [first], [], 1, 0, 0)))
  {
    var begun, asked := Past(1, [], [], 0, 0, 0), Past(1, [first], [], 0, 0, 0);
    assert Replay([]) == Some(INIT);
    Goes(INIT, Enter(0, first.api), Asking(Some(0), CheckFinished(first), [], begun));
    Goes(Asking(Some(0), CheckFinished(first), [], begun), Proceed, Asking(Some(0), CheckCancel(first), [], begun));
    Goes(Asking(Some(0), CheckCancel(first), [], begun), Proceed, Asking(Some(0), Put(first), [], begun));
    Goes(Asking(Some(0), Put(first), [], begun), Proceed, Asking(Some(0), Await(first, true), [Ask(first)], asked));
    Goes(Asking(Some(0), Await(first, true), [Ask(first)], asked), GiveUp,
         Asking(None, Await(first, true), [Ask(first)], asked.(abandoned := 1)));
  }

  lemma SecondAsks(first: Call, second: Call)
    requires first.id == 0 && second.id == 1
    ensures Reachable(Waits(second, Pipes([Ask(first), Ask(second)], false, [], false, [], false, [], false),
                            Past(2, [first, second], [], 1, 0, 0)))
  {
    FirstGivesUp(first);
    var queue, past := [Ask(first)], Past(2, [first], [], 1, 0, 0);
    Goes(Asking(None, Await(first, true), queue, past.(calls := 1)), Enter(1, second.api),
         Asking(Some(1), CheckFinished(second), queue, past));
    Goes(Asking(Some(1), CheckFinished(second), queue, past), Proceed, Asking(Some(1), CheckCancel(second), queue, past));
    Goes(Asking(Some(1), CheckCancel(second), queue, past), Proceed, Asking(Some(1), Put(second), queue, past));
    assert queue + [Ask(second)] == [Ask(first), Ask(second)] && [first] + [second] == [first, second];
    Goes(Asking(Some(1), Put(second), queue, past), Proceed,
         Waits(second, Pipes([Ask(first), Ask(second)], false, [], false, [], false, [], false),
               Past(2, [first, second], [], 1, 0, 0)));
  }

  lemma FirstIsAnswered(first: Call, second: Call)
    requires first.id == 0 && second.id == 1
    ensures Reachable(Waits(second, Pipes([Ask(second)], false, [], false, [], false, [ProperAnswer(first)], false),
                            Past(2, [first, second], [], 1, 0, 0)))
  {
    SecondAsks(first, second);
    var past, answer := Past(2, [first, second], [], 1, 0, 0), ProperAnswer(first);
    var asked := Waits(second, Pipes([Ask(first), Ask(second)], false, [], false, [], false, [], false), past);
    var pulled := Waits(second, Pipes([Ask(second)], false, [Ask(first)], false, [], false, [], false), past);
    var served := Waits(second, Pipes([Ask(second)], false, [], false, [answer], false, [], false), past);
    assert [Ask(first), Ask(second)][1..] == [Ask(second)];
    Goes(asked, Pull, pulled);
    Goes(pulled, Serve, served);
    Goes(served, Read, Waits(second, Pipes([Ask(second)], false, [], false, [], false, [answer], false), past));
  }

  /**
   For every two API functions: a call gives up, the next one takes the answer to the first for its
   own. The caller notices exactly if the two expect different kinds of response; otherwise it goes
   on with the other call's data.
   */
  lemma NextCallerGetsTheWrongReply(a: Api, b: Api)
    ensures exists state ::
              && Reachable(state) && |state.past.got| == 1 && state.past.abandoned == 1
              && state.past.got[0].call == Call(1, b) && state.past.got[0].asked
              && state.past.got[0].answer == ProperAnswer(Call(0, a)) != ProperAnswer(Call(1, b))
              && (state.past.got[0].answer.response == Expected(b) <==> Expected(a) == Expected(b))
  {
    var first, second := Call(0, a), Call(1, b);
    FirstIsAnswered(first, second);
    var past := Past(2, [first, second], [], 1, 0, 0);
    var last := State(
      Gate(None, Await(second, true), map[], false, false),
      Pipes([Ask(second)], false, [], false, [], false, [], false),
      past.(got := [Taken(second, true, ProperAnswer(first), 1)]));
    Goes(Waits(second, Pipes([Ask(second)], false, [], false, [], false, [ProperAnswer(first)], false), past), Proceed, last);
    assert last.past.got[0].answer == ProperAnswer(first);
  }
}
