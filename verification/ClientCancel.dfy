/** Cancelling as the client sees it: when its threads learn of a cancel, and what they put on the stream afterwards. */
module ClientCancel {
  import opened Sequences
  import opened Wrappers
  import opened Client

  // ----- The event is set by a cancel that was read, and by nothing else -----

  function CancelsIn(msgs: seq<Msg>): nat {
    if msgs == [] then 0 else (if msgs[0] == CancelRequest then 1 else 0) + CancelsIn(msgs[1..])
  }

  lemma {:induction false} CancelsInPlus(msgs: seq<Msg>, more: seq<Msg>)
    ensures CancelsIn(msgs + more) == CancelsIn(msgs) + CancelsIn(more)
  {
    if msgs == [] {
      assert msgs + more == more;
    } else {
      assert (msgs + more)[0] == msgs[0] && (msgs + more)[1..] == msgs[1..] + more;
      CancelsInPlus(msgs[1..], more);
    }
  }

  /** How many cancels the server has pushed. */
  function CancelsPushed(actions: seq<Action>): nat {
    if actions == [] then 0
    else CancelsPushed(actions[..|actions| - 1]) + if actions[|actions| - 1].PushCancel? then 1 else 0
  }

  /** The pushed cancels are still to be read, or have set the event. */
  predicate Accounted(gate: Gate, incoming: seq<Msg>, pushed: nat) {
    && CancelsIn(incoming) <= pushed
    && (gate.cancelled <==> CancelsIn(incoming) < pushed)
  }

  lemma ServedIsNoCancel(msg: Msg)
    ensures CancelsIn(Served(msg)) == 0
  {
    if msg.Ask? {
      assert Served(msg)[1..] == [];
    }
  }

  lemma NextKeepsAccounted(state: State, action: Action, pushed: nat)
    requires CanStep(state, action) && Accounted(state.gate, state.pipes.incoming, pushed)
    ensures var next := Next(state, action);
      Accounted(next.gate, next.pipes.incoming, pushed + if action.PushCancel? then 1 else 0)
  {
    match action
    case Serve =>
      ServedIsNoCancel(state.pipes.wire[0]);
      CancelsInPlus(state.pipes.incoming, Served(state.pipes.wire[0]));
    case PushCancel =>
      assert [CancelRequest][1..] == [];
      CancelsInPlus(state.pipes.incoming, [CancelRequest]);
    case _ =>
  }

  /** In every interleaving the cancel event is set exactly if some pushed cancel has been read. */
  lemma {:induction false} CancelledIffRead(actions: seq<Action>)
    requires Replay(actions).Some?
    ensures var state := Replay(actions).value;
      && CancelsIn(state.pipes.incoming) <= CancelsPushed(actions)
      && (state.gate.cancelled <==> CancelsIn(state.pipes.incoming) < CancelsPushed(actions))
  {
    if actions != [] {
      var before, last := actions[..|actions| - 1], actions[|actions| - 1];
      CancelledIffRead(before);
      NextKeepsAccounted(Replay(before).value, last, CancelsPushed(before));
    }
  }

  // ----- What a call does -----

  /**
   Whenever the lock is free a thread may begin a call. If it runs on undisturbed, it puts its request
   exactly if the client has neither finished nor been cancelled; after a cancel it gives up, after the
   end it waits all the same.
   */
  lemma CallAsksIff(state: State, tid: Tid, api: Api)
    requires state.gate.lock.None? && tid !in state.gate.senders
    ensures CanStep(state, Enter(tid, api)) && CanStep(Next(state, Enter(tid, api)), Proceed)
    ensures var begun := Next(state, Enter(tid, api));
      var gate, call := begun.gate, Call(state.past.calls, api);
      var first := Next(begun, Proceed);
      if gate.finished then first == begun.(gate := gate.(caller := Await(call, false)))
      else
        && CanStep(first, Proceed)
        && var second := Next(first, Proceed);
           if gate.cancelled then second == begun.(gate := gate.(lock := None, caller := CheckCancel(call)))
           else
             && CanStep(second, Proceed)
             && var third := Next(second, Proceed);
                && third.past.asked == state.past.asked + [call]
                && third.pipes.outgoing == state.pipes.outgoing + [Ask(call)]
                && third.gate == gate.(caller := Await(call, true))
  {}

  /** A message without an answer goes out exactly if nothing ended or cancelled the client, or it is forced. */
  lemma NoteGoesOutIff(state: State, tid: Tid)
    requires tid in state.gate.senders && state.gate.senders[tid].NoteFinished?
    ensures var first := Next(state, ProceedNote(tid));
      if state.gate.finished then first == state.(gate := state.gate.(senders := state.gate.senders - {tid}))
      else
        && CanStep(first, ProceedNote(tid))
        && var second := Next(first, ProceedNote(tid));
           if state.gate.cancelled then second == state.(gate := state.gate.(senders := state.gate.senders - {tid}))
           else
             && CanStep(second, ProceedNote(tid))
             && Next(second, ProceedNote(tid)).pipes.outgoing == state.pipes.outgoing + [Note]
  {}

  lemma ForcedNoteGoesOut(state: State, tid: Tid)
    requires CanStep(state, StartNote(tid, true))
    ensures var begun := Next(state, StartNote(tid, true));
      CanStep(begun, ProceedNote(tid)) && Next(begun, ProceedNote(tid)).pipes.outgoing == state.pipes.outgoing + [Note]
  {}

  // ----- Silence after a cancel, and after the end -----

  /** The call whose request is as good as put: past the check. */
  function Committed(gate: Gate): seq<Call> {
    if gate.lock.Some? && (gate.caller.Put? || (gate.caller.CheckCancel? && !gate.cancelled)) then [gate.caller.call] else []
  }

  predicate Stopped(gate: Gate) {
    gate.cancelled || gate.finished
  }

  /** From `state` to `later` nothing was asked but, at most, what was committed. */
  predicate AsksNoMore(state: State, later: State) {
    && Stopped(later.gate)
    && (|| (later.past.asked == state.past.asked && Committed(later.gate) in [[], Committed(state.gate)])
        || (later.past.asked == state.past.asked + Committed(state.gate) && Committed(later.gate) == []))
  }

  lemma StepWhenStopped(state: State, action: Action)
    requires CanStep(state, action) && Stopped(state.gate)
    ensures AsksNoMore(state, Next(state, action))
  {}

  lemma AsksNoMoreSince(first: State, state: State, later: State)
    requires AsksNoMore(first, state) && AsksNoMore(state, later)
    ensures AsksNoMore(first, later)
  {
    if Committed(state.gate) == [] {
      assert state.past.asked + [] == state.past.asked;
    }
  }

  /**
   Once the client has read a cancel or has finished, no new call puts a request, in any continuation:
   at most the one that had passed its checks before still does.
   */
  lemma {:induction false} NobodyAsksAnymore(actions: seq<Action>, more: seq<Action>)
    requires Replay(actions).Some? && Stopped(Replay(actions).value.gate) && Replay(actions + more).Some?
    ensures AsksNoMore(Replay(actions).value, Replay(actions + more).value)
    decreases |more|
  {
    if more == [] {
      assert actions + more == actions;
    } else {
      var before, last := more[..|more| - 1], more[|more| - 1];
      assert (actions + more)[..|actions + more| - 1] == actions + before;
      NobodyAsksAnymore(actions, before);
      var state := Replay(actions + before).value;
      StepWhenStopped(state, last);
      AsksNoMoreSince(Replay(actions).value, state, Next(state, last));
    }
  }

  /**
   Nothing the outside may do is left out: a wait may be given up at any time, a thread outside a call
   may send, the client may finish, the server may push a cancel or end, and the reader may fail.
   */
  lemma OutsideIsFree(state: State, tid: Tid, force: bool)
    ensures CanStep(state, Finish)
    ensures state.gate.lock.Some? && state.gate.caller.Await? ==> CanStep(state, GiveUp)
    ensures tid !in state.gate.senders && state.gate.lock != Some(tid) ==> CanStep(state, StartNote(tid, force))
    ensures !state.pipes.serverEnded ==> CanStep(state, PushCancel) && CanStep(state, EndServer)
    ensures !state.pipes.readerDone ==> CanStep(state, EndReader)
    ensures !state.pipes.readerDone && state.pipes.incoming != [] ==> CanStep(state, Read)
  {}

  // ----- The end of the stream -----

  /** gRPC takes `n` messages from the iterator. */
  function Pulling(n: nat): seq<Action> {
    if n == 0 then [] else Pulling(n - 1) + [Pull]
  }

  predicate Pulled(pipes: Pipes, after: Pipes, n: nat)
    requires n <= |pipes.outgoing|
  {
    after == pipes.(outgoing := pipes.outgoing[n..], wire := pipes.wire + pipes.outgoing[..n])
  }

  lemma PullOneMore(pipes: Pipes, after: Pipes, n: nat)
    requires n < |pipes.outgoing| && Pulled(pipes, after, n)
    ensures Pulled(pipes, PullStep(after), n + 1)
  {
    assert pipes.outgoing[n..][1..] == pipes.outgoing[n + 1..];
    assert pipes.outgoing[..n + 1] == pipes.outgoing[..n] + [pipes.outgoing[n]];
    Reassociate(pipes.wire, pipes.outgoing[..n], [pipes.outgoing[n]]);
  }

  lemma ReplayOneMore(actions: seq<Action>, last: Action)
    requires Replay(actions).Some? && CanStep(Replay(actions).value, last)
    ensures Replay(actions + [last]) == Some(Next(Replay(actions).value, last))
  {
    assert (actions + [last])[..|actions|] == actions;
  }

  lemma {:induction false} CanPull(actions: seq<Action>, n: nat)
    requires Replay(actions).Some? && !Replay(actions).value.pipes.pullEnded
    requires n <= |Replay(actions).value.pipes.outgoing|
    ensures Replay(actions + Pulling(n)).Some?
    ensures Pulled(Replay(actions).value.pipes, Replay(actions + Pulling(n)).value.pipes, n)
  {
    if n == 0 {
      assert actions + [] == actions;
      assert Replay(actions).value.pipes.wire + [] == Replay(actions).value.pipes.wire;
    } else {
      CanPull(actions, n - 1);
      ReplayOneMore(actions + Pulling(n - 1), Pull);
      PullOneMore(Replay(actions).value.pipes, Replay(actions + Pulling(n - 1)).value.pipes, n - 1);
      Reassociate(actions, Pulling(n - 1), [Pull]);
    }
  }

  /** After `_finish` gRPC can take all that was put, in order, and then finds the end: nothing is lost. */
  lemma AllThatWasPutIsSent(actions: seq<Action>)
    requires Replay(actions).Some? && !Replay(actions).value.pipes.pullEnded
    ensures var pipes := Replay(actions).value.pipes;
      var last := actions + [Finish] + Pulling(|pipes.outgoing|) + [Pull];
      && Replay(last).Some?
      && Replay(last).value.pipes.wire == pipes.wire + pipes.outgoing
      && Replay(last).value.pipes.outgoing == [] && Replay(last).value.pipes.pullEnded
  {
    var pipes := Replay(actions).value.pipes;
    ReplayOneMore(actions, Finish);
    CanPull(actions + [Finish], |pipes.outgoing|);
    ReplayOneMore(actions + [Finish] + Pulling(|pipes.outgoing|), Pull);
    assert pipes.outgoing[..|pipes.outgoing|] == pipes.outgoing;
  }

  lemma OnlyFinishCloses(state: State, action: Action)
    requires CanStep(state, action)
    ensures Next(state, action).pipes.closed <==> state.pipes.closed || action == Finish
    ensures Next(state, action).gate.finished <==> state.gate.finished || action == Finish
  {}

  lemma {:induction false} ClosedIffFinished(actions: seq<Action>)
    requires Replay(actions).Some?
    ensures var state := Replay(actions).value;
      (state.pipes.closed <==> Finish in actions) && (state.gate.finished <==> Finish in actions)
  {
    if actions != [] {
      var before, last := actions[..|actions| - 1], actions[|actions| - 1];
      ClosedIffFinished(before);
      OnlyFinishCloses(Replay(before).value, last);
      assert actions == before + [last];
    }
  }

  lemma EndIsFoundClosed(state: State, action: Action)
    requires CanStep(state, action) && !state.pipes.pullEnded && Next(state, action).pipes.pullEnded
    ensures Next(state, action).pipes.closed
  {}

  lemma {:induction false} EndIsClosed(actions: seq<Action>)
    requires Replay(actions).Some? && Replay(actions).value.pipes.pullEnded
    ensures Replay(actions).value.pipes.closed
  {
    var before, last := actions[..|actions| - 1], actions[|actions| - 1];
    if Replay(before).value.pipes.pullEnded {
      EndIsClosed(before);
      OnlyFinishCloses(Replay(before).value, last);
    } else {
      EndIsFoundClosed(Replay(before).value, last);
    }
  }

  /** Before `_finish` the end is never found. */
  lemma NoEndBeforeFinish(actions: seq<Action>)
    requires Replay(actions).Some? && Replay(actions).value.pipes.pullEnded
    ensures Finish in actions && Replay(actions).value.gate.finished
  {
    EndIsClosed(actions);
    ClosedIffFinished(actions);
  }

  /** When the reader thread ends, whoever waits or begins to wait for a response is woken. */
  lemma ReaderEndWakes(state: State)
    requires CanStep(state, EndReader) && state.gate.lock.Some? && state.gate.caller.Await?
    ensures CanStep(Next(state, EndReader), Proceed)
    ensures state.pipes.responses == [] ==>
      var woken := Next(Next(state, EndReader), Proceed);
      woken.gate.lock.None? && woken.past.got == state.past.got
  {}
}
