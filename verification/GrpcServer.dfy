/**
 `RunChannel` and `GRPCServer` as Go writes them, run by one thread at a time: the flags a handler
 leaves behind, what it forwards, what it answers and what it does to the cache, message by message.
 How these operations interleave is the subject of `Lifecycle`.
 */
module GrpcServer {
  import opened Ids
  import opened Sequences
  import opened Wrappers
  import opened Lifecycle
  import opened LifecycleInvariants
  import opened LifecycleContent
  import Cache

  /** What serving a message shows outside: reports to the reservoir and responses to the client, in order. */
  datatype Effect =
    | BlockRegistered(key: string, shm: string, size: int)
    | CacheSetRejected(key: string)          // an error for the run's pane, without a script id
    | BlockReleased(key: string)
    | ReleaseIgnored(key: string)
    | CacheCreateResponse(key: string, duplicate: bool)
    | CacheLookupResponse(key: string, found: bool, shm: string, size: int)
    | OtherResponse
    | StreamSendFailed                       // the report instead of a response that could not be sent

  /** What the messages of one run do to the cache. */
  function CacheAfter(cache: Cache.Registry, msgs: seq<ClientMsg>, run: RunId): Cache.Registry {
    if msgs == [] then cache
    else CacheAfterOne(CacheAfter(cache, msgs[..|msgs| - 1], run), msgs[|msgs| - 1], run)
  }

  function CacheAfterOne(cache: Cache.Registry, msg: ClientMsg, run: RunId): Cache.Registry {
    match msg
    case CacheCreate(key, shm, size) => Cache.AfterRegister(cache, key, shm, size, run)
    case CacheLookup(key) => Cache.AfterLookup(cache, key, run)
    case CacheRelease(key) => Cache.AfterRelease(cache, key, run)
    case _ => cache
  }

  /** The effects, each computed from the cache as the messages before it left it. */
  function Effects(cache: Cache.Registry, msgs: seq<ClientMsg>, run: RunId): seq<Effect> {
    if msgs == [] then []
    else
      var before := msgs[..|msgs| - 1];
      Effects(cache, before, run) + EffectsOf(CacheAfter(cache, before, run), msgs[|msgs| - 1], run)
  }

  function EffectsOf(cache: Cache.Registry, msg: ClientMsg, run: RunId): seq<Effect> {
    match msg
    case CacheCreate(key, shm, size) =>
      if key in cache.blocks then [CacheSetRejected(key), CacheCreateResponse(key, true)]
      else [BlockRegistered(key, shm, size), CacheCreateResponse(key, false)]
    case CacheLookup(key) =>
      if key in cache.blocks
      then [CacheLookupResponse(key, true, cache.blocks[key].shm, cache.blocks[key].size)]
      else [CacheLookupResponse(key, false, "", 0)]
    case CacheRelease(key) => [if Cache.Held(cache, key, run) then BlockReleased(key) else ReleaseIgnored(key)]
    case Request => [OtherResponse]
    case Dialog => [OtherResponse]
    case _ => []
  }

  /** All that serving one run changes: its messages taken, forwarded while the channel is open, their effects, the cache. */
  datatype Trail = Trail(
    open: bool, taken: seq<ClientMsg>, messages: seq<Message>, effects: seq<Effect>, cache: Cache.Registry)

  /** Serving messages one after another ... */
  function Served(trail: Trail, msgs: seq<ClientMsg>, run: RunId): Trail {
    if msgs == [] then trail else ServedOne(Served(trail, msgs[..|msgs| - 1], run), msgs[|msgs| - 1], run, true)
  }

  /** One message, its response sent or not. */
  function ServedOne(trail: Trail, msg: ClientMsg, run: RunId, sent: bool): Trail {
    Trail(trail.open, trail.taken + [msg], trail.messages + (if trail.open then ForwardedOne(msg) else []),
          trail.effects + Shown(EffectsOf(trail.cache, msg, run), sent), CacheAfterOne(trail.cache, msg, run))
  }

  /** A response that cannot be sent, the last of the effects, is replaced by a report. */
  function Shown(effects: seq<Effect>, sent: bool): seq<Effect> {
    if sent || effects == [] then effects else effects[..|effects| - 1] + [StreamSendFailed]
  }

  /** ... amounts to the folds over all of them. */
  function AllServed(trail: Trail, msgs: seq<ClientMsg>, run: RunId): Trail {
    Trail(trail.open, trail.taken + msgs, trail.messages + (if trail.open then Forwarded(msgs) else []),
          trail.effects + Effects(trail.cache, msgs, run), CacheAfter(trail.cache, msgs, run))
  }

  lemma FoldsStep(cache: Cache.Registry, msgs: seq<ClientMsg>, msg: ClientMsg, run: RunId)
    ensures Forwarded(msgs + [msg]) == Forwarded(msgs) + ForwardedOne(msg)
    ensures CacheAfter(cache, msgs + [msg], run) == CacheAfterOne(CacheAfter(cache, msgs, run), msg, run)
    ensures Effects(cache, msgs + [msg], run)
         == Effects(cache, msgs, run) + EffectsOf(CacheAfter(cache, msgs, run), msg, run)
  {
    assert (msgs + [msg])[..|msgs|] == msgs;
  }

  lemma {:induction false} ServedInFull(trail: Trail, msgs: seq<ClientMsg>, run: RunId)
    ensures Served(trail, msgs, run) == AllServed(trail, msgs, run)
  {
    if msgs == [] {
      assert trail.taken + [] == trail.taken && trail.messages + [] == trail.messages;
      assert trail.effects + [] == trail.effects;
    } else {
      var before, last := msgs[..|msgs| - 1], msgs[|msgs| - 1];
      assert msgs == before + [last];
      ServedInFull(trail, before, run);
      FoldsStep(trail.cache, before, last, run);
      Reassociate(trail.taken, before, [last]);
      Reassociate(trail.messages, Forwarded(before), ForwardedOne(last));
      Reassociate(trail.effects, Effects(trail.cache, before, run), EffectsOf(CacheAfter(trail.cache, before, run), last, run));
    }
  }

  lemma ServedStep(trail: Trail, msgs: seq<ClientMsg>, i: nat, run: RunId)
    requires i < |msgs|
    ensures Served(trail, msgs[..i + 1], run) == ServedOne(Served(trail, msgs[..i], run), msgs[i], run, true)
  {
    assert msgs[..i + 1][..i] == msgs[..i];
  }

  /** The kind of response that a request calls for. */
  predicate Responds(effect: Effect, msg: ClientMsg) {
    match msg
    case CacheCreate(key, _, _) => effect.CacheCreateResponse? && effect.key == key
    case CacheLookup(key) => effect.CacheLookupResponse? && effect.key == key
    case Request => effect.OtherResponse?
    case Dialog => effect.OtherResponse?
    case _ => false
  }

  predicate IsResponse(effect: Effect) {
    effect.CacheCreateResponse? || effect.CacheLookupResponse? || effect.OtherResponse?
  }

  /** A request has one response, of its kind, as the last of its effects; nothing else has any. */
  lemma ResponseComesLast(cache: Cache.Registry, msg: ClientMsg, run: RunId)
    ensures var effects := EffectsOf(cache, msg, run);
      var n := if Asks(msg) then |effects| - 1 else |effects|;
      && (Asks(msg) ==> effects != [] && Responds(effects[n], msg))
      && forall i :: 0 <= i < n ==> !IsResponse(effects[i])
  {}

  /**
   A client that asks is shown its response or, if that could not be sent, there is a report of it in
   its place, never both; what went before is the same.
   */
  lemma UnsentIsReported(cache: Cache.Registry, msg: ClientMsg, run: RunId, sent: bool)
    requires sent || Asks(msg)
    ensures var effects := EffectsOf(cache, msg, run);
      var shown := Shown(effects, sent);
      && |shown| == |effects|
      && (forall i :: 0 <= i < |shown| && (sent || i < |shown| - 1) ==> shown[i] == effects[i])
      && (forall i :: 0 <= i < |shown| ==> (IsResponse(shown[i]) <==> sent && Asks(msg) && i == |shown| - 1))
      && (forall i :: 0 <= i < |shown| ==> (shown[i].StreamSendFailed? <==> !sent && i == |shown| - 1))
  {
    ResponseComesLast(cache, msg, run);
  }

  predicate FailsAt(msgs: seq<ClientMsg>, sends: seq<bool>, i: nat)
    requires i < |msgs| <= |sends|
  {
    Asks(msgs[i]) && !sends[i]
  }

  predicate AllAnswered(msgs: seq<ClientMsg>, sends: seq<bool>, n: nat)
    requires n <= |msgs| <= |sends|
  {
    forall i :: 0 <= i < n ==> !FailsAt(msgs, sends, i)
  }

  /** The loop dealt with `n` messages: with all of them, or up to the first whose response could not be sent. */
  predicate Stops(msgs: seq<ClientMsg>, sends: seq<bool>, n: nat, ok: bool)
    requires |msgs| <= |sends|
  {
    && n <= |msgs|
    && if ok then n == |msgs| && AllAnswered(msgs, sends, n)
       else n > 0 && AllAnswered(msgs, sends, n - 1) && FailsAt(msgs, sends, n - 1)
  }

  /** Where it stops is determined. */
  lemma StopsOnce(msgs: seq<ClientMsg>, sends: seq<bool>, m: nat, n: nat, ok: bool, fine: bool)
    requires |msgs| <= |sends| && Stops(msgs, sends, m, ok) && Stops(msgs, sends, n, fine)
    ensures m == n && ok == fine
  {
    if !ok {
      assert FailsAt(msgs, sends, m - 1);
    }
    if !fine {
      assert FailsAt(msgs, sends, n - 1);
    }
  }

  /** What has then been done. */
  function Dealt(trail: Trail, msgs: seq<ClientMsg>, n: nat, run: RunId, ok: bool): Trail
    requires n <= |msgs| && (!ok ==> n > 0)
  {
    if ok then Served(trail, msgs[..n], run)
    else ServedOne(Served(trail, msgs[..n - 1], run), msgs[n - 1], run, false)
  }

  /** Which amounts to the folds over those messages, but for the response that was not sent. */
  lemma DealtInFull(trail: Trail, msgs: seq<ClientMsg>, sends: seq<bool>, n: nat, run: RunId, ok: bool)
    requires |msgs| <= |sends| && Stops(msgs, sends, n, ok)
    ensures var all := AllServed(trail, msgs[..n], run);
      Dealt(trail, msgs, n, run, ok) == all.(effects := Shown(all.effects, ok))
  {
    if ok {
      ServedInFull(trail, msgs[..n], run);
    } else {
      LastUnsent(trail, msgs, n - 1, run);
    }
  }

  lemma ShownAppend(before: seq<Effect>, effects: seq<Effect>)
    requires effects != []
    ensures Shown(before + effects, false) == before + Shown(effects, false)
  {}

  lemma LastUnsent(trail: Trail, msgs: seq<ClientMsg>, n: nat, run: RunId)
    requires n < |msgs| && Asks(msgs[n])
    ensures var all := AllServed(trail, msgs[..n + 1], run);
      ServedOne(Served(trail, msgs[..n], run), msgs[n], run, false) == all.(effects := Shown(all.effects, false))
  {
    var before := Served(trail, msgs[..n], run);
    ServedStep(trail, msgs, n, run);
    ServedInFull(trail, msgs[..n + 1], run);
    ShownAppend(before.effects, EffectsOf(before.cache, msgs[n], run));
  }

  /** What one message does to the payload fields. */
  function NotedOne(flags: Flags, msg: ClientMsg): Flags {
    match msg
    case Report(state) => flags.(pythonStatus := FirstWrite(flags.pythonStatus, state))
    case Error(message, _, _) => flags.(gotError := true, errorMessage := Some(message))
    case _ => flags
  }

  function Noted(msgs: seq<ClientMsg>): Flags {
    if msgs == [] then Flags(false, None, None) else NotedOne(Noted(msgs[..|msgs| - 1]), msgs[|msgs| - 1])
  }

  lemma NotedAppend(msgs: seq<ClientMsg>, msg: ClientMsg)
    ensures Noted(msgs + [msg]) == NotedOne(Noted(msgs), msg)
  {
    assert (msgs + [msg])[..|msgs|] == msgs;
  }

  /** One write after another amounts to: any error, the first terminal report, the last error text. */
  lemma {:induction false} NotedIsSummary(msgs: seq<ClientMsg>)
    ensures Noted(msgs) == Summary(msgs)
  {
    if msgs != [] {
      var before, last := msgs[..|msgs| - 1], msgs[|msgs| - 1];
      assert msgs == before + [last];
      NotedIsSummary(before);
      SummaryAppend(before, last);
    }
  }

  /** One run's channel; `taken` is the history of what its handler has dealt with. */
  class RunChannel {
    const runID: RunId
    var phase: Phase
    var connectedClosed: bool
    var messagesClosed: bool
    var messages: seq<Message>           // everything sent so far
    var gotError: bool
    var pythonStatus: Option<Status>
    var errorMessage: Option<string>
    var effects: seq<Effect>             // everything shown so far
    ghost var taken: seq<ClientMsg>

    /** The close flags follow the phase, and the payload flags are the folds of everything taken. */
    ghost predicate Valid()
      reads this
    {
      && (messagesClosed <==> phase == Done)
      && (connectedClosed ==> phase != Registered)
      && (phase == Connected ==> connectedClosed)
      && Flags(gotError, pythonStatus, errorMessage) == Noted(taken)
    }

    constructor (runID: RunId)
      ensures Valid() && this.runID == runID && phase == Registered && taken == [] && messages == [] && effects == []
    {
      this.runID, phase := runID, Registered;
      connectedClosed, messagesClosed, messages := false, false, [];
      gotError, pythonStatus, errorMessage, effects, taken := false, None, None, [], [];
    }

    /** Advance the phase if that is legal; closing a closed Go channel would panic. */
    method TransitionTo(target: Phase) returns (applied: bool)
      requires Valid()
      modifies this`phase, this`connectedClosed, this`messagesClosed
      ensures Valid()
      ensures applied == LegalPhaseTransition(old(phase), target)
      ensures phase == if applied then target else old(phase)
    {
      if !LegalPhaseTransition(phase, target) {
        return false;
      }
      phase := target;
      match target {
        case Connected =>
          assert !connectedClosed;
          connectedClosed := true;
        case Done =>
          assert !messagesClosed;
          messagesClosed := true;
        case Registered =>
      }
      return true;
    }

    /** Send unless the channel is closed; waiting for buffer space is left to `Lifecycle`. */
    method TrySend(msg: Message) returns (ok: bool)
      requires Valid()
      modifies this`messages
      ensures Valid() && ok == (phase != Done)
      ensures messages == old(messages) + if ok then [msg] else []
    {
      if phase == Done {
        return false;
      }
      assert !messagesClosed;
      messages := messages + [msg];
      return true;
    }

    /** The three payload fields: sticky, first write wins, last write wins. */
    method Note(msg: ClientMsg)
      requires Valid()
      modifies this`gotError, this`pythonStatus, this`errorMessage, this`taken
      ensures Valid() && taken == old(taken) + [msg]
    {
      NotedAppend(taken, msg);
      taken := taken + [msg];
      match msg {
        case Report(state) =>
          var status: Option<Status> := None;
          match state {
            case SaysCompleted => status := Some(Completed);
            case SaysFailed => status := Some(Failed);
            case SaysOther(_) => return;
          }
          if pythonStatus.None? {
            pythonStatus := status;
          }
        case Error(message, _, _) =>
          gotError := true;
          errorMessage := Some(message);
        case _ =>
      }
    }

    /** The part of `handleClientMessage` that concerns the channel. */
    method Forward(msg: ClientMsg)
      requires Valid()
      modifies this`messages
      ensures Valid() && messages == old(messages) + if phase == Done then [] else ForwardedOne(msg)
    {
      match msg {
        case Output(text) => var _ := TrySend(OutputMsg(text));
        case Progress(current, total, name) => var _ := TrySend(ProgressMsg(current, total, name));
        case Error(message, traceback, severity) => var _ := TrySend(ErrorMsg(message, traceback, severity));
        case _ =>
      }
    }

    /** Everything one message does to the channel and shows, given its effects elsewhere. */
    method Absorb(msg: ClientMsg, shown: seq<Effect>)
      requires Valid()
      modifies this`messages, this`gotError, this`pythonStatus, this`errorMessage, this`taken, this`effects
      ensures Valid() && taken == old(taken) + [msg]
      ensures messages == old(messages) + if phase == Done then [] else ForwardedOne(msg)
      ensures effects == old(effects) + shown
    {
      Note(msg);
      Forward(msg);
      effects := effects + shown;
    }
  }

  /** `handleCacheCreate` up to its response. */
  method ServeCreate(cache: Cache.CacheManager, runID: RunId, key: string, shm: string, size: int) returns (shown: seq<Effect>)
    requires cache.Valid()
    modifies cache, cache.repr
    ensures cache.Valid() && fresh(cache.repr - old(cache.repr))
    ensures cache.contents == Cache.AfterRegister(old(cache.contents), key, shm, size, runID)
    ensures shown == EffectsOf(old(cache.contents), CacheCreate(key, shm, size), runID)
  {
    var ok := cache.Register(key, shm, size, runID);
    if ok {
      shown := [BlockRegistered(key, shm, size), CacheCreateResponse(key, false)];
    } else {
      shown := [CacheSetRejected(key), CacheCreateResponse(key, true)];
    }
  }

  /** `handleCacheLookup` */
  method ServeLookup(cache: Cache.CacheManager, runID: RunId, key: string) returns (shown: seq<Effect>)
    requires cache.Valid()
    modifies cache, cache.repr
    ensures cache.Valid() && cache.repr == old(cache.repr)
    ensures cache.contents == Cache.AfterLookup(old(cache.contents), key, runID)
    ensures shown == EffectsOf(old(cache.contents), CacheLookup(key), runID)
  {
    var shm, size, found := cache.LookupAndRef(key, runID);
    shown := [CacheLookupResponse(key, found, shm, size)];
  }

  /** `handleCacheRelease` */
  method ServeRelease(cache: Cache.CacheManager, runID: RunId, key: string) returns (shown: seq<Effect>)
    requires cache.Valid()
    modifies cache, cache.repr
    ensures cache.Valid() && cache.repr == old(cache.repr)
    ensures cache.contents == Cache.AfterRelease(old(cache.contents), key, runID)
    ensures shown == EffectsOf(old(cache.contents), CacheRelease(key), runID)
  {
    var released := cache.Release(key, runID);
    shown := [if released then BlockReleased(key) else ReleaseIgnored(key)];
  }

  /** The part of `handleClientMessage` that concerns the cache, with its reports and its answer. */
  method ServeCache(cache: Cache.CacheManager, runID: RunId, msg: ClientMsg) returns (shown: seq<Effect>)
    requires cache.Valid()
    modifies cache, cache.repr
    ensures cache.Valid() && fresh(cache.repr - old(cache.repr))
    ensures cache.contents == CacheAfterOne(old(cache.contents), msg, runID)
    ensures shown == EffectsOf(old(cache.contents), msg, runID)
  {
    match msg {
      case CacheCreate(key, shm, size) => shown := ServeCreate(cache, runID, key, shm, size);
      case CacheLookup(key) => shown := ServeLookup(cache, runID, key);
      case CacheRelease(key) => shown := ServeRelease(cache, runID, key);
      case Request => shown := [OtherResponse];
      case Dialog => shown := [OtherResponse];
      case _ => shown := [];
    }
  }

  class Server {
    var runs: map<RunId, RunChannel>
    const cache: Cache.CacheManager

    constructor (cache: Cache.CacheManager)
      ensures runs == map[] && this.cache == cache
    {
      this.cache, runs := cache, map[];
    }

    /** Channels are filed under their own run, so no two entries share one, and none of those listed is Done. */
    ghost predicate Valid()
      reads this`runs, set id | id in runs :: runs[id]
    {
      forall id :: id in runs ==> runs[id].runID == id && runs[id].Valid() && runs[id].phase != Done
    }

    method RegisterRun(runID: RunId) returns (ch: RunChannel)
      requires Valid()
      modifies this`runs
      ensures Valid() && fresh(ch) && ch.phase == Registered && ch.taken == [] && ch.messages == []
      ensures runs == old(runs)[runID := ch]
    {
      ch := new RunChannel(runID);
      runs := runs[runID := ch];
    }

    method UnregisterRun(runID: RunId)
      requires Valid()
      modifies this`runs, if runID in runs then {runs[runID]} else {}
      ensures Valid() && runs == old(runs) - {runID}
      ensures runID in old(runs) ==>
        && old(runs[runID]).phase == Done && old(runs[runID]).messagesClosed
        && old(runs[runID]).messages == old(runs[runID].messages) && old(runs[runID]).taken == old(runs[runID].taken)
    {
      if runID in runs {
        var _ := runs[runID].TransitionTo(Done);
        runs := runs - {runID};
      }
    }

    /** The single status a reaper sends. */
    method TrySendStatus(runID: RunId, status: Status)
      requires Valid()
      modifies if runID in runs then {runs[runID]} else {}
      ensures Valid()
      ensures runID in runs ==> runs[runID].messages == old(runs[runID].messages) + [StatusMsg(status)]
      ensures runID in runs ==> runs[runID].taken == old(runs[runID].taken)
      ensures runID in runs ==> runs[runID].errorMessage == old(runs[runID].errorMessage)
    {
      if runID in runs {
        var _ := runs[runID].TrySend(StatusMsg(status));
      }
    }

    /**
     The receive loop over everything a client sends before its stream ends; `sends[i]` tells whether a
     response to the i-th message can be sent. It deals with the first `n` messages, and `DealtInFull`
     says what that amounts to.
     */
    method Execute(runID: RunId, inbox: seq<ClientMsg>, sends: seq<bool>) returns (known: bool, n: nat, ok: bool)
      requires Valid() && cache.Valid() && |inbox| <= |sends|
      modifies if runID in runs then {runs[runID]} else {}, cache, cache.repr
      ensures Valid() && cache.Valid() && known == (runID in runs)
      ensures !known ==> cache.contents == old(cache.contents)
      ensures known ==>
        && runs[runID].phase == Connected && Stops(inbox, sends, n, ok)
        && TrailOf(runs[runID]) == Dealt(old(TrailOf(runs[runID])), inbox, n, runID, ok)
    {
      if runID !in runs {
        return false, 0, false;
      }
      var ch := runs[runID];
      var _ := ch.TransitionTo(Connected);
      n, ok := Drain(ch, inbox, sends);
      return true, n, ok;
    }

    ghost function TrailOf(ch: RunChannel): Trail
      reads ch, cache
    {
      Trail(ch.phase != Done, ch.taken, ch.messages, ch.effects, cache.contents)
    }

    /** What is left to do on the channel once the registry has been served. */
    method Acknowledge(ch: RunChannel, msg: ClientMsg, shown: seq<Effect>)
      requires ch.Valid() && cache.Valid()
      modifies ch
      ensures ch.Valid() && ch.phase == old(ch.phase)
      ensures cache.Valid() && cache.repr == old(cache.repr) && cache.contents == old(cache.contents)
      ensures ch.taken == old(ch.taken) + [msg] && ch.effects == old(ch.effects) + shown
      ensures ch.messages == old(ch.messages) + if ch.phase == Done then [] else ForwardedOne(msg)
    {
      ch.Absorb(msg, shown);
      assert unchanged(cache, cache.repr);
    }

    /** False if the response could not be sent. */
    method HandleClientMessage(ch: RunChannel, msg: ClientMsg, canSend: bool) returns (ok: bool)
      requires ch.Valid() && cache.Valid()
      modifies ch, cache, cache.repr
      ensures ch.Valid() && ch.phase == old(ch.phase)
      ensures cache.Valid() && fresh(cache.repr - old(cache.repr))
      ensures ok == (canSend || !Asks(msg))
      ensures TrailOf(ch) == ServedOne(old(TrailOf(ch)), msg, ch.runID, ok)
    {
      var shown := ServeCache(cache, ch.runID, msg);
      ok := canSend || !Asks(msg);
      Acknowledge(ch, msg, Shown(shown, ok));
    }

    /** One turn of the loop. */
    method ServeNext(ch: RunChannel, inbox: seq<ClientMsg>, sends: seq<bool>, n: nat, ghost start: Trail) returns (ok: bool)
      requires ch.Valid() && cache.Valid() && n < |inbox| <= |sends|
      requires TrailOf(ch) == Served(start, inbox[..n], ch.runID)
      modifies ch, cache, cache.repr
      ensures ch.Valid() && ch.phase == old(ch.phase)
      ensures cache.Valid() && fresh(cache.repr - old(cache.repr))
      ensures ok == !FailsAt(inbox, sends, n)
      ensures TrailOf(ch) == Dealt(start, inbox, n + 1, ch.runID, ok)
    {
      ServedStep(start, inbox, n, ch.runID);
      ok := HandleClientMessage(ch, inbox[n], sends[n]);
    }

    method Drain(ch: RunChannel, inbox: seq<ClientMsg>, sends: seq<bool>) returns (n: nat, ok: bool)
      requires ch.Valid() && cache.Valid() && |inbox| <= |sends|
      modifies ch, cache, cache.repr
      ensures ch.Valid() && ch.phase == old(ch.phase) && cache.Valid()
      ensures Stops(inbox, sends, n, ok)
      ensures TrailOf(ch) == Dealt(old(TrailOf(ch)), inbox, n, ch.runID, ok)
    {
      ghost var start := TrailOf(ch);
      n := 0;
      while n < |inbox|
        invariant 0 <= n <= |inbox| && AllAnswered(inbox, sends, n)
        invariant ch.Valid() && ch.phase == old(ch.phase)
        invariant cache.Valid() && fresh(cache.repr - old(cache.repr))
        invariant TrailOf(ch) == Served(start, inbox[..n], ch.runID)
      {
        ok := ServeNext(ch, inbox, sends, n, start);
        n := n + 1;
        if !ok {
          return n, false;
        }
      }
      return n, true;
    }
  }
}
