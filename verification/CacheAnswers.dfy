/**
 What clients are told about the shared-memory registry, read off what was served before: who holds a
 key, which create gave it its segment, and so what every lookup, create and release is answered.
 */
module CacheAnswers {
  import opened Ids
  import opened Wrappers
  import opened Lifecycle
  import opened GrpcServer
  import Cache
  import LifecycleResults
  import LifecycleTheorems

  /** One access to the registry: a message of some run is served, or a run is cleaned up. */
  datatype Deed = Serve(run: RunId, msg: ClientMsg) | Cleanup(run: RunId)

  /** The registry after these deeds, of however many runs in whatever order. */
  function CacheOf(deeds: seq<Deed>): Cache.Registry {
    if deeds == [] then Cache.EMPTY else AfterDeed(CacheOf(deeds[..|deeds| - 1]), deeds[|deeds| - 1])
  }

  function AfterDeed(cache: Cache.Registry, deed: Deed): Cache.Registry {
    match deed
    case Serve(run, msg) => CacheAfterOne(cache, msg, run)
    case Cleanup(run) => Cache.AfterCleanup(cache, run)
  }

  // ----- Read off the deeds -----

  predicate Creates(deed: Deed, key: string) {
    deed.Serve? && deed.msg.CacheCreate? && deed.msg.key == key
  }

  predicate LooksUp(deed: Deed, key: string) {
    deed.Serve? && deed.msg.CacheLookup? && deed.msg.key == key
  }

  /** The deed takes the run off the key. */
  predicate LetsGo(deed: Deed, run: RunId, key: string) {
    deed.run == run && (deed.Cleanup? || (deed.msg.CacheRelease? && deed.msg.key == key))
  }

  /** The run got hold of the key, by creating it while nobody held it or looking it up while somebody did, and has not let go. */
  ghost predicate Holds(deeds: seq<Deed>, run: RunId, key: string)
    decreases |deeds|, 0
  {
    if deeds == [] then false
    else
      var before, last := deeds[..|deeds| - 1], deeds[|deeds| - 1];
      if LetsGo(last, run, key) then false
      else if last.run == run && Creates(last, key) then Holds(before, run, key) || !Taken(before, key)
      else if last.run == run && LooksUp(last, key) then Taken(before, key)
      else Holds(before, run, key)
  }

  /** Somebody holds the key. */
  ghost predicate Taken(deeds: seq<Deed>, key: string)
    decreases |deeds|, 1
  {
    exists run :: Holds(deeds, run, key)
  }

  /** The create at `i` took effect, and the key has been held ever since. */
  ghost predicate Current(deeds: seq<Deed>, i: nat, key: string) {
    && i < |deeds| && Creates(deeds[i], key) && !Taken(deeds[..i], key)
    && forall j :: i < j <= |deeds| ==> Taken(deeds[..j], key)
  }

  // ----- The registry is what the deeds say -----

  lemma DeedIsSound(cache: Cache.Registry, deed: Deed)
    requires Cache.Sound(cache)
    ensures Cache.Sound(AfterDeed(cache, deed))
  {
    match deed
    case Cleanup(run) => Cache.CleanupForgetsRun(cache, run);
    case Serve(run, msg) =>
      match msg
      case CacheCreate(key, shm, size) => Cache.RegisterIsSound(cache, key, shm, size, run);
      case CacheLookup(key) => Cache.LookupIsSound(cache, key, run);
      case CacheRelease(key) => Cache.ReleaseIsSound(cache, key, run);
      case _ =>
  }

  lemma {:induction false} AlwaysSound(deeds: seq<Deed>)
    ensures Cache.Sound(CacheOf(deeds))
  {
    if deeds != [] {
      AlwaysSound(deeds[..|deeds| - 1]);
      DeedIsSound(CacheOf(deeds[..|deeds| - 1]), deeds[|deeds| - 1]);
    }
  }

  /** What one deed does to one run's hold on one key. */
  lemma DeedOnHolder(cache: Cache.Registry, deed: Deed, run: RunId, key: string)
    requires Cache.Sound(cache)
    ensures Cache.Held(AfterDeed(cache, deed), key, run) <==>
              if LetsGo(deed, run, key) then false
              else if deed.run == run && Creates(deed, key) then Cache.Held(cache, key, run) || key !in cache.blocks
              else if deed.run == run && LooksUp(deed, key) then key in cache.blocks
              else Cache.Held(cache, key, run)
  {
    match deed
    case Cleanup(who) => Cache.CleanupForgetsRun(cache, who);
    case Serve(who, msg) =>
      match msg
      case CacheLookup(k) => Cache.LookupAddsOneMembership(cache, k, who);
      case CacheRelease(k) => Cache.ReleaseRemovesOneMembership(cache, k, who);
      case _ =>
  }

  lemma {:induction false} HeldAsDeedsSay(deeds: seq<Deed>, run: RunId, key: string)
    ensures Cache.Held(CacheOf(deeds), key, run) <==> Holds(deeds, run, key)
    decreases |deeds|, 0
  {
    if deeds != [] {
      var before := deeds[..|deeds| - 1];
      HeldAsDeedsSay(before, run, key);
      TakenAsDeedsSay(before, key);
      AlwaysSound(before);
      DeedOnHolder(CacheOf(before), deeds[|deeds| - 1], run, key);
    }
  }

  lemma {:induction false} TakenAsDeedsSay(deeds: seq<Deed>, key: string)
    ensures key in CacheOf(deeds).blocks <==> Taken(deeds, key)
    decreases |deeds|, 1
  {
    AlwaysSound(deeds);
    LifecycleResults.PresentIffHeld(CacheOf(deeds), key);
    forall run ensures Cache.Held(CacheOf(deeds), key, run) <==> Holds(deeds, run, key) {
      HeldAsDeedsSay(deeds, run, key);
    }
  }

  /** A block that stays keeps its segment; a block that comes has that of the create. */
  lemma DeedOnBlock(cache: Cache.Registry, deed: Deed, key: string)
    requires Cache.Sound(cache) && key in AfterDeed(cache, deed).blocks
    ensures var block := AfterDeed(cache, deed).blocks[key];
      if key in cache.blocks then
        block.shm == cache.blocks[key].shm && block.size == cache.blocks[key].size && block.owner == cache.blocks[key].owner
      else
        && Creates(deed, key)
        && block.shm == deed.msg.shm && block.size == deed.msg.size && block.owner == deed.run
  {}

  /** The block is the one of this create. */
  predicate IsOf(cache: Cache.Registry, key: string, deed: Deed)
    requires Creates(deed, key)
  {
    && key in cache.blocks
    && cache.blocks[key].shm == deed.msg.shm && cache.blocks[key].size == deed.msg.size
    && cache.blocks[key].owner == deed.run
  }

  lemma CurrentStays(deeds: seq<Deed>, i: nat, last: Deed, key: string)
    requires Current(deeds, i, key) && Taken(deeds + [last], key)
    ensures Current(deeds + [last], i, key)
  {
    var all := deeds + [last];
    assert all[..i] == deeds[..i];
    forall j | i < j <= |all| ensures Taken(all[..j], key) {
      if j <= |deeds| {
        assert all[..j] == deeds[..j];
      } else {
        assert all[..j] == all;
      }
    }
  }

  lemma NewIsCurrent(deeds: seq<Deed>, last: Deed, key: string)
    requires Creates(last, key) && !Taken(deeds, key) && Taken(deeds + [last], key)
    ensures Current(deeds + [last], |deeds|, key)
  {
    var all := deeds + [last];
    assert all[..|deeds|] == deeds && all[..|all|] == all;
  }

  /** A held key has the segment, size and owner of the create that took effect when nobody held it. */
  lemma {:induction false} BlockIsTheCurrentOne(deeds: seq<Deed>, key: string) returns (i: nat)
    requires Taken(deeds, key)
    ensures Current(deeds, i, key) && IsOf(CacheOf(deeds), key, deeds[i])
  {
    assert deeds != [];
    var before, last := deeds[..|deeds| - 1], deeds[|deeds| - 1];
    assert deeds == before + [last];
    TakenAsDeedsSay(deeds, key);
    TakenAsDeedsSay(before, key);
    AlwaysSound(before);
    DeedOnBlock(CacheOf(before), last, key);
    if Taken(before, key) {
      i := BlockIsTheCurrentOne(before, key);
      CurrentStays(before, i, last, key);
    } else {
      i := |before|;
      NewIsCurrent(before, last, key);
    }
  }

  lemma LaterIsNotCurrent(deeds: seq<Deed>, i: nat, j: nat, key: string)
    requires Current(deeds, i, key) && i < j
    ensures !Current(deeds, j, key)
  {
    if j < |deeds| {
      assert Taken(deeds[..j], key);
    }
  }

  /** There is one such create at most. */
  lemma CurrentIsUnique(deeds: seq<Deed>, i: nat, j: nat, key: string)
    requires Current(deeds, i, key) && Current(deeds, j, key)
    ensures i == j
  {
    if i < j {
      LaterIsNotCurrent(deeds, i, j, key);
    } else if j < i {
      LaterIsNotCurrent(deeds, j, i, key);
    }
  }

  // ----- What is answered -----

  /** What serving this message now shows to its client and in the log. */
  function Answer(deeds: seq<Deed>, run: RunId, msg: ClientMsg): seq<Effect> {
    EffectsOf(CacheOf(deeds), msg, run)
  }

  /**
   A lookup is answered with the segment and size of the one create that last took effect under the
   key, exactly if somebody holds it still; otherwise it is answered "not found".
   */
  lemma LookupIsAnswered(deeds: seq<Deed>, run: RunId, key: string)
    ensures Taken(deeds, key) ==> exists i ::
              && 0 <= i && Current(deeds, i, key)
              && Answer(deeds, run, CacheLookup(key)) == [CacheLookupResponse(key, true, deeds[i].msg.shm, deeds[i].msg.size)]
    ensures !Taken(deeds, key) ==> Answer(deeds, run, CacheLookup(key)) == [CacheLookupResponse(key, false, "", 0)]
  {
    TakenAsDeedsSay(deeds, key);
    if Taken(deeds, key) {
      var i := BlockIsTheCurrentOne(deeds, key);
    }
  }

  /** Whichever run asks, and whichever create is current: the answer is that one's. */
  lemma LookupFindsTheCurrentOne(deeds: seq<Deed>, i: nat, run: RunId, key: string)
    requires Current(deeds, i, key)
    ensures Answer(deeds, run, CacheLookup(key)) == [CacheLookupResponse(key, true, deeds[i].msg.shm, deeds[i].msg.size)]
  {
    assert deeds[..|deeds|] == deeds;
    LookupIsAnswered(deeds, run, key);
    var j :| 0 <= j && Current(deeds, j, key)
      && Answer(deeds, run, CacheLookup(key)) == [CacheLookupResponse(key, true, deeds[j].msg.shm, deeds[j].msg.size)];
    CurrentIsUnique(deeds, i, j, key);
  }

  /** A create is rejected as a duplicate exactly if somebody holds the key; if not, its segment is now current. */
  lemma CreateIsAnswered(deeds: seq<Deed>, run: RunId, key: string, shm: string, size: int)
    ensures var create := CacheCreate(key, shm, size);
      if Taken(deeds, key)
      then Answer(deeds, run, create) == [CacheSetRejected(key), CacheCreateResponse(key, true)]
      else
        && Answer(deeds, run, create) == [BlockRegistered(key, shm, size), CacheCreateResponse(key, false)]
        && Holds(deeds + [Serve(run, create)], run, key)
        && Current(deeds + [Serve(run, create)], |deeds|, key)
  {
    TakenAsDeedsSay(deeds, key);
    if !Taken(deeds, key) {
      var deed := Serve(run, CacheCreate(key, shm, size));
      assert (deeds + [deed])[..|deeds|] == deeds;
      assert Holds(deeds + [deed], run, key);
      NewIsCurrent(deeds, deed, key);
    }
  }

  /** A release is honoured exactly if the run holds the key. */
  lemma ReleaseIsAnswered(deeds: seq<Deed>, run: RunId, key: string)
    ensures Answer(deeds, run, CacheRelease(key)) == [if Holds(deeds, run, key) then BlockReleased(key) else ReleaseIgnored(key)]
  {
    HeldAsDeedsSay(deeds, run, key);
  }

  // ----- From a create to a later lookup -----

  /** The run does not let go of the key in any of these deeds. */
  predicate Keeps(deeds: seq<Deed>, run: RunId, key: string) {
    forall i :: 0 <= i < |deeds| ==> !LetsGo(deeds[i], run, key)
  }

  lemma HoldsOn(deeds: seq<Deed>, last: Deed, run: RunId, key: string)
    requires Holds(deeds, run, key) && !LetsGo(last, run, key)
    ensures Holds(deeds + [last], run, key)
  {
    assert (deeds + [last])[..|deeds|] == deeds;
    assert Taken(deeds, key);
  }

  lemma {:induction false} StaysCurrent(deeds: seq<Deed>, between: seq<Deed>, i: nat, run: RunId, key: string)
    requires Current(deeds, i, key) && Holds(deeds, run, key) && Keeps(between, run, key)
    ensures Current(deeds + between, i, key) && Holds(deeds + between, run, key)
    decreases |between|
  {
    if between == [] {
      assert deeds + between == deeds;
    } else {
      var before, last := between[..|between| - 1], between[|between| - 1];
      assert forall k :: 0 <= k < |before| ==> before[k] == between[k];
      StaysCurrent(deeds, before, i, run, key);
      assert deeds + between == deeds + before + [last];
      HoldsOn(deeds + before, last, run, key);
      assert Taken(deeds + between, key);
      CurrentStays(deeds + before, i, last, key);
    }
  }

  /**
   A run creates a free key and does not let go of it: whatever all the runs do meanwhile, every lookup
   by anybody is answered with the segment and size that were registered.
   */
  lemma CreateThenLookup(deeds: seq<Deed>, creator: RunId, key: string, shm: string, size: int, between: seq<Deed>, run: RunId)
    requires !Taken(deeds, key) && Keeps(between, creator, key)
    ensures Answer(deeds + [Serve(creator, CacheCreate(key, shm, size))] + between, run, CacheLookup(key))
         == [CacheLookupResponse(key, true, shm, size)]
  {
    var created := deeds + [Serve(creator, CacheCreate(key, shm, size))];
    CreateIsAnswered(deeds, creator, key, shm, size);
    StaysCurrent(created, between, |deeds|, creator, key);
    LookupFindsTheCurrentOne(created + between, |deeds|, run, key);
  }

  // ----- In every interleaving -----

  /** The accesses to the registry that these events amount to, in their order. */
  function DeedsOf(events: seq<Event>): seq<Deed> {
    if events == [] then []
    else DeedsOf(events[..|events| - 1]) + DeedOf(events[..|events| - 1], events[|events| - 1])
  }

  function DeedOf(before: seq<Event>, last: Event): seq<Deed> {
    var msg := LifecycleResults.Dispatched(before, last);
    if msg.Some? then [Serve(last.run, msg.value)]
    else if LifecycleResults.CleansUp(before, last) then [Cleanup(last.run)]
    else []
  }

  lemma DeedOfEvent(state: State, before: seq<Event>, last: Event)
    requires Replay(before) == Some(state) && CanStep(state, last.run, last.action)
    ensures var deeds := DeedOf(before, last);
      && |deeds| <= 1
      && Next(state, last.run, last.action).cache == if deeds == [] then state.cache else AfterDeed(state.cache, deeds[0])
  {}

  /** In every reachable state the registry is what the accesses so far say, so all of the above holds of its answers. */
  lemma {:induction false} RegistryIsTheDeeds(events: seq<Event>)
    requires Replay(events).Some?
    ensures Replay(events).value.cache == CacheOf(DeedsOf(events))
  {
    if events != [] {
      var before, last := events[..|events| - 1], events[|events| - 1];
      RegistryIsTheDeeds(before);
      DeedOfEvent(Replay(before).value, before, last);
      var deeds := DeedOf(before, last);
      if deeds == [] {
        assert DeedsOf(before) + [] == DeedsOf(before);
      } else {
        assert (DeedsOf(before) + deeds)[..|DeedsOf(before)|] == DeedsOf(before);
        assert deeds == [deeds[0]];
      }
    }
  }
}
