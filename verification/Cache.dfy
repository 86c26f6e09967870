/**
 The shared-memory registry (`CacheManager`). The first half is the specification: the registry
 as a map from key to (segment, size, owner, set of runs) with a log of created and unlinked
 segments, and the laws of its four operations. The second half is the manager as Go writes it,
 editing `Refs` slices in place, proved against that specification.
 */
module Cache {
  import opened Ids

  /** The abstract value of a `CacheBlock`; `serial` tells apart two blocks of one key. */
  datatype Entry = Entry(serial: nat, shm: string, size: int, owner: RunId, refs: set<RunId>)

  /** The fate of one created block: the names passed to `unlinkShm` on its behalf. */
  datatype Birth = Birth(key: string, shm: string, unlinked: seq<string>)

  datatype Registry = Registry(blocks: map<string, Entry>, log: seq<Birth>)

  const EMPTY := Registry(map[], [])

  function Unlinked(birth: Birth): Birth {
    birth.(unlinked := birth.unlinked + [birth.shm])
  }

  predicate Live(reg: Registry, serial: nat) {
    && serial < |reg.log|
    && reg.log[serial].key in reg.blocks
    && reg.blocks[reg.log[serial].key].serial == serial
  }

  predicate EntryOk(reg: Registry, key: string)
    requires key in reg.blocks
  {
    var entry := reg.blocks[key];
    entry.refs != {} && entry.serial < |reg.log| && reg.log[entry.serial] == Birth(key, entry.shm, [])
  }

  /**
   The invariant: every block is referenced by some run, and every block ever created is live and
   never unlinked, or gone and unlinked exactly once under its own name.
   */
  ghost predicate Sound(reg: Registry) {
    && (forall key :: key in reg.blocks ==> EntryOk(reg, key))
    && (forall i :: 0 <= i < |reg.log| ==>
                      reg.log[i].unlinked == (if Live(reg, i) then [] else [reg.log[i].shm]))
  }

  function AfterRegister(reg: Registry, key: string, shm: string, size: int, run: RunId): Registry {
    if key in reg.blocks then reg
    else Registry(reg.blocks[key := Entry(|reg.log|, shm, size, run, {run})], reg.log + [Birth(key, shm, [])])
  }

  function WithRef(entry: Entry, run: RunId): Entry {
    entry.(refs := entry.refs + {run})
  }

  function WithoutRef(entry: Entry, run: RunId): Entry {
    entry.(refs := entry.refs - {run})
  }

  function AfterLookup(reg: Registry, key: string, run: RunId): Registry {
    if key !in reg.blocks then reg
    else reg.(blocks := reg.blocks[key := WithRef(reg.blocks[key], run)])
  }

  predicate Held(reg: Registry, key: string, run: RunId) {
    key in reg.blocks && run in reg.blocks[key].refs
  }

  /** `run` is the only run holding the block under `key`. */
  predicate OnlyHolder(reg: Registry, key: string, run: RunId) {
    key in reg.blocks && reg.blocks[key].refs == {run}
  }

  /** `unlinkShm` for the block with this serial. */
  function AfterUnlink(log: seq<Birth>, serial: nat): seq<Birth> {
    if serial < |log| then log[serial := Unlinked(log[serial])] else log
  }

  function AfterRelease(reg: Registry, key: string, run: RunId): Registry {
    if !Held(reg, key, run) then reg
    else if OnlyHolder(reg, key, run) then
      Registry(reg.blocks - {key}, AfterUnlink(reg.log, reg.blocks[key].serial))
    else reg.(blocks := reg.blocks[key := WithoutRef(reg.blocks[key], run)])
  }

  /** What is left once the blocks under `keys` have been rid of `run`. */
  function Cleaned(reg: Registry, keys: set<string>, run: RunId): Registry {
    Registry(
      map key | key in reg.blocks && !(key in keys && OnlyHolder(reg, key, run)) ::
        if key in keys then WithoutRef(reg.blocks[key], run) else reg.blocks[key],
      seq(|reg.log|, i requires 0 <= i < |reg.log| =>
        var birth := reg.log[i];
        if Live(reg, i) && birth.key in keys && OnlyHolder(reg, birth.key, run) then Unlinked(birth) else birth))
  }

  function AfterCleanup(reg: Registry, run: RunId): Registry {
    Cleaned(reg, reg.blocks.Keys, run)
  }

  lemma RegisterIsSound(reg: Registry, key: string, shm: string, size: int, run: RunId)
    requires Sound(reg)
    ensures Sound(AfterRegister(reg, key, shm, size, run))
  {
    var after := AfterRegister(reg, key, shm, size, run);
    if key !in reg.blocks {
      forall k | k in after.blocks ensures EntryOk(after, k) {
        assert k != key ==> EntryOk(reg, k);
      }
      forall i | 0 <= i < |reg.log| ensures Live(after, i) == Live(reg, i) {}
    }
  }

  lemma LookupIsSound(reg: Registry, key: string, run: RunId)
    requires Sound(reg)
    ensures Sound(AfterLookup(reg, key, run))
  {
    var after := AfterLookup(reg, key, run);
    if key in reg.blocks {
      assert run in after.blocks[key].refs;
      forall k | k in after.blocks ensures EntryOk(after, k) {
        assert EntryOk(reg, k);
      }
      forall i | 0 <= i < |reg.log| ensures Live(after, i) == Live(reg, i) {}
    }
  }

  lemma ReleaseIsSound(reg: Registry, key: string, run: RunId)
    requires Sound(reg)
    ensures Sound(AfterRelease(reg, key, run))
  {
    var after := AfterRelease(reg, key, run);
    if Held(reg, key, run) {
      assert EntryOk(reg, key);
      var serial := reg.blocks[key].serial;
      if OnlyHolder(reg, key, run) {
        assert Live(reg, serial);
        forall k | k in after.blocks ensures EntryOk(after, k) {
          assert EntryOk(reg, k);
        }
        forall i | 0 <= i < |reg.log| ensures Live(after, i) == (Live(reg, i) && i != serial) {}
      } else {
        var other :| other in reg.blocks[key].refs && other != run;
        assert other in after.blocks[key].refs;
        forall k | k in after.blocks ensures EntryOk(after, k) {
          assert EntryOk(reg, k);
        }
        forall i | 0 <= i < |reg.log| ensures Live(after, i) == Live(reg, i) {}
      }
    }
  }

  /** `Release` takes away one membership and no other, and the block exactly when its set empties. */
  lemma ReleaseRemovesOneMembership(reg: Registry, key: string, run: RunId)
    requires Sound(reg)
    ensures forall k, r :: Held(AfterRelease(reg, key, run), k, r) <==> Held(reg, k, r) && !(k == key && r == run)
    ensures forall k :: k in AfterRelease(reg, key, run).blocks <==> k in reg.blocks && !(k == key && OnlyHolder(reg, key, run))
  {
    if Held(reg, key, run) && !OnlyHolder(reg, key, run) {
      var after := AfterRelease(reg, key, run);
      assert after.blocks[key].refs == reg.blocks[key].refs - {run};
    }
  }

  /** A lookup of a block adds the caller as a holder, and nothing else; of a missing key, nothing at all. */
  lemma LookupAddsOneMembership(reg: Registry, key: string, run: RunId)
    ensures forall k, r ::
              Held(AfterLookup(reg, key, run), k, r) <==> Held(reg, k, r) || (k == key && r == run && key in reg.blocks)
    ensures AfterLookup(reg, key, run).log == reg.log
    ensures AfterLookup(AfterLookup(reg, key, run), key, run) == AfterLookup(reg, key, run)
  {
    if key in reg.blocks {
      var once := AfterLookup(reg, key, run);
      assert WithRef(once.blocks[key], run) == once.blocks[key];
      assert once.blocks[key := once.blocks[key]] == once.blocks;
    }
  }

  lemma CleanedOneMoreBlock(reg: Registry, keys: set<string>, key: string, run: RunId, k: string)
    requires Sound(reg) && key !in keys && key in reg.blocks
    requires Sound(Cleaned(reg, keys, run))
    ensures var more, after := Cleaned(reg, keys + {key}, run), AfterRelease(Cleaned(reg, keys, run), key, run);
      (k in more.blocks <==> k in after.blocks) && (k in more.blocks ==> more.blocks[k] == after.blocks[k])
  {
    assert Cleaned(reg, keys, run).blocks[key] == reg.blocks[key];
    if !Held(reg, key, run) {
      assert reg.blocks[key].refs - {run} == reg.blocks[key].refs;
    }
  }

  lemma CleanedOneMoreBirth(reg: Registry, keys: set<string>, key: string, run: RunId, i: nat)
    requires Sound(reg) && key !in keys && key in reg.blocks && i < |reg.log|
    requires Sound(Cleaned(reg, keys, run))
    ensures Cleaned(reg, keys + {key}, run).log[i] == AfterRelease(Cleaned(reg, keys, run), key, run).log[i]
  {
    var some := Cleaned(reg, keys, run);
    assert some.blocks[key] == reg.blocks[key];
    assert EntryOk(reg, key);
    if Live(reg, i) {
      assert reg.log[i].key == key <==> i == reg.blocks[key].serial;
    }
  }

  /** Taking one more key into a cleanup is one `Release`, whatever the order. */
  lemma CleanedOneMore(reg: Registry, keys: set<string>, key: string, run: RunId)
    requires Sound(reg) && key !in keys && key in reg.blocks
    requires Sound(Cleaned(reg, keys, run))
    ensures Cleaned(reg, keys + {key}, run) == AfterRelease(Cleaned(reg, keys, run), key, run)
  {
    var more, after := Cleaned(reg, keys + {key}, run), AfterRelease(Cleaned(reg, keys, run), key, run);
    forall k
      ensures (k in more.blocks <==> k in after.blocks) && (k in more.blocks ==> more.blocks[k] == after.blocks[k])
    {
      CleanedOneMoreBlock(reg, keys, key, run, k);
    }
    assert more.blocks == after.blocks;
    forall i | 0 <= i < |reg.log| ensures more.log[i] == after.log[i] {
      CleanedOneMoreBirth(reg, keys, key, run, i);
    }
    assert more.log == after.log;
  }

  lemma CleanedNothing(reg: Registry, run: RunId)
    ensures Cleaned(reg, {}, run) == reg
  {
    assert Cleaned(reg, {}, run).blocks == reg.blocks;
    assert Cleaned(reg, {}, run).log == reg.log;
  }

  /** A cleanup of `was` that still has `pending` before it and stands at `now`. */
  ghost predicate UnderWay(was: Registry, pending: set<string>, now: Registry, run: RunId) {
    && pending <= was.blocks.Keys
    && now == Cleaned(was, was.blocks.Keys - pending, run)
  }

  lemma UnderWayStep(was: Registry, pending: set<string>, key: string, now: Registry, run: RunId)
    requires Sound(was) && Sound(now) && UnderWay(was, pending, now, run) && key in pending
    ensures UnderWay(was, pending - {key}, AfterRelease(now, key, run), run)
  {
    CleanedOneMore(was, was.blocks.Keys - pending, key, run);
    assert was.blocks.Keys - (pending - {key}) == was.blocks.Keys - pending + {key};
  }

  lemma UnderWayAtStart(was: Registry, run: RunId)
    ensures UnderWay(was, was.blocks.Keys, was, run)
  {
    assert was.blocks.Keys - was.blocks.Keys == {};
    CleanedNothing(was, run);
  }

  lemma UnderWayAtEnd(was: Registry, now: Registry, run: RunId)
    requires UnderWay(was, {}, now, run)
    ensures now == AfterCleanup(was, run)
  {
    assert was.blocks.Keys - {} == was.blocks.Keys;
  }

  lemma {:induction false} CleanedIsSound(reg: Registry, keys: set<string>, run: RunId)
    requires Sound(reg) && keys <= reg.blocks.Keys
    ensures Sound(Cleaned(reg, keys, run))
    decreases |keys|
  {
    if keys == {} {
      CleanedNothing(reg, run);
    } else {
      var key :| key in keys;
      CleanedIsSound(reg, keys - {key}, run);
      CleanedOneMore(reg, keys - {key}, key, run);
      assert keys - {key} + {key} == keys;
      ReleaseIsSound(Cleaned(reg, keys - {key}, run), key, run);
    }
  }

  /** `CleanupRun` removes exactly `run`'s memberships and drops exactly the blocks only it held. */
  lemma CleanupForgetsRun(reg: Registry, run: RunId)
    requires Sound(reg)
    ensures Sound(AfterCleanup(reg, run))
    ensures forall key :: key in AfterCleanup(reg, run).blocks <==> key in reg.blocks && reg.blocks[key].refs != {run}
    ensures forall key, r :: Held(AfterCleanup(reg, run), key, r) <==> Held(reg, key, r) && r != run
  {
    CleanedIsSound(reg, reg.blocks.Keys, run);
  }

  /** Cleaning up twice is cleaning up once. */
  lemma CleanupIsIdempotent(reg: Registry, run: RunId)
    requires Sound(reg)
    ensures AfterCleanup(AfterCleanup(reg, run), run) == AfterCleanup(reg, run)
  {
    var once := AfterCleanup(reg, run);
    var twice := AfterCleanup(once, run);
    CleanupForgetsRun(reg, run);
    forall key | key in once.blocks ensures key in twice.blocks && twice.blocks[key] == once.blocks[key] {
      assert EntryOk(once, key) && !Held(once, key, run);
      assert once.blocks[key].refs - {run} == once.blocks[key].refs;
    }
    assert twice.blocks == once.blocks;
    assert twice.log == once.log;
  }

  /** Once the registry is empty, every block ever registered has been unlinked, once. */
  lemma EmptyMeansAllUnlinked(reg: Registry)
    requires Sound(reg) && reg.blocks == map[]
    ensures forall i :: 0 <= i < |reg.log| ==> reg.log[i].unlinked == [reg.log[i].shm]
  {
    forall i | 0 <= i < |reg.log| ensures !Live(reg, i) {}
  }

  lemma EveryBlockIsHeld(reg: Registry, key: string)
    requires Sound(reg) && key in reg.blocks
    ensures exists run :: Held(reg, key, run)
  {
    assert EntryOk(reg, key);
    var run :| run in reg.blocks[key].refs;
    assert Held(reg, key, run);
  }

  lemma EmptyIffUnheld(reg: Registry)
    requires Sound(reg)
    ensures reg.blocks == map[] <==> forall key, run :: !Held(reg, key, run)
  {
    if key :| key in reg.blocks {
      EveryBlockIsHeld(reg, key);
    }
  }

  /** The registry is empty exactly if every block ever registered has been unlinked, once. */
  lemma EmptyIffAllUnlinked(reg: Registry)
    requires Sound(reg)
    ensures reg.blocks == map[] <==> forall i :: 0 <= i < |reg.log| ==> reg.log[i].unlinked == [reg.log[i].shm]
  {
    if reg.blocks == map[] {
      EmptyMeansAllUnlinked(reg);
    }
    if key :| key in reg.blocks {
      assert EntryOk(reg, key);
      assert reg.log[reg.blocks[key].serial].unlinked == [];
    }
  }

  // ----- The manager -----

  ghost predicate NoDuplicates(refs: seq<RunId>) {
    forall i, j :: 0 <= i < j < |refs| ==> refs[i] != refs[j]
  }

  function Members(refs: seq<RunId>): set<RunId> {
    set run | run in refs
  }

  class CacheBlock {
    const key: string
    const shmName: string
    const size: int
    const ownerRun: RunId
    ghost const serial: nat
    var refs: seq<RunId>

    constructor (key: string, shmName: string, size: int, ownerRun: RunId, ghost serial: nat)
      ensures this.key == key && this.shmName == shmName && this.size == size && this.ownerRun == ownerRun
      ensures this.serial == serial && refs == [ownerRun]
    {
      this.key, this.shmName, this.size, this.ownerRun := key, shmName, size, ownerRun;
      this.serial := serial;
      refs := [ownerRun];
    }

    ghost function Value(): Entry
      reads this
    {
      Entry(serial, shmName, size, ownerRun, Members(refs))
    }

    /** The search-then-append of `LookupAndRef`. */
    method AddRef(runID: RunId)
      requires NoDuplicates(refs)
      modifies this`refs
      ensures NoDuplicates(refs) && Members(refs) == Members(old(refs)) + {runID}
    {
      var i := 0;
      while i < |refs|
        invariant 0 <= i <= |refs|
        invariant runID !in refs[..i]
      {
        if refs[i] == runID {
          return;
        }
        i := i + 1;
      }
      refs := refs + [runID];
    }

    /** The removal loop that `Release` and `CleanupRun` both run: splice out the first match. */
    method DropRef(runID: RunId) returns (found: bool)
      requires NoDuplicates(refs)
      modifies this`refs
      ensures found == (runID in old(refs))
      ensures NoDuplicates(refs) && Members(refs) == Members(old(refs)) - {runID}
    {
      found := false;
      var i := 0;
      while i < |refs|
        invariant 0 <= i <= |refs| && refs == old(refs)
        invariant !found && runID !in refs[..i]
      {
        if refs[i] == runID {
          refs := refs[..i] + refs[i + 1..];
          found := true;
          break;
        }
        i := i + 1;
      }
      if found {
        ghost var was := old(refs);
        assert was == was[..i] + [runID] + was[i + 1..];
        assert forall run :: run in was[..i] + was[i + 1..] <==> run in was && run != runID;
      }
    }
  }

  /** The release as the code computes it: drop the reference, then look whether any is left. */
  function Stripped(view: map<string, Entry>, key: string, run: RunId): map<string, Entry>
    requires key in view
  {
    var rest := WithoutRef(view[key], run);
    if rest.refs == {} then view - {key} else view[key := rest]
  }

  function StrippedLog(reg: Registry, key: string, run: RunId): seq<Birth>
    requires key in reg.blocks
  {
    if WithoutRef(reg.blocks[key], run).refs == {} then AfterUnlink(reg.log, reg.blocks[key].serial) else reg.log
  }

  lemma ReleaseStepwise(reg: Registry, key: string, run: RunId)
    requires Sound(reg) && key in reg.blocks
    ensures AfterRelease(reg, key, run).blocks == Stripped(reg.blocks, key, run)
    ensures AfterRelease(reg, key, run).log == StrippedLog(reg, key, run) && EntryOk(reg, key)
  {
    assert EntryOk(reg, key);
    var refs := reg.blocks[key].refs;
    if run !in refs {
      assert refs - {run} == refs;
      assert reg.blocks[key := reg.blocks[key]] == reg.blocks;
    } else if refs != {run} {
      var other :| other in refs && other != run;
      assert other in refs - {run};
    }
  }

  class CacheManager {
    var blocks: map<string, CacheBlock>
    ghost var births: seq<Birth>      // what was really created and unlinked
    ghost var contents: Registry     // the abstract value
    ghost var repr: set<CacheBlock>  // every block allocated so far

    ghost predicate Valid()
      reads this, repr
    {
      Matches(contents.blocks) && Sound(contents) && births == contents.log
    }

    /** The heap holds exactly the entries of `view`; blocks know their key, so none is shared. */
    ghost predicate Matches(view: map<string, Entry>)
      reads this`blocks, this`repr, repr
    {
      && view.Keys == blocks.Keys
      && (forall key :: key in blocks ==> Holds(view, key))
    }

    ghost predicate Holds(view: map<string, Entry>, key: string)
      requires key in blocks
      reads this`blocks, this`repr, repr
    {
      var block := blocks[key];
      block in repr && block.key == key && key in view && view[key] == block.Value() && NoDuplicates(block.refs)
    }

    constructor ()
      ensures Valid() && contents == EMPTY && repr == {}
    {
      blocks, births, contents, repr := map[], [], EMPTY, {};
    }

    /** Put a new block under `key`. */
    method Install(key: string, block: CacheBlock, ghost next: Registry)
      requires Matches(contents.blocks) && block !in repr && block.key == key && NoDuplicates(block.refs)
      requires next.blocks == contents.blocks[key := block.Value()]
      modifies this
      ensures contents == next && Matches(contents.blocks) && repr == old(repr) + {block}
      ensures births == old(births) + [Birth(key, block.shmName, [])]
    {
      contents := next;
      births := births + [Birth(key, block.shmName, [])];
      blocks, repr := blocks[key := block], repr + {block};
    }

    method Register(key: string, shmName: string, size: int, ownerRunID: RunId) returns (ok: bool)
      requires Valid()
      modifies this
      ensures Valid() && fresh(repr - old(repr))
      ensures ok == (key !in old(contents).blocks)
      ensures contents == AfterRegister(old(contents), key, shmName, size, ownerRunID)
    {
      if key in blocks {
        return false;
      }
      RegisterIsSound(contents, key, shmName, size, ownerRunID);
      var block := new CacheBlock(key, shmName, size, ownerRunID, |contents.log|);
      assert Members([ownerRunID]) == {ownerRunID};
      Install(key, block, AfterRegister(contents, key, shmName, size, ownerRunID));
      return true;
    }

    /** Add `runID` to the holders of one block. */
    method Share(key: string, runID: RunId, ghost next: Registry)
      requires Matches(contents.blocks) && key in blocks
      requires next.blocks == contents.blocks[key := WithRef(contents.blocks[key], runID)]
      modifies this`contents, repr
      ensures contents == next && Matches(contents.blocks)
    {
      assert Holds(contents.blocks, key);
      contents := next;
      blocks[key].AddRef(runID);
    }

    method LookupAndRef(key: string, runID: RunId) returns (shmName: string, size: int, found: bool)
      requires Valid()
      modifies this`contents, repr
      ensures Valid()
      ensures found == (key in old(contents).blocks)
      ensures found ==> shmName == old(contents).blocks[key].shm && size == old(contents).blocks[key].size
      ensures !found ==> shmName == "" && size == 0
      ensures contents == AfterLookup(old(contents), key, runID)
    {
      if key !in blocks {
        return "", 0, false;
      }
      LookupIsSound(contents, key, runID);
      assert Holds(contents.blocks, key);
      var block := blocks[key];
      Share(key, runID, AfterLookup(contents, key, runID));
      return block.shmName, block.size, true;
    }

    /** `unlinkShm`, which is given the name the block carries. */
    ghost method UnlinkShm(block: CacheBlock)
      modifies this`births
      ensures births == if block.serial < |old(births)|
                        then old(births)[block.serial :=
                          old(births)[block.serial].(unlinked := old(births)[block.serial].unlinked + [block.shmName])]
                        else old(births)
    {
      if block.serial < |births| {
        births := births[block.serial := births[block.serial].(unlinked := births[block.serial].unlinked + [block.shmName])];
      }
    }

    /**
     Drop `runID` from one block, and unlink and delete the block once nobody refers to it: what
     `Release` and the loop of `CleanupRun` both do under the lock.
     */
    method Strip(key: string, runID: RunId, ghost next: Registry) returns (found: bool)
      requires Matches(contents.blocks) && key in blocks && births == contents.log && EntryOk(contents, key)
      requires next.blocks == Stripped(contents.blocks, key, runID)
      requires next.log == StrippedLog(contents, key, runID)
      modifies this`blocks, this`births, this`contents, repr
      ensures contents == next && Matches(contents.blocks) && births == contents.log
      ensures found == (runID in old(contents).blocks[key].refs)
    {
      var block := blocks[key];
      assert Holds(contents.blocks, key);
      contents := next;
      found := block.DropRef(runID);
      if |block.refs| == 0 {
        assert Members(block.refs) == {};
        UnlinkShm(block);
        blocks := blocks - {key};
      } else {
        assert block.refs[0] in Members(block.refs);
      }
    }

    method Release(key: string, runID: RunId) returns (found: bool)
      requires Valid()
      modifies this`blocks, this`births, this`contents, repr
      ensures Valid()
      ensures found == Held(old(contents), key, runID)
      ensures contents == AfterRelease(old(contents), key, runID)
    {
      if key !in blocks {
        return false;
      }
      ReleaseIsSound(contents, key, runID);
      ReleaseStepwise(contents, key, runID);
      found := Strip(key, runID, AfterRelease(contents, key, runID));
    }

    /** Keys come in any order and may be deleted on the way. */
    method CleanupRun(runID: RunId)
      requires Valid()
      modifies this`blocks, this`births, this`contents, repr
      ensures Valid()
      ensures contents == AfterCleanup(old(contents), runID)
    {
      ghost var was := contents;
      var pending := blocks.Keys;
      UnderWayAtStart(was, runID);
      while pending != {}
        invariant Valid() && pending <= blocks.Keys
        invariant UnderWay(was, pending, contents, runID)
        decreases pending
      {
        var key :| key in pending;
        UnderWayStep(was, pending, key, contents, runID);
        ReleaseIsSound(contents, key, runID);
        ReleaseStepwise(contents, key, runID);
        var _ := Strip(key, runID, AfterRelease(contents, key, runID));
        pending := pending - {key};
      }
      UnderWayAtEnd(was, contents, runID);
    }
  }
}
