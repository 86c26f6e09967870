/** The script registry: scanning directories, booting in two steps, and reloading. */
module Registry {
  import opened Wrappers
  import Paths

  const MAX_LOAD_ISSUES := 50

  datatype Source = Builtin | Plugin

  /** A registered script; `body` stands for name, description, parameters and parallel settings. */
  datatype Script = Script(id: string, body: string, source: Source, dir: string)

  datatype Why =
    | ReadFailed(text: string) | ParseFailed(text: string) | MissingID | MissingMain
    | Duplicate(id: string, firstDir: string)

  datatype LoadIssue = LoadIssue(dir: string, source: Source, error: Why, timestamp: nat)

  // ----- The disk -----

  datatype Json = Unreadable(text: string) | Unparsable(text: string) | Parsed(id: string, body: string)

  /** A directory entry with what `loadScript` will find inside. */
  datatype DirEntry = DirEntry(name: string, isDir: bool, json: Json, hasMain: bool)

  datatype Stat = Found | NotExist | StatFailed

  /** What `os.Stat` and `os.ReadDir` say about a directory. */
  datatype Dir = Dir(stat: Stat, entries: Option<seq<DirEntry>>)

  type Disk = map<string, Dir>

  function Look(disk: Disk, dir: string): Dir {
    if dir in disk then disk[dir] else Dir(NotExist, None)
  }

  predicate IsCandidate(entry: DirEntry) {
    entry.isDir && entry.name != "_lib"
  }

  /** `loadScript`: the script's id and body, or what is wrong with the directory. */
  datatype Loaded = Ok(id: string, body: string) | Bad(error: Why)

  function LoadScript(entry: DirEntry): Loaded {
    match entry.json
    case Unreadable(text) => Bad(ReadFailed(text))
    case Unparsable(text) => Bad(ParseFailed(text))
    case Parsed(id, body) =>
      if id == "" then Bad(MissingID) else if !entry.hasMain then Bad(MissingMain) else Ok(id, body)
  }

  // ----- One scan -----

  datatype Scan = Scan(scripts: map<string, Script>, issues: seq<LoadIssue>)

  const NOTHING := Scan(map[], [])

  function AfterEntry(scan: Scan, entry: DirEntry, dir: string, source: Source, now: nat): Scan {
    if !IsCandidate(entry) then scan
    else
      var path := Paths.Join(dir, entry.name);
      match LoadScript(entry)
      case Bad(error) => scan.(issues := scan.issues + [LoadIssue(path, source, error, now)])
      case Ok(id, body) =>
        if id in scan.scripts
        then scan.(issues := scan.issues + [LoadIssue(path, source, Duplicate(id, scan.scripts[id].dir), now)])
        else scan.(scripts := scan.scripts[id := Script(id, body, source, path)])
  }

  function ScanOf(entries: seq<DirEntry>, dir: string, source: Source, now: nat): Scan {
    if entries == [] then NOTHING
    else AfterEntry(ScanOf(entries[..|entries| - 1], dir, source, now), entries[|entries| - 1], dir, source, now)
  }

  function Candidates(entries: seq<DirEntry>): nat {
    if entries == [] then 0
    else Candidates(entries[..|entries| - 1]) + if IsCandidate(entries[|entries| - 1]) then 1 else 0
  }

  /** Every candidate directory is registered or reported, and none is both. */
  lemma {:induction false} EveryDirectoryIsAccountedFor(entries: seq<DirEntry>, dir: string, source: Source, now: nat)
    ensures var scan := ScanOf(entries, dir, source, now);
      |scan.scripts| + |scan.issues| == Candidates(entries)
  {
    if entries != [] {
      var n := |entries| - 1;
      EveryDirectoryIsAccountedFor(entries[..n], dir, source, now);
      var before, entry := ScanOf(entries[..n], dir, source, now), entries[n];
      if IsCandidate(entry) && LoadScript(entry).Ok? && LoadScript(entry).id !in before.scripts {
        var script := Script(LoadScript(entry).id, LoadScript(entry).body, source, Paths.Join(dir, entry.name));
        assert before.scripts[LoadScript(entry).id := script].Keys == before.scripts.Keys + {LoadScript(entry).id};
      }
    }
  }

  predicate Offers(entry: DirEntry, id: string) {
    IsCandidate(entry) && LoadScript(entry).Ok? && LoadScript(entry).id == id
  }

  /** Index of the first entry that offers `id`, or the length if there is none. */
  function FirstOffer(entries: seq<DirEntry>, id: string): nat {
    if entries == [] then 0
    else if Offers(entries[0], id) then 0
    else 1 + FirstOffer(entries[1..], id)
  }

  lemma {:induction false} FirstOfferIsFirst(entries: seq<DirEntry>, id: string)
    ensures FirstOffer(entries, id) <= |entries|
    ensures FirstOffer(entries, id) < |entries| ==> Offers(entries[FirstOffer(entries, id)], id)
    ensures forall i :: 0 <= i < FirstOffer(entries, id) ==> !Offers(entries[i], id)
  {
    if entries != [] && !Offers(entries[0], id) {
      FirstOfferIsFirst(entries[1..], id);
      forall i | 0 <= i < FirstOffer(entries, id) ensures !Offers(entries[i], id) {
        if i > 0 {
          assert entries[i] == entries[1..][i - 1];
        }
      }
    }
  }

  lemma {:induction false} FirstOfferInPrefix(entries: seq<DirEntry>, id: string)
    requires entries != []
    ensures var n := |entries| - 1;
      FirstOffer(entries, id) == if FirstOffer(entries[..n], id) < n then FirstOffer(entries[..n], id)
                                 else if Offers(entries[n], id) then n else n + 1
  {
    var n := |entries| - 1;
    FirstOfferIsFirst(entries[..n], id);
    if n > 0 && !Offers(entries[0], id) {
      FirstOfferInPrefix(entries[1..], id);
      assert entries[1..][..n - 1] == entries[..n][1..];
    } else if n == 0 {
      assert entries[1..] == [];
    }
  }

  /** Within a scan the first directory that offers an id has it. */
  lemma {:induction false} FirstDirectoryWins(entries: seq<DirEntry>, dir: string, source: Source, now: nat, id: string)
    ensures var scan, first := ScanOf(entries, dir, source, now), FirstOffer(entries, id);
      && (id in scan.scripts <==> first < |entries|)
      && (first < |entries| ==>
            && LoadScript(entries[first]).Ok?
            && scan.scripts[id] == Script(id, LoadScript(entries[first]).body, source, Paths.Join(dir, entries[first].name)))
  {
    FirstOfferIsFirst(entries, id);
    if entries != [] {
      var n := |entries| - 1;
      FirstOfferIsFirst(entries[..n], id);
      FirstOfferInPrefix(entries, id);
      FirstDirectoryWins(entries[..n], dir, source, now, id);
    }
  }

  predicate AllFrom(scan: Scan, source: Source) {
    && (forall id :: id in scan.scripts ==> scan.scripts[id].source == source)
    && (forall i :: 0 <= i < |scan.issues| ==> scan.issues[i].source == source)
  }

  lemma EntryHasOneSource(scan: Scan, entry: DirEntry, dir: string, source: Source, now: nat)
    requires AllFrom(scan, source)
    ensures AllFrom(AfterEntry(scan, entry, dir, source, now), source)
  {}

  /** All that is registered or reported carries the source of the scan. */
  lemma {:induction false} ScanHasOneSource(entries: seq<DirEntry>, dir: string, source: Source, now: nat)
    ensures AllFrom(ScanOf(entries, dir, source, now), source)
  {
    if entries != [] {
      var n := |entries| - 1;
      ScanHasOneSource(entries[..n], dir, source, now);
      EntryHasOneSource(ScanOf(entries[..n], dir, source, now), entries[n], dir, source, now);
    }
  }

  // ----- The digest -----

  datatype Encoded = Encoded(id: string, body: string, source: Source)
  datatype EncodedIssue = EncodedIssue(dir: string, source: Source, error: Why)

  /** The digest, taken as injective on what is hashed: no `Dir`, no timestamp, issues sorted. */
  datatype Digest = Digest(scripts: map<string, Encoded>, issues: multiset<EncodedIssue>)

  function Encode(script: Script): Encoded {
    Encoded(script.id, script.body, script.source)
  }

  function EncodeAll(issues: seq<LoadIssue>): seq<EncodedIssue> {
    seq(|issues|, i requires 0 <= i < |issues| =>
      EncodedIssue(issues[i].dir, issues[i].source, issues[i].error))
  }

  function DigestOf(scan: Scan): Digest {
    Digest(map id | id in scan.scripts :: Encode(scan.scripts[id]), multiset(EncodeAll(scan.issues)))
  }

  function Capped<T>(items: seq<T>): seq<T> {
    if |items| > MAX_LOAD_ISSUES then items[|items| - MAX_LOAD_ISSUES..] else items
  }

  lemma CappingTwice<T>(a: seq<T>, b: seq<T>)
    ensures Capped(Capped(a) + b) == Capped(a + b)
  {}

  lemma CappingEncoded(issues: seq<LoadIssue>)
    ensures EncodeAll(Capped(issues)) == Capped(EncodeAll(issues))
  {}

  lemma EntryIsTheSame(a: Scan, b: Scan, entry: DirEntry, dir: string, source: Source, now: nat, later: nat)
    requires a.scripts == b.scripts && EncodeAll(a.issues) == EncodeAll(b.issues)
    ensures var x, y := AfterEntry(a, entry, dir, source, now), AfterEntry(b, entry, dir, source, later);
      x.scripts == y.scripts && EncodeAll(x.issues) == EncodeAll(y.issues)
  {
    var x, y := AfterEntry(a, entry, dir, source, now), AfterEntry(b, entry, dir, source, later);
    assert |a.issues| == |EncodeAll(a.issues)| == |b.issues|;
    if |x.issues| > |a.issues| {
      assert EncodeAll(x.issues) == EncodeAll(a.issues) + EncodeAll([x.issues[|a.issues|]]);
      assert EncodeAll(y.issues) == EncodeAll(b.issues) + EncodeAll([y.issues[|b.issues|]]);
    }
  }

  /** A rescan of the same entries differs at most in its timestamps. */
  lemma {:induction false} RescanIsTheSame(entries: seq<DirEntry>, dir: string, source: Source, now: nat, later: nat)
    ensures ScanOf(entries, dir, source, now).scripts == ScanOf(entries, dir, source, later).scripts
    ensures EncodeAll(ScanOf(entries, dir, source, now).issues) == EncodeAll(ScanOf(entries, dir, source, later).issues)
  {
    if entries != [] {
      var n := |entries| - 1;
      RescanIsTheSame(entries[..n], dir, source, now, later);
      EntryIsTheSame(ScanOf(entries[..n], dir, source, now), ScanOf(entries[..n], dir, source, later),
                     entries[n], dir, source, now, later);
    }
  }

  // ----- Boot and reload -----

  datatype State = State(scan: Scan, digest: Option<Digest>)

  const FRESH := State(NOTHING, None)

  function ReadDir(disk: Disk, dir: string, source: Source, now: nat): Option<Scan> {
    var entries := Look(disk, dir).entries;
    if entries.None? then None else Some(ScanOf(entries.value, dir, source, now))
  }

  /** Put one scan on top of another; its scripts win. */
  function Overlay(base: Scan, top: Scan): Scan {
    Scan(base.scripts + top.scripts, Capped(base.issues + top.issues))
  }

  function Merged(state: State, top: Scan): State {
    var scan := Overlay(state.scan, top);
    State(scan, Some(DigestOf(scan)))
  }

  function AfterLoadBuiltin(state: State, disk: Disk, dir: string, now: nat): Option<State> {
    var read := ReadDir(disk, dir, Builtin, now);
    if read.None? then None else Some(Merged(state, read.value))
  }

  function AfterLoadPlugins(state: State, disk: Disk, dir: string, now: nat): Option<State> {
    if Look(disk, dir).stat == NotExist then Some(state)
    else
      var read := ReadDir(disk, dir, Plugin, now);
      if read.None? then None else Some(Merged(state, read.value))
  }

  function BuiltinPart(disk: Disk, dir: string, now: nat): Option<Scan> {
    if dir == "" then Some(NOTHING) else ReadDir(disk, dir, Builtin, now)
  }

  function PluginPart(disk: Disk, dir: string, now: nat): Option<Scan> {
    if dir == "" || Look(disk, dir).stat != Found then Some(NOTHING) else ReadDir(disk, dir, Plugin, now)
  }

  /** What `Reload` computes from the disk alone. */
  function FreshScan(disk: Disk, scriptsDir: string, pluginDir: string, now: nat): Option<Scan> {
    var builtin, plugin := BuiltinPart(disk, scriptsDir, now), PluginPart(disk, pluginDir, now);
    if builtin.None? || plugin.None? then None else Some(Overlay(builtin.value, plugin.value))
  }

  function AfterReload(state: State, found: Scan): State {
    if state.digest == Some(DigestOf(found)) then state else State(found, Some(DigestOf(found)))
  }

  /** The same scripts up to their directories, and the same issues up to order and time. */
  predicate SameUpToDirAndTime(a: Scan, b: Scan) {
    && a.scripts.Keys == b.scripts.Keys
    && (forall id :: id in a.scripts ==> a.scripts[id].(dir := "") == b.scripts[id].(dir := ""))
    && multiset(EncodeAll(a.issues)) == multiset(EncodeAll(b.issues))
  }

  /** The digest tells apart exactly what differs in more than directory, order and time. */
  lemma DigestDetermines(a: Scan, b: Scan)
    ensures DigestOf(a) == DigestOf(b) <==> SameUpToDirAndTime(a, b)
  {
    var x, y := DigestOf(a), DigestOf(b);
    assert x.scripts.Keys == a.scripts.Keys && y.scripts.Keys == b.scripts.Keys;
    if x == y {
      forall id | id in a.scripts ensures a.scripts[id].(dir := "") == b.scripts[id].(dir := "") {
        assert x.scripts[id] == Encode(a.scripts[id]) && y.scripts[id] == Encode(b.scripts[id]);
      }
    }
    if SameUpToDirAndTime(a, b) {
      forall id | id in a.scripts ensures x.scripts[id] == y.scripts[id] {
        assert Encode(a.scripts[id]) == Encode(a.scripts[id].(dir := ""));
        assert Encode(b.scripts[id]) == Encode(b.scripts[id].(dir := ""));
      }
      assert x.scripts == y.scripts;
    }
  }

  /** The remembered digest is that of the registered state, once there is one. */
  predicate Coherent(state: State) {
    state.digest.Some? ==> state.digest == Some(DigestOf(state.scan))
  }

  /** One operation on the registry, with the disk as it then is. */
  datatype Operation =
    | Builtins(disk: Disk, dir: string, now: nat)
    | Plugins(disk: Disk, dir: string, now: nat)
    | Rescan(disk: Disk, scriptsDir: string, pluginDir: string, now: nat)

  /** A failed operation changes nothing. */
  function After(state: State, operation: Operation): State {
    match operation
    case Builtins(disk, dir, now) =>
      var next := AfterLoadBuiltin(state, disk, dir, now);
      if next.Some? then next.value else state
    case Plugins(disk, dir, now) =>
      var next := AfterLoadPlugins(state, disk, dir, now);
      if next.Some? then next.value else state
    case Rescan(disk, scriptsDir, pluginDir, now) =>
      var found := FreshScan(disk, scriptsDir, pluginDir, now);
      if found.Some? then AfterReload(state, found.value) else state
  }

  function AfterAll(operations: seq<Operation>): State {
    if operations == [] then FRESH
    else After(AfterAll(operations[..|operations| - 1]), operations[|operations| - 1])
  }

  lemma ReloadFindsTheDisk(state: State, found: Scan)
    requires Coherent(state)
    ensures var after := AfterReload(state, found);
      && SameUpToDirAndTime(after.scan, found)
      && after.digest == Some(DigestOf(found))
      && (after == state <==> state.digest == Some(DigestOf(found)))
      && (after != state ==> after.scan == found)
  {
    DigestDetermines(AfterReload(state, found).scan, found);
  }

  /** In every history of loads and reloads, of whatever disks, the remembered digest is right. */
  lemma {:induction false} AlwaysCoherent(operations: seq<Operation>)
    ensures Coherent(AfterAll(operations))
  {
    if operations != [] {
      AlwaysCoherent(operations[..|operations| - 1]);
    }
  }

  /**
   After any history, a reload that succeeds leaves what a fresh scan of the disk gives, up to
   directories and times, and one that fails leaves everything as it was.
   */
  lemma ReloadEqualsFreshScan(operations: seq<Operation>, disk: Disk, scriptsDir: string, pluginDir: string, now: nat)
    ensures var before := AfterAll(operations);
      var after := AfterAll(operations + [Rescan(disk, scriptsDir, pluginDir, now)]);
      var found := FreshScan(disk, scriptsDir, pluginDir, now);
      && (found.Some? ==> SameUpToDirAndTime(after.scan, found.value) && after.digest == Some(DigestOf(found.value)))
      && (found.None? ==> after == before)
  {
    AlwaysCoherent(operations);
    assert (operations + [Rescan(disk, scriptsDir, pluginDir, now)])[..|operations|] == operations;
    var found := FreshScan(disk, scriptsDir, pluginDir, now);
    if found.Some? {
      ReloadFindsTheDisk(AfterAll(operations), found.value);
    }
  }

  lemma MergedWithNothing(state: State)
    requires |state.scan.issues| <= MAX_LOAD_ISSUES && state.digest == Some(DigestOf(state.scan))
    ensures Merged(state, NOTHING) == state
  {
    assert state.scan.scripts + map[] == state.scan.scripts;
    assert state.scan.issues + [] == state.scan.issues;
  }

  /** Two steps on a fresh registry build what one fresh scan builds. */
  lemma TwoStepsAreOne(builtin: Scan, plugin: Scan)
    ensures Merged(Merged(FRESH, builtin), plugin).scan == Overlay(builtin, plugin)
  {
    assert map[] + builtin.scripts == builtin.scripts;
    assert [] + builtin.issues == builtin.issues;
    CappingTwice(builtin.issues, plugin.issues);
  }

  lemma OverlayDigest(a: Scan, b: Scan, a': Scan, b': Scan)
    requires a.scripts == a'.scripts && EncodeAll(a.issues) == EncodeAll(a'.issues)
    requires b.scripts == b'.scripts && EncodeAll(b.issues) == EncodeAll(b'.issues)
    ensures DigestOf(Overlay(a, b)) == DigestOf(Overlay(a', b'))
  {
    CappingEncoded(a.issues + b.issues);
    CappingEncoded(a'.issues + b'.issues);
    assert EncodeAll(a.issues + b.issues) == EncodeAll(a.issues) + EncodeAll(b.issues);
    assert EncodeAll(a'.issues + b'.issues) == EncodeAll(a'.issues) + EncodeAll(b'.issues);
  }

  /** Something of the plugin scan shows in any overlay with a builtin scan, so the digests differ. */
  lemma PluginScanShows(builtin: Scan, plugin: Scan)
    requires AllFrom(builtin, Builtin) && AllFrom(plugin, Plugin)
    ensures DigestOf(Overlay(builtin, plugin)) == DigestOf(Overlay(builtin, NOTHING)) <==> plugin == NOTHING
  {
    var with, without := Overlay(builtin, plugin), Overlay(builtin, NOTHING);
    assert builtin.issues + [] == builtin.issues;
    if plugin.scripts != map[] {
      var id :| id in plugin.scripts;
      assert DigestOf(with).scripts[id].source == Plugin;
      assert id in DigestOf(without).scripts ==> DigestOf(without).scripts[id].source == Builtin;
    } else if plugin.issues != [] {
      var n := |with.issues|;
      assert with.issues[n - 1] == plugin.issues[|plugin.issues| - 1];
      var last := EncodeAll(with.issues)[n - 1];
      assert last in multiset(EncodeAll(with.issues));
      forall i | 0 <= i < |without.issues| ensures EncodeAll(without.issues)[i].source == Builtin {}
      assert last !in EncodeAll(without.issues);
    }
  }

  /** The plugin scan that boot loads: none if the directory does not exist. */
  function BootPlugins(disk: Disk, dir: string, now: nat): Option<Scan> {
    if Look(disk, dir).stat == NotExist then Some(NOTHING) else ReadDir(disk, dir, Plugin, now)
  }

  /** Boot on a fresh registry: both loads, if they succeed. */
  function Booted(disk: Disk, scriptsDir: string, pluginDir: string, now: nat): Option<State> {
    var first := AfterLoadBuiltin(FRESH, disk, scriptsDir, now);
    if first.None? then None else AfterLoadPlugins(first.value, disk, pluginDir, now)
  }

  lemma BootIsAnOverlay(disk: Disk, scriptsDir: string, pluginDir: string, now: nat)
    requires Booted(disk, scriptsDir, pluginDir, now).Some?
    ensures ReadDir(disk, scriptsDir, Builtin, now).Some? && BootPlugins(disk, pluginDir, now).Some?
    ensures var scan := Overlay(ReadDir(disk, scriptsDir, Builtin, now).value, BootPlugins(disk, pluginDir, now).value);
      Booted(disk, scriptsDir, pluginDir, now) == Some(State(scan, Some(DigestOf(scan))))
  {
    var builtin := ReadDir(disk, scriptsDir, Builtin, now).value;
    if Look(disk, pluginDir).stat == NotExist {
      TwoStepsAreOne(builtin, NOTHING);
      MergedWithNothing(Merged(FRESH, builtin));
    } else {
      TwoStepsAreOne(builtin, ReadDir(disk, pluginDir, Plugin, now).value);
    }
  }

  lemma ReadAgain(disk: Disk, dir: string, source: Source, now: nat, later: nat)
    requires ReadDir(disk, dir, source, now).Some?
    ensures ReadDir(disk, dir, source, later).Some?
    ensures var a, b := ReadDir(disk, dir, source, now).value, ReadDir(disk, dir, source, later).value;
      a.scripts == b.scripts && EncodeAll(a.issues) == EncodeAll(b.issues) && AllFrom(a, source)
  {
    RescanIsTheSame(Look(disk, dir).entries.value, dir, source, now, later);
    ScanHasOneSource(Look(disk, dir).entries.value, dir, source, now);
  }

  /** `os.Stat` fails on the directory, not for absence, yet it can be read and something is in it. */
  predicate Oddity(disk: Disk, dir: string, now: nat) {
    && Look(disk, dir).stat == StatFailed
    && ReadDir(disk, dir, Plugin, now).Some?
    && ReadDir(disk, dir, Plugin, now).value != NOTHING
  }

  /**
   Boot on a fresh registry, then a reload of the same disk at any later time: the reload succeeds,
   and it reports no change, unless the plugin directory is an oddity, whose plugins boot loads and
   reload drops.
   */
  lemma BootThenReload(disk: Disk, scriptsDir: string, pluginDir: string, now: nat, later: nat)
    requires scriptsDir != "" && (pluginDir == "" ==> Look(disk, pluginDir).stat == NotExist)
    requires Booted(disk, scriptsDir, pluginDir, now).Some?
    ensures FreshScan(disk, scriptsDir, pluginDir, later).Some?
    ensures Booted(disk, scriptsDir, pluginDir, now).value.digest
         == Some(DigestOf(FreshScan(disk, scriptsDir, pluginDir, later).value))
      <==> !Oddity(disk, pluginDir, now)
  {
    BootIsAnOverlay(disk, scriptsDir, pluginDir, now);
    ReadAgain(disk, scriptsDir, Builtin, now, later);
    var builtin, builtin' := ReadDir(disk, scriptsDir, Builtin, now).value, ReadDir(disk, scriptsDir, Builtin, later).value;
    var plugin := BootPlugins(disk, pluginDir, now).value;
    match Look(disk, pluginDir).stat {
      case NotExist => OverlayDigest(builtin, NOTHING, builtin', NOTHING);
      case Found =>
        ReadAgain(disk, pluginDir, Plugin, now, later);
        OverlayDigest(builtin, plugin, builtin', ReadDir(disk, pluginDir, Plugin, later).value);
      case StatFailed =>
        ReadAgain(disk, pluginDir, Plugin, now, later);
        OverlayDigest(builtin, NOTHING, builtin', NOTHING);
        PluginScanShows(builtin, plugin);
    }
  }

  const ODD_DISK: Disk := map[
    "s" := Dir(Found, Some([])),
    "p" := Dir(StatFailed, Some([DirEntry("x", true, Unreadable("e"), false)]))]

  /** Such a disk: boot succeeds with what the directory holds, and a reload of the same disk drops it. */
  lemma OddDirectoryIsDropped(now: nat, later: nat)
    ensures Oddity(ODD_DISK, "p", now)
    ensures var booted := Booted(ODD_DISK, "s", "p", now);
      && booted.Some? && |booted.value.scan.issues| == 1
      && FreshScan(ODD_DISK, "s", "p", later) == Some(NOTHING)
      && AfterReload(booted.value, NOTHING) != booted.value
  {
    var entry := DirEntry("x", true, Unreadable("e"), false);
    assert [entry][..0] == [];
    assert |ScanOf([entry], "p", Plugin, now).issues| == 1;
    assert Overlay(NOTHING, NOTHING) == NOTHING;
    assert Merged(FRESH, NOTHING).scan == NOTHING;
    BootThenReload(ODD_DISK, "s", "p", now, later);
  }

  // ----- The registry -----

  datatype Override = Override(builtinDir: string, pluginDir: string)

  /** What putting `top` over `base` overrides: exactly the shared ids, each once. */
  function Overrides(base: map<string, Script>, top: map<string, Script>): map<string, Override> {
    map id | id in base.Keys * top.Keys :: Override(base[id].dir, top[id].dir)
  }

  /** An id in both scans belongs to the plugin and is reported; any other keeps its only owner. */
  lemma PluginWins(builtin: Scan, plugin: Scan, id: string)
    ensures var scripts := Overlay(builtin, plugin).scripts;
      && (id in scripts <==> id in builtin.scripts || id in plugin.scripts)
      && (id in scripts ==> scripts[id] == if id in plugin.scripts then plugin.scripts[id] else builtin.scripts[id])
      && (id in Overrides(builtin.scripts, plugin.scripts) <==> id in builtin.scripts && id in plugin.scripts)
  {}

  /** The part of a map under the given ids. */
  function Only(scripts: map<string, Script>, ids: set<string>): map<string, Script> {
    map id | id in scripts && id in ids :: scripts[id]
  }

  lemma PutOneMore(base: map<string, Script>, top: map<string, Script>, done: set<string>, id: string)
    requires id in top && id !in done
    ensures (base + Only(top, done))[id := top[id]] == base + Only(top, done + {id})
    ensures id in base + Only(top, done) <==> id in base
    ensures Overrides(base, Only(top, done + {id}))
         == if id in base then Overrides(base, Only(top, done))[id := Override(base[id].dir, top[id].dir)]
            else Overrides(base, Only(top, done))
  {}

  class Registry {
    var scripts: map<string, Script>
    var issues: seq<LoadIssue>
    var fingerprint: Option<Digest>
    var reported: seq<map<string, Override>>  // the override reports of each load
    var published: seq<seq<LoadIssue>>        // what each load handed to ReplaceBannersByPrefix

    ghost function Contents(): State
      reads this
    {
      State(Scan(scripts, issues), fingerprint)
    }

    /** The remembered fingerprint is that of what is registered. */
    ghost predicate Valid()
      reads this`scripts, this`issues, this`fingerprint
    {
      Coherent(State(Scan(scripts, issues), fingerprint))
    }

    constructor ()
      ensures Valid() && Contents() == FRESH && reported == [] && published == []
    {
      scripts, issues, fingerprint := map[], [], None;
      reported, published := [], [];
    }

    method BuildFromDir(disk: Disk, dir: string, source: Source, now: nat) returns (read: Option<Scan>)
      ensures read == ReadDir(disk, dir, source, now)
    {
      var entries := Look(disk, dir).entries;
      if entries.None? {
        return None;
      }
      var found: map<string, Script>, problems: seq<LoadIssue> := map[], [];
      var i := 0;
      while i < |entries.value|
        invariant 0 <= i <= |entries.value|
        invariant Scan(found, problems) == ScanOf(entries.value[..i], dir, source, now)
      {
        var entry := entries.value[i];
        assert entries.value[..i + 1][..i] == entries.value[..i];
        if IsCandidate(entry) {
          var path := Paths.Join(dir, entry.name);
          match LoadScript(entry) {
            case Bad(error) =>
              problems := problems + [LoadIssue(path, source, error, now)];
            case Ok(id, body) =>
              if id in found {
                problems := problems + [LoadIssue(path, source, Duplicate(id, found[id].dir), now)];
              } else {
                found := found[id := Script(id, body, source, path)];
              }
          }
        }
        i := i + 1;
      }
      assert entries.value[..i] == entries.value;
      return Some(Scan(found, problems));
    }

    /** The merging loop of the load methods, over the new scripts in whatever order the map yields them. */
    method PutOver(base: map<string, Script>, top: map<string, Script>)
      returns (merged: map<string, Script>, notices: map<string, Override>)
      ensures merged == base + top && notices == Overrides(base, top)
    {
      merged, notices := base, map[];
      var pending := top.Keys;
      assert Only(top, {}) == map[] && base + map[] == base;
      while pending != {}
        invariant pending <= top.Keys
        invariant merged == base + Only(top, top.Keys - pending)
        invariant notices == Overrides(base, Only(top, top.Keys - pending))
        decreases pending
      {
        var id :| id in pending;
        PutOneMore(base, top, top.Keys - pending, id);
        assert top.Keys - (pending - {id}) == top.Keys - pending + {id};
        if id in merged {
          notices := notices[id := Override(merged[id].dir, top[id].dir)];
        }
        merged := merged[id := top[id]];
        pending := pending - {id};
      }
      assert Only(top, top.Keys) == top;
    }

    method LoadBuiltin(disk: Disk, scriptsDir: string, now: nat) returns (ok: bool)
      requires Valid()
      modifies this
      ensures Valid()
      ensures ok == AfterLoadBuiltin(old(Contents()), disk, scriptsDir, now).Some?
      ensures Contents() == if ok then AfterLoadBuiltin(old(Contents()), disk, scriptsDir, now).value else old(Contents())
      ensures reported == old(reported) && published == old(published) + if ok then [issues] else []
    {
      var read := BuildFromDir(disk, scriptsDir, Builtin, now);
      if read.None? {
        return false;
      }
      var merged, _ := PutOver(scripts, read.value.scripts);
      scripts := merged;
      issues := Capped(issues + read.value.issues);
      fingerprint := Some(DigestOf(Scan(scripts, issues)));
      published := published + [issues];
      return true;
    }

    method LoadPlugins(disk: Disk, pluginDir: string, now: nat) returns (ok: bool)
      requires Valid()
      modifies this
      ensures Valid()
      ensures ok == AfterLoadPlugins(old(Contents()), disk, pluginDir, now).Some?
      ensures Contents() == if ok then AfterLoadPlugins(old(Contents()), disk, pluginDir, now).value else old(Contents())
      ensures var skipped := !ok || Look(disk, pluginDir).stat == NotExist;
        && published == old(published) + (if skipped then [] else [issues])
        && reported == old(reported) + if skipped then []
             else [Overrides(old(scripts), ReadDir(disk, pluginDir, Plugin, now).value.scripts)]
    {
      if Look(disk, pluginDir).stat == NotExist {
        return true;
      }
      var read := BuildFromDir(disk, pluginDir, Plugin, now);
      if read.None? {
        return false;
      }
      var merged, notices := PutOver(scripts, read.value.scripts);
      scripts := merged;
      issues := Capped(issues + read.value.issues);
      fingerprint := Some(DigestOf(Scan(scripts, issues)));
      reported := reported + [notices];
      published := published + [issues];
      return true;
    }

    /** The first half of a reload: both scans, merged and capped; what the plugins override. */
    method ScanBoth(disk: Disk, scriptsDir: string, pluginDir: string, now: nat)
      returns (found: Option<Scan>, notices: map<string, Override>)
      ensures found == FreshScan(disk, scriptsDir, pluginDir, now)
      ensures found.Some? ==> notices == Overrides(BuiltinPart(disk, scriptsDir, now).value.scripts,
                                                   PluginPart(disk, pluginDir, now).value.scripts)
    {
      var builtin, plugin := Some(NOTHING), Some(NOTHING);
      if scriptsDir != "" {
        builtin := BuildFromDir(disk, scriptsDir, Builtin, now);
        if builtin.None? {
          return None, map[];
        }
      }
      if pluginDir != "" && Look(disk, pluginDir).stat == Found {
        plugin := BuildFromDir(disk, pluginDir, Plugin, now);
        if plugin.None? {
          return None, map[];
        }
      }
      var merged;
      merged, notices := PutOver(builtin.value.scripts, plugin.value.scripts);
      found := Some(Scan(merged, Capped(builtin.value.issues + plugin.value.issues)));
    }

    /** Rescan both directories and swap the state if its digest changed; a failed scan changes nothing. */
    method Reload(disk: Disk, scriptsDir: string, pluginDir: string, now: nat) returns (ok: bool, changed: bool)
      requires Valid()
      modifies this
      ensures Valid()
      ensures ok == FreshScan(disk, scriptsDir, pluginDir, now).Some?
      ensures !ok ==> !changed
      ensures ok ==> var found := FreshScan(disk, scriptsDir, pluginDir, now).value;
                && changed == (old(fingerprint) != Some(DigestOf(found)))
                && Contents() == AfterReload(old(Contents()), found)
                && SameUpToDirAndTime(Scan(scripts, issues), found)
      ensures !changed ==> Contents() == old(Contents()) && reported == old(reported) && published == old(published)
      ensures changed ==>
                && published == old(published) + [issues]
                && reported == old(reported) + [Overrides(BuiltinPart(disk, scriptsDir, now).value.scripts,
                                                          PluginPart(disk, pluginDir, now).value.scripts)]
    {
      var found, notices := ScanBoth(disk, scriptsDir, pluginDir, now);
      if found.None? {
        return false, false;
      }
      ReloadFindsTheDisk(Contents(), found.value);
      var newFingerprint := Some(DigestOf(found.value));
      if newFingerprint == fingerprint {
        return true, false;
      }
      scripts, issues, fingerprint := found.value.scripts, found.value.issues, newFingerprint;
      reported := reported + [notices];
      published := published + [issues];
      return true, true;
    }
  }
}
