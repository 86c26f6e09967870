/** The registry's load issues as banners: what it publishes never confuses the banner list. */
module IssueBanners {
  import opened Registry
  import Paths
  import Banners

  /** What `os.ReadDir` guarantees: distinct names, each naming one entry. */
  ghost predicate Listing(entries: seq<DirEntry>) {
    && (forall i :: 0 <= i < |entries| ==> Paths.Ordinary(entries[i].name))
    && (forall i, j :: 0 <= i < j < |entries| ==> entries[i].name != entries[j].name)
  }

  /** `loadIssuesToEvents`; `prefix` is the registry's key prefix. */
  function EventFor(prefix: string, issue: LoadIssue): Banners.Event {
    Banners.Event("", Banners.Warn, Banners.Ongoing, prefix + issue.dir,
                  Banners.Detail("backend", "Plugin load issue", issue.dir, "", "", ""), issue.timestamp)
  }

  function EventsFor(prefix: string, issues: seq<LoadIssue>): seq<Banners.Event> {
    seq(|issues|, i requires 0 <= i < |issues| => EventFor(prefix, issues[i]))
  }

  /** A load issue is a banner, and no more than a warning. */
  lemma IssuesAreWarnings(prefix: string, issue: LoadIssue)
    ensures var ev := EventFor(prefix, issue);
      Banners.Route(ev) == [Banners.Banner(ev)] && ev.severity == Banners.Warn && ev.detail.message == issue.dir
  {}

  ghost predicate DistinctDirs(issues: seq<LoadIssue>) {
    forall i, j :: 0 <= i < j < |issues| ==> issues[i].dir != issues[j].dir
  }

  predicate NamesAnEntry(issue: LoadIssue, entries: seq<DirEntry>, dir: string) {
    exists k :: 0 <= k < |entries| && issue.dir == Paths.Join(dir, entries[k].name)
  }

  lemma EntryIsNew(entries: seq<DirEntry>, dir: string, issue: LoadIssue)
    requires Listing(entries) && entries != [] && NamesAnEntry(issue, entries[..|entries| - 1], dir)
    ensures NamesAnEntry(issue, entries, dir)
    ensures issue.dir != Paths.Join(dir, entries[|entries| - 1].name)
  {
    var n := |entries| - 1;
    var k :| 0 <= k < n && issue.dir == Paths.Join(dir, entries[..n][k].name);
    assert entries[..n][k] == entries[k];
    Paths.JoinIsInjective(dir, entries[k].name, dir, entries[n].name);
  }

  /** The same issues, or one more, about this path. */
  predicate Grows(before: seq<LoadIssue>, after: seq<LoadIssue>, path: string) {
    after == before
    || (|after| == |before| + 1 && after[..|before|] == before && after[|before|].dir == path)
  }

  lemma GrownStaysDistinct(before: seq<LoadIssue>, after: seq<LoadIssue>, path: string)
    requires DistinctDirs(before) && Grows(before, after, path)
    requires forall i :: 0 <= i < |before| ==> before[i].dir != path
    ensures DistinctDirs(after)
  {
    forall i, j | 0 <= i < j < |after| ensures after[i].dir != after[j].dir {
      assert after[i] == before[i];
      assert j < |before| ==> after[j] == before[j];
    }
  }

  lemma {:induction false} ScanIssuesAreDistinct(entries: seq<DirEntry>, dir: string, source: Source, now: nat)
    requires Listing(entries)
    ensures var issues := ScanOf(entries, dir, source, now).issues;
      && DistinctDirs(issues)
      && forall i :: 0 <= i < |issues| ==> NamesAnEntry(issues[i], entries, dir)
  {
    if entries != [] {
      var n := |entries| - 1;
      ScanIssuesAreDistinct(entries[..n], dir, source, now);
      var before, issues := ScanOf(entries[..n], dir, source, now).issues, ScanOf(entries, dir, source, now).issues;
      forall i | 0 <= i < |before|
        ensures NamesAnEntry(before[i], entries, dir) && before[i].dir != Paths.Join(dir, entries[n].name)
      {
        EntryIsNew(entries, dir, before[i]);
      }
      IssuesGrow(ScanOf(entries[..n], dir, source, now), entries[n], dir, source, now);
      GrownStaysDistinct(before, issues, Paths.Join(dir, entries[n].name));
      if issues != before {
        assert NamesAnEntry(issues[|before|], entries, dir);
      }
    }
  }

  lemma IssuesGrow(scan: Scan, entry: DirEntry, dir: string, source: Source, now: nat)
    ensures Grows(scan.issues, AfterEntry(scan, entry, dir, source, now).issues, Paths.Join(dir, entry.name))
  {}

  lemma CappedStaysDistinct(a: seq<LoadIssue>, b: seq<LoadIssue>)
    requires DistinctDirs(a) && DistinctDirs(b)
    requires forall i, j :: 0 <= i < |a| && 0 <= j < |b| ==> a[i].dir != b[j].dir
    ensures DistinctDirs(Capped(a + b))
  {
    var all, kept := a + b, Capped(a + b);
    forall i, j | 0 <= i < j < |kept| ensures kept[i].dir != kept[j].dir {
      var skipped := |all| - |kept|;
      assert kept[i] == all[skipped + i] && kept[j] == all[skipped + j];
    }
  }

  lemma KeysAreDistinct(prefix: string, issues: seq<LoadIssue>)
    requires DistinctDirs(issues)
    ensures Banners.Distinct(EventsFor(prefix, issues))
    ensures forall i :: 0 <= i < |issues| ==> prefix <= EventsFor(prefix, issues)[i].key
  {
    var batch := EventsFor(prefix, issues);
    forall i, j | 0 <= i < j < |batch| ensures batch[i].key != batch[j].key {
      assert batch[i].key[|prefix|..] == issues[i].dir && batch[j].key[|prefix|..] == issues[j].dir;
    }
  }

  /** Two scans of directories that clean to different paths report nothing in common. */
  lemma ScansAreApart(builtin: seq<DirEntry>, scriptsDir: string, a: LoadIssue,
                      plugins: seq<DirEntry>, pluginDir: string, b: LoadIssue)
    requires Listing(builtin) && Listing(plugins) && Paths.Clean(scriptsDir) != Paths.Clean(pluginDir)
    requires NamesAnEntry(a, builtin, scriptsDir) && NamesAnEntry(b, plugins, pluginDir)
    ensures a.dir != b.dir
  {
    var k :| 0 <= k < |builtin| && a.dir == Paths.Join(scriptsDir, builtin[k].name);
    var l :| 0 <= l < |plugins| && b.dir == Paths.Join(pluginDir, plugins[l].name);
    Paths.JoinIsInjective(scriptsDir, builtin[k].name, pluginDir, plugins[l].name);
  }

  /** The batch that a load or reload of both directories publishes. */
  function Published(prefix: string, builtin: seq<DirEntry>, scriptsDir: string,
                     plugins: seq<DirEntry>, pluginDir: string, now: nat): seq<Banners.Event> {
    EventsFor(prefix, Overlay(ScanOf(builtin, scriptsDir, Builtin, now), ScanOf(plugins, pluginDir, Plugin, now)).issues)
  }

  /** Every load and reload of two directories with different clean paths publishes distinct, prefixed keys. */
  lemma PublishedKeysAreDistinct(
    prefix: string, builtin: seq<DirEntry>, scriptsDir: string, plugins: seq<DirEntry>, pluginDir: string, now: nat)
    requires Listing(builtin) && Listing(plugins) && Paths.Clean(scriptsDir) != Paths.Clean(pluginDir)
    ensures var batch := Published(prefix, builtin, scriptsDir, plugins, pluginDir, now);
      && Banners.Distinct(batch)
      && forall i :: 0 <= i < |batch| ==> prefix <= batch[i].key
  {
    var a, b := ScanOf(builtin, scriptsDir, Builtin, now).issues, ScanOf(plugins, pluginDir, Plugin, now).issues;
    ScanIssuesAreDistinct(builtin, scriptsDir, Builtin, now);
    ScanIssuesAreDistinct(plugins, pluginDir, Plugin, now);
    forall i, j | 0 <= i < |a| && 0 <= j < |b| ensures a[i].dir != b[j].dir {
      ScansAreApart(builtin, scriptsDir, a[i], plugins, pluginDir, b[j]);
    }
    CappedStaysDistinct(a, b);
    KeysAreDistinct(prefix, Capped(a + b));
  }

  lemma {:induction false} SameIssues(entries: seq<DirEntry>, dir: string, dir': string, now: nat)
    requires Listing(entries) && Paths.Clean(dir) == Paths.Clean(dir')
    ensures var a, b := ScanOf(entries, dir, Builtin, now), ScanOf(entries, dir', Plugin, now);
      && a.scripts.Keys == b.scripts.Keys && |a.issues| == |b.issues|
      && forall i :: 0 <= i < |a.issues| ==> a.issues[i].dir == b.issues[i].dir
  {
    if entries != [] {
      var n := |entries| - 1;
      SameIssues(entries[..n], dir, dir', now);
      Paths.JoinIsInjective(dir, entries[n].name, dir', entries[n].name);
    }
  }

  lemma SameDirSameKey(prefix: string, issues: seq<LoadIssue>, i: nat, j: nat)
    requires i < j < |issues| && issues[i].dir == issues[j].dir && issues[i].dir != ""
    ensures !Banners.Distinct(EventsFor(prefix, issues))
  {
    var batch := EventsFor(prefix, issues);
    assert batch[i].key == batch[j].key && batch[i].key != "";
  }

  lemma CapLeavesSecond(a: seq<LoadIssue>, b: seq<LoadIssue>)
    requires |b| >= MAX_LOAD_ISSUES
    ensures Capped(a + b) == Capped(b)
  {}

  /** The last issue of the first list survives the cap next to its twin. */
  lemma TwinsSurvive(a: seq<LoadIssue>, b: seq<LoadIssue>)
    requires 0 < |a| == |b| < MAX_LOAD_ISSUES
    ensures var kept, n := Capped(a + b), |a|;
      |kept| > n && kept[|kept| - 1] == b[n - 1] && kept[|kept| - 1 - n] == a[n - 1]
  {}

  lemma TwoListsOfOne(prefix: string, a: seq<LoadIssue>, b: seq<LoadIssue>)
    requires |a| == |b| && DistinctDirs(b)
    requires forall i :: 0 <= i < |a| ==> a[i].dir == b[i].dir && a[i].dir != ""
    ensures Banners.Distinct(EventsFor(prefix, Capped(a + b))) <==> |a| == 0 || |a| >= MAX_LOAD_ISSUES
  {
    var n, kept := |a|, Capped(a + b);
    if n >= MAX_LOAD_ISSUES {
      CapLeavesSecond(a, b);
      CappedStaysDistinct([], b);
      assert [] + b == b;
      KeysAreDistinct(prefix, kept);
    } else if n > 0 {
      TwinsSurvive(a, b);
      SameDirSameKey(prefix, kept, |kept| - 1 - n, |kept| - 1);
    }
  }

  lemma NamedIsNotEmpty(issue: LoadIssue, entries: seq<DirEntry>, dir: string)
    requires NamesAnEntry(issue, entries, dir)
    ensures issue.dir != ""
  {
    var k :| 0 <= k < |entries| && issue.dir == Paths.Join(dir, entries[k].name);
    Paths.CleanIsNotEmpty(if dir == "" then entries[k].name else dir + "/" + entries[k].name);
  }

  /**
   Given one directory twice, however it is spelled, the keys are distinct only if there is nothing
   to report or so much that the cap leaves the second scan's issues alone.
   */
  lemma SameDirectoryTwiceIff(prefix: string, entries: seq<DirEntry>, dir: string, dir': string, now: nat)
    requires Listing(entries) && Paths.Clean(dir) == Paths.Clean(dir')
    ensures var count := |ScanOf(entries, dir, Builtin, now).issues|;
      Banners.Distinct(Published(prefix, entries, dir, entries, dir', now)) <==> count == 0 || count >= 50
  {
    var a, b := ScanOf(entries, dir, Builtin, now).issues, ScanOf(entries, dir', Plugin, now).issues;
    SameIssues(entries, dir, dir', now);
    ScanIssuesAreDistinct(entries, dir, Builtin, now);
    ScanIssuesAreDistinct(entries, dir', Plugin, now);
    forall i | 0 <= i < |a| ensures a[i].dir != "" {
      NamedIsNotEmpty(a[i], entries, dir);
    }
    TwoListsOfOne(prefix, a, b);
  }
}
