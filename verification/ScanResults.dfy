/** What a scan of a directory finds, said of the directory's entries alone: which scripts, and what is wrong with the rest. */
module ScanResults {
  import opened Wrappers
  import opened Registry
  import Paths

  /** A sub-directory that is looked at. */
  predicate Considered(entry: DirEntry) {
    entry.isDir && entry.name != "_lib"
  }

  /** It holds a script with this id: readable, well-formed, with a main file. */
  predicate HoldsScript(entry: DirEntry, id: string) {
    Considered(entry) && entry.json.Parsed? && entry.json.id == id && id != "" && entry.hasMain
  }

  /** The first entry that holds the script. */
  predicate FirstToHold(entries: seq<DirEntry>, i: nat, id: string) {
    i < |entries| && HoldsScript(entries[i], id) && forall k :: 0 <= k < i ==> !HoldsScript(entries[k], id)
  }

  /** The first entry that holds the script is in this directory. */
  predicate HeldIn(entries: seq<DirEntry>, dir: string, id: string, path: string) {
    exists k :: 0 <= k < |entries| && FirstToHold(entries, k, id) && path == Paths.Join(dir, entries[k].name)
  }

  /** What is wrong with an entry, given those before it. */
  predicate Wrong(before: seq<DirEntry>, entry: DirEntry, dir: string, why: Why) {
    Considered(entry) &&
    match why
    case ReadFailed(text) => entry.json == Unreadable(text)
    case ParseFailed(text) => entry.json == Unparsable(text)
    case MissingID => entry.json.Parsed? && entry.json.id == ""
    case MissingMain => entry.json.Parsed? && entry.json.id != "" && !entry.hasMain
    case Duplicate(id, firstDir) => HoldsScript(entry, id) && HeldIn(before, dir, id, firstDir)
  }

  lemma OffersIsHolds(entry: DirEntry, id: string)
    ensures Offers(entry, id) <==> HoldsScript(entry, id)
  {}

  lemma {:induction false} FirstOfferIsFirstToHold(entries: seq<DirEntry>, id: string)
    ensures FirstOffer(entries, id) < |entries| <==> exists i :: 0 <= i < |entries| && HoldsScript(entries[i], id)
    ensures FirstOffer(entries, id) < |entries| ==> FirstToHold(entries, FirstOffer(entries, id), id)
  {
    FirstOfferIsFirst(entries, id);
    forall i | 0 <= i < |entries| ensures Offers(entries[i], id) <==> HoldsScript(entries[i], id) {
      OffersIsHolds(entries[i], id);
    }
  }

  lemma FirstIsUnique(entries: seq<DirEntry>, i: nat, k: nat, id: string)
    requires FirstToHold(entries, i, id) && FirstToHold(entries, k, id)
    ensures i == k
  {}

  /**
   A script is registered exactly if some sub-directory holds it, and then it is the one of the first
   that does: with that one's text, directory and the source of the scan.
   */
  lemma RegisteredIff(entries: seq<DirEntry>, dir: string, source: Source, now: nat, id: string)
    ensures id in ScanOf(entries, dir, source, now).scripts <==> exists i :: 0 <= i < |entries| && HoldsScript(entries[i], id)
    ensures forall i: nat :: FirstToHold(entries, i, id) ==>
              && id in ScanOf(entries, dir, source, now).scripts
              && ScanOf(entries, dir, source, now).scripts[id]
                 == Script(id, entries[i].json.body, source, Paths.Join(dir, entries[i].name))
  {
    FirstDirectoryWins(entries, dir, source, now, id);
    FirstOfferIsFirstToHold(entries, id);
    forall i: nat | FirstToHold(entries, i, id) ensures i == FirstOffer(entries, id) {
      FirstIsUnique(entries, i, FirstOffer(entries, id), id);
    }
  }

  lemma RegisteredIn(entries: seq<DirEntry>, dir: string, source: Source, now: nat, id: string, path: string)
    ensures var scripts := ScanOf(entries, dir, source, now).scripts;
      id in scripts && scripts[id].dir == path <==> HeldIn(entries, dir, id, path)
  {
    RegisteredIff(entries, dir, source, now, id);
    FirstOfferIsFirstToHold(entries, id);
  }

  /** What a scan has to say against an entry, if anything: it is one thing. */
  function Complaint(scan: Scan, entry: DirEntry): Option<Why> {
    if !IsCandidate(entry) then None
    else match LoadScript(entry)
      case Bad(error) => Some(error)
      case Ok(id, _) => if id in scan.scripts then Some(Duplicate(id, scan.scripts[id].dir)) else None
  }

  lemma ComplaintIsWrong(entries: seq<DirEntry>, entry: DirEntry, dir: string, source: Source, now: nat, why: Why)
    ensures Complaint(ScanOf(entries, dir, source, now), entry) == Some(why) <==> Wrong(entries, entry, dir, why)
  {
    if why.Duplicate? {
      RegisteredIn(entries, dir, source, now, why.id, why.firstDir);
    }
  }

  lemma IssueOfEntry(scan: Scan, entry: DirEntry, dir: string, source: Source, now: nat, issue: LoadIssue)
    ensures issue in AfterEntry(scan, entry, dir, source, now).issues <==>
              || issue in scan.issues
              || (issue == LoadIssue(Paths.Join(dir, entry.name), source, issue.error, now)
                  && Complaint(scan, entry) == Some(issue.error))
  {}

  /** The issue is about the i-th entry. */
  predicate About(issue: LoadIssue, entries: seq<DirEntry>, i: nat, dir: string, source: Source, now: nat)
    requires i < |entries|
  {
    && issue == LoadIssue(Paths.Join(dir, entries[i].name), source, issue.error, now)
    && Wrong(entries[..i], entries[i], dir, issue.error)
  }

  lemma AboutPrefix(issue: LoadIssue, entries: seq<DirEntry>, i: nat, n: nat, dir: string, source: Source, now: nat)
    requires i < n <= |entries|
    ensures About(issue, entries, i, dir, source, now) <==> About(issue, entries[..n], i, dir, source, now)
  {
    assert entries[..n][..i] == entries[..i];
  }

  ghost predicate AboutSome(issue: LoadIssue, entries: seq<DirEntry>, dir: string, source: Source, now: nat) {
    exists i :: 0 <= i < |entries| && About(issue, entries, i, dir, source, now)
  }

  lemma AboutSomeStep(issue: LoadIssue, entries: seq<DirEntry>, dir: string, source: Source, now: nat)
    requires entries != []
    ensures var n := |entries| - 1;
      AboutSome(issue, entries, dir, source, now) <==>
        AboutSome(issue, entries[..n], dir, source, now) || About(issue, entries, n, dir, source, now)
  {
    var n := |entries| - 1;
    if AboutSome(issue, entries[..n], dir, source, now) {
      var i :| 0 <= i < n && About(issue, entries[..n], i, dir, source, now);
      AboutPrefix(issue, entries, i, n, dir, source, now);
    }
    if AboutSome(issue, entries, dir, source, now) {
      var i :| 0 <= i < |entries| && About(issue, entries, i, dir, source, now);
      if i < n {
        AboutPrefix(issue, entries, i, n, dir, source, now);
      }
    }
  }

  /** An issue is reported exactly if it says what is wrong with some sub-directory. */
  lemma {:induction false} ReportedIff(entries: seq<DirEntry>, dir: string, source: Source, now: nat, issue: LoadIssue)
    ensures issue in ScanOf(entries, dir, source, now).issues <==> AboutSome(issue, entries, dir, source, now)
  {
    if entries != [] {
      var n := |entries| - 1;
      ReportedIff(entries[..n], dir, source, now, issue);
      AboutSomeStep(issue, entries, dir, source, now);
      IssueOfEntry(ScanOf(entries[..n], dir, source, now), entries[n], dir, source, now, issue);
      ComplaintIsWrong(entries[..n], entries[n], dir, source, now, issue.error);
    }
  }
}
