/** The central reservoir: the list of ongoing banners and the UI events each operation emits. */
module Banners {
  datatype Severity = Info | Warn | Error | Critical
  datatype Persistence = OneShot | Ongoing | InFlight | Catastrophic

  datatype Detail = Detail(source: string, title: string, message: string, runID: string, scriptID: string, traceback: string)

  /** An event; its payload carries the same fields, so the model uses the event for both. */
  datatype Event = Event(
    id: string, severity: Severity, persistence: Persistence, key: string, detail: Detail, timestamp: nat)

  datatype UiEvent =
    | Toast(payload: Event)
    | Banner(payload: Event)
    | BannerDismiss(key: string)
    | CriticalPane(payload: Event)
    | BannersList(payloads: seq<Event>)
    | RunError(payload: Event)

  /** A fresh id and the current time. */
  datatype Stamp = Stamp(id: string, now: nat)

  /** Fill in what the caller left out; timestamp 0 is Go's zero time. */
  function Stamped(ev: Event, stamp: Stamp): Event {
    ev.(id := if ev.id == "" then stamp.id else ev.id, timestamp := if ev.timestamp == 0 then stamp.now else ev.timestamp)
  }

  /** What the caller gave stays, what it left out is filled in once, and nothing else changes. */
  lemma StampingFillsIn(ev: Event, stamp: Stamp, later: Stamp)
    ensures var stamped := Stamped(ev, stamp);
      && stamped.(id := ev.id, timestamp := ev.timestamp) == ev
      && (ev.id != "" ==> stamped.id == ev.id) && (ev.timestamp != 0 ==> stamped.timestamp == ev.timestamp)
      && (ev.id == "" ==> stamped.id == stamp.id) && (ev.timestamp == 0 ==> stamped.timestamp == stamp.now)
      && (stamp.id != "" && stamp.now != 0 ==> Stamped(stamped, later) == stamped)
  {}

  predicate AtLeastError(severity: Severity) {
    severity == Error || severity == Critical
  }

  /** `routeWails`: which surface an event goes to. */
  function Route(ev: Event): seq<UiEvent> {
    if ev.severity == Critical then [CriticalPane(ev)]
    else match ev.persistence
      case Catastrophic => [CriticalPane(ev)]
      case Ongoing => [Banner(ev)]
      case InFlight => if AtLeastError(ev.severity) && ev.detail.runID != "" then [RunError(ev)] else [Toast(ev)]
      case OneShot => if ev.severity == Info then [] else [Toast(ev)]
  }

  predicate OnlyLogged(ev: Event) {
    ev.severity == Info && ev.persistence == OneShot
  }

  predicate ForPane(ev: Event) {
    ev.severity == Critical || ev.persistence == Catastrophic
  }

  predicate ForRun(ev: Event) {
    ev.severity == Error && ev.persistence == InFlight && ev.detail.runID != ""
  }

  predicate ForBanner(ev: Event) {
    ev.persistence == Ongoing && ev.severity != Critical
  }

  /**
   Only a passing remark stays in the log; whatever else there is is shown on one surface: what is
   critical or catastrophic on the pane, an error of a run with its run, a condition as a banner, the
   rest as a toast.
   */
  lemma SeriousEventsAreShown(ev: Event)
    ensures Route(ev) == [] <==> OnlyLogged(ev)
    ensures Route(ev) == [CriticalPane(ev)] <==> ForPane(ev)
    ensures Route(ev) == [RunError(ev)] <==> ForRun(ev)
    ensures Route(ev) == [Banner(ev)] <==> ForBanner(ev)
    ensures Route(ev) == [Toast(ev)] <==> !OnlyLogged(ev) && !ForPane(ev) && !ForRun(ev) && !ForBanner(ev)
  {}

  /** Replace the first banner with this key, or append; an empty key never matches. */
  function Upsert(banners: seq<Event>, ev: Event): seq<Event> {
    if banners == [] then [ev]
    else if ev.key != "" && banners[0].key == ev.key then [ev] + banners[1..]
    else [banners[0]] + Upsert(banners[1..], ev)
  }

  function DropFirst(banners: seq<Event>, key: string): seq<Event> {
    if banners == [] then []
    else if banners[0].key == key then banners[1..]
    else [banners[0]] + DropFirst(banners[1..], key)
  }

  function OutsidePrefix(banners: seq<Event>, prefix: string): seq<Event> {
    if banners == [] then []
    else (if prefix <= banners[0].key then [] else [banners[0]]) + OutsidePrefix(banners[1..], prefix)
  }

  function StampAll(evs: seq<Event>, stamps: seq<Stamp>): seq<Event>
    requires |evs| <= |stamps|
  {
    if evs == [] then [] else [Stamped(evs[0], stamps[0])] + StampAll(evs[1..], stamps[1..])
  }

  function AfterReport(banners: seq<Event>, ev: Event): seq<Event> {
    if ev.persistence == Ongoing then Upsert(banners, ev) else banners
  }

  function AfterDismiss(banners: seq<Event>, key: string): seq<Event> {
    if key == "" then banners else DropFirst(banners, key)
  }

  function AfterReplace(banners: seq<Event>, prefix: string, replacements: seq<Event>): seq<Event> {
    OutsidePrefix(banners, prefix) + replacements
  }

  /** Non-empty keys are pairwise distinct. */
  predicate Distinct(banners: seq<Event>) {
    forall i, j :: 0 <= i < j < |banners| && banners[i].key != "" ==> banners[i].key != banners[j].key
  }

  predicate HasKey(banners: seq<Event>, key: string) {
    exists i :: 0 <= i < |banners| && banners[i].key == key
  }

  lemma {:induction false} UpsertKeys(banners: seq<Event>, ev: Event, key: string)
    ensures HasKey(Upsert(banners, ev), key) <==> HasKey(banners, key) || key == ev.key
  {
    HasKeyStep(Upsert(banners, ev), key);
    if banners != [] {
      HasKeyStep(banners, key);
      if !(ev.key != "" && banners[0].key == ev.key) {
        UpsertKeys(banners[1..], ev, key);
        assert Upsert(banners, ev)[1..] == Upsert(banners[1..], ev);
      } else {
        assert Upsert(banners, ev)[1..] == banners[1..];
      }
    } else {
      assert Upsert(banners, ev)[1..] == [];
    }
  }

  lemma HasKeyStep(banners: seq<Event>, key: string)
    ensures HasKey(banners, key) <==> banners != [] && (banners[0].key == key || HasKey(banners[1..], key))
  {
    if banners != [] && HasKey(banners[1..], key) {
      var i :| 0 <= i < |banners[1..]| && banners[1..][i].key == key;
      assert banners[i + 1].key == key;
    }
    if HasKey(banners, key) && banners[0].key != key {
      var i :| 0 <= i < |banners| && banners[i].key == key;
      assert banners[1..][i - 1].key == key;
    }
  }

  lemma DistinctStep(banners: seq<Event>)
    requires banners != []
    ensures Distinct(banners) <==> Distinct(banners[1..]) && (banners[0].key != "" ==> !HasKey(banners[1..], banners[0].key))
  {
    if Distinct(banners[1..]) && (banners[0].key != "" ==> !HasKey(banners[1..], banners[0].key)) {
      forall i, j | 0 <= i < j < |banners| && banners[i].key != "" ensures banners[i].key != banners[j].key {
        assert banners[j] == banners[1..][j - 1];
        if i > 0 {
          assert banners[i] == banners[1..][i - 1];
        }
      }
    }
  }

  lemma {:induction false} UpsertKeepsDistinct(banners: seq<Event>, ev: Event)
    requires Distinct(banners)
    ensures Distinct(Upsert(banners, ev))
  {
    if banners != [] {
      var after := Upsert(banners, ev);
      DistinctStep(banners);
      DistinctStep(after);
      if ev.key != "" && banners[0].key == ev.key {
        assert after[1..] == banners[1..];
      } else {
        assert after[1..] == Upsert(banners[1..], ev);
        UpsertKeepsDistinct(banners[1..], ev);
        UpsertKeys(banners[1..], ev, banners[0].key);
      }
    }
  }

  lemma {:induction false} DropFirstKeepsDistinct(banners: seq<Event>, key: string)
    requires Distinct(banners)
    ensures Distinct(DropFirst(banners, key))
    ensures forall k :: HasKey(DropFirst(banners, key), k) ==> HasKey(banners, k)
  {
    if banners != [] {
      var after := DropFirst(banners, key);
      DistinctStep(banners);
      if banners[0].key != key {
        assert after[1..] == DropFirst(banners[1..], key);
        DropFirstKeepsDistinct(banners[1..], key);
        DistinctStep(after);
      }
      forall k | HasKey(after, k) ensures HasKey(banners, k) {
        HasKeyStep(after, k);
        HasKeyStep(banners, k);
      }
    }
  }

  lemma {:induction false} OutsidePrefixKeeps(banners: seq<Event>, prefix: string)
    ensures forall k :: HasKey(OutsidePrefix(banners, prefix), k) ==> HasKey(banners, k) && !(prefix <= k)
    ensures Distinct(banners) ==> Distinct(OutsidePrefix(banners, prefix))
  {
    if banners != [] {
      var after, rest := OutsidePrefix(banners, prefix), OutsidePrefix(banners[1..], prefix);
      OutsidePrefixKeeps(banners[1..], prefix);
      DistinctStep(banners);
      if !(prefix <= banners[0].key) {
        assert after[1..] == rest;
        DistinctStep(after);
      }
      forall k | HasKey(after, k) ensures HasKey(banners, k) && !(prefix <= k) {
        HasKeyStep(after, k);
        HasKeyStep(banners, k);
        assert HasKey(rest, k) || (k == banners[0].key && !(prefix <= k));
      }
    }
  }

  /** Some of the banners, in the order of all of them. */
  ghost predicate InOrder(some: seq<Event>, all: seq<Event>) {
    some == []
    || (all != [] && ((some[0] == all[0] && InOrder(some[1..], all[1..])) || InOrder(some, all[1..])))
  }

  lemma OutsidePrefixStep(banners: seq<Event>, prefix: string)
    requires banners != []
    ensures var after, rest := OutsidePrefix(banners, prefix), OutsidePrefix(banners[1..], prefix);
      if prefix <= banners[0].key then after == rest else after == [banners[0]] + rest
  {}

  /** Of the banners outside the prefix every one stays, and they stay in order. */
  lemma {:induction false} OthersStayInOrder(banners: seq<Event>, prefix: string)
    ensures InOrder(OutsidePrefix(banners, prefix), banners)
  {
    if banners != [] {
      OthersStayInOrder(banners[1..], prefix);
      OutsidePrefixStep(banners, prefix);
      if !(prefix <= banners[0].key) {
        assert OutsidePrefix(banners, prefix)[1..] == OutsidePrefix(banners[1..], prefix);
      }
    }
  }

  lemma {:induction false} OthersAllStay(banners: seq<Event>, prefix: string, banner: Event)
    ensures multiset(OutsidePrefix(banners, prefix))[banner] == if prefix <= banner.key then 0 else multiset(banners)[banner]
  {
    if banners != [] {
      OthersAllStay(banners[1..], prefix, banner);
      OutsidePrefixStep(banners, prefix);
      assert banners == [banners[0]] + banners[1..];
    }
  }

  lemma DistinctConcatIff(kept: seq<Event>, batch: seq<Event>)
    requires Distinct(kept)
    ensures Distinct(kept + batch) <==>
              && Distinct(batch)
              && forall i :: 0 <= i < |batch| && batch[i].key != "" ==> !HasKey(kept, batch[i].key)
  {
    var after := kept + batch;
    if Distinct(after) {
      forall i, j | 0 <= i < j < |batch| && batch[i].key != "" ensures batch[i].key != batch[j].key {
        assert after[|kept| + i] == batch[i] && after[|kept| + j] == batch[j];
      }
      forall i, k | 0 <= i < |batch| && batch[i].key != "" && 0 <= k < |kept| ensures kept[k].key != batch[i].key {
        assert after[k] == kept[k] && after[|kept| + i] == batch[i];
      }
    }
  }

  /** Replacing keeps the keys distinct iff the batch is distinct and meets no key that stays. */
  lemma ReplaceKeepsDistinctIff(banners: seq<Event>, prefix: string, batch: seq<Event>)
    requires Distinct(banners)
    ensures Distinct(AfterReplace(banners, prefix, batch)) <==>
              && Distinct(batch)
              && forall i :: 0 <= i < |batch| && batch[i].key != "" ==> !HasKey(OutsidePrefix(banners, prefix), batch[i].key)
  {
    OutsidePrefixKeeps(banners, prefix);
    DistinctConcatIff(OutsidePrefix(banners, prefix), batch);
  }

  /** In particular a batch of distinct keys that all carry the prefix keeps them distinct. */
  lemma PrefixedBatchKeepsDistinct(banners: seq<Event>, prefix: string, batch: seq<Event>)
    requires Distinct(banners) && Distinct(batch)
    requires forall i :: 0 <= i < |batch| ==> prefix <= batch[i].key
    ensures Distinct(AfterReplace(banners, prefix, batch))
  {
    OutsidePrefixKeeps(banners, prefix);
    ReplaceKeepsDistinctIff(banners, prefix, batch);
  }

  lemma {:induction false} StampAllKeeps(evs: seq<Event>, stamps: seq<Stamp>)
    requires |evs| <= |stamps|
    ensures |StampAll(evs, stamps)| == |evs|
    ensures forall i :: 0 <= i < |evs| ==> StampAll(evs, stamps)[i] == Stamped(evs[i], stamps[i])
  {
    if evs != [] {
      StampAllKeeps(evs[1..], stamps[1..]);
    }
  }

  /** What is left of an upsert at the i-th banner: it goes there, or further on. */
  lemma UpsertFrom(banners: seq<Event>, ev: Event, i: nat)
    requires i < |banners| && ev.key != ""
    ensures banners[..i] + Upsert(banners[i..], ev)
         == if banners[i].key == ev.key then banners[i := ev] else banners[..i + 1] + Upsert(banners[i + 1..], ev)
  {
    assert banners[i..][0] == banners[i] && banners[i..][1..] == banners[i + 1..];
  }

  class Reservoir {
    var wired: bool             // an app has been set
    var banners: seq<Event>
    var emitted: seq<UiEvent>
    var logged: seq<Event>

    constructor (wired: bool)
      ensures this.wired == wired && banners == [] && emitted == [] && logged == []
    {
      this.wired := wired;
      banners, emitted, logged := [], [], [];
    }

    method UpsertBanner(ev: Event)
      modifies this`banners
      ensures banners == Upsert(old(banners), ev)
    {
      if ev.key != "" {
        var i := 0;
        while i < |banners|
          invariant 0 <= i <= |banners| && banners == old(banners)
          invariant Upsert(banners, ev) == banners[..i] + Upsert(banners[i..], ev)
        {
          UpsertFrom(banners, ev, i);
          if banners[i].key == ev.key {
            banners := banners[i := ev];
            return;
          }
          i := i + 1;
        }
        assert banners[..i] == banners;
      }
      if ev.key == "" {
        UpsertAppends(banners, ev);
      }
      banners := banners + [ev];
    }

    method Report(input: Event, stamp: Stamp)
      modifies this`banners, this`emitted, this`logged
      ensures var ev := Stamped(input, stamp);
        && banners == AfterReport(old(banners), ev)
        && emitted == old(emitted) + (if wired then Route(ev) else [])
        && logged == old(logged) + [ev]
    {
      var ev := Stamped(input, stamp);
      logged := logged + [ev];
      if ev.persistence == Ongoing {
        UpsertBanner(ev);
      }
      if wired {
        emitted := emitted + Route(ev);
      }
    }

    method DismissBanner(key: string)
      modifies this`banners, this`emitted
      ensures banners == AfterDismiss(old(banners), key)
      ensures emitted == old(emitted) + if key != "" && wired then [BannerDismiss(key)] else []
    {
      if key == "" {
        return;
      }
      var i := 0;
      while i < |banners|
        invariant 0 <= i <= |banners| && banners == old(banners)
        invariant DropFirst(banners, key) == banners[..i] + DropFirst(banners[i..], key)
      {
        assert banners[i..][1..] == banners[i + 1..];
        if banners[i].key == key {
          banners := banners[..i] + banners[i + 1..];
          break;
        }
        i := i + 1;
      }
      if wired {
        emitted := emitted + [BannerDismiss(key)];
      }
    }

    method ReplaceBannersByPrefix(keyPrefix: string, replacements: seq<Event>, stamps: seq<Stamp>)
      requires |replacements| <= |stamps|
      modifies this`banners, this`emitted, this`logged
      ensures banners == AfterReplace(old(banners), keyPrefix, StampAll(replacements, stamps))
      ensures emitted == old(emitted) + if wired then [BannersList(banners)] else []
      ensures logged == old(logged) + replacements
    {
      var kept := [];
      var i := 0;
      while i < |banners|
        invariant 0 <= i <= |banners|
        invariant kept + OutsidePrefix(banners[i..], keyPrefix) == OutsidePrefix(banners, keyPrefix)
      {
        assert banners[i..][1..] == banners[i + 1..];
        if !(keyPrefix <= banners[i].key) {
          kept := kept + [banners[i]];
        }
        i := i + 1;
      }
      StampAllKeeps(replacements, stamps);
      i := 0;
      while i < |replacements|
        invariant 0 <= i <= |replacements|
        invariant kept == OutsidePrefix(banners, keyPrefix) + StampAll(replacements, stamps)[..i]
      {
        kept := kept + [Stamped(replacements[i], stamps[i])];
        i := i + 1;
      }
      banners := kept;
      logged := logged + replacements;
      if wired {
        emitted := emitted + [BannersList(banners)];
      }
    }

    method ListBanners() returns (out: seq<Event>)
      ensures out == banners
    {
      out := banners;
    }
  }

  lemma {:induction false} UpsertAppends(banners: seq<Event>, ev: Event)
    requires ev.key == ""
    ensures Upsert(banners, ev) == banners + [ev]
  {
    if banners != [] {
      UpsertAppends(banners[1..], ev);
    }
  }
}
