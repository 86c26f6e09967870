/**
 The half of the frontend's list that is not a mirror of the reservoir: toasts and critical entries.
 What is in it after any session, in which order, and when each entry leaves.
 */
module PassingEntries {
  import opened Wrappers
  import opened Banners
  import opened NotificationStack

  predicate Passing(item: Notification) {
    item.input.persistence != Ongoing
  }

  // ----- What the list operations do to one entry -----

  lemma {:induction false} IdInside(items: seq<Notification>, item: Notification)
    requires item in items
    ensures item.id in Ids(items)
  {
    if items[0] != item {
      IdInside(items[1..], item);
    }
  }

  lemma {:induction false} SameIdSameEntry(items: seq<Notification>, a: Notification, b: Notification)
    requires Unique(items) && a in items && b in items && a.id == b.id
    ensures a == b
  {
    if items[0] == a && items[0] != b {
      IdInside(items[1..], b);
    } else if items[0] == b && items[0] != a {
      IdInside(items[1..], a);
    } else if items[0] != a {
      SameIdSameEntry(items[1..], a, b);
    }
  }

  lemma {:induction false} FoundIsOngoing(items: seq<Notification>, key: string)
    requires Find(items, key).Some?
    ensures Find(items, key).value in items && OngoingWith(Find(items, key).value, key)
  {
    if !OngoingWith(items[0], key) {
      FoundIsOngoing(items[1..], key);
    }
  }

  lemma {:induction false} InSwap(items: seq<Notification>, id: nat, item: Notification, other: Notification)
    requires other != item
    ensures other in Swap(items, id, item) <==> other in items && other.id != id
  {
    if items != [] {
      InSwap(items[1..], id, item, other);
    }
  }

  lemma {:induction false} InWithoutKey(items: seq<Notification>, key: string, item: Notification)
    ensures item in WithoutKey(items, key) <==> item in items && item.input.key != key
  {
    if items != [] {
      InWithoutKey(items[1..], key, item);
    }
  }

  lemma {:induction false} InWithoutId(items: seq<Notification>, id: nat, item: Notification)
    ensures item in WithoutId(items, id) <==> item in items && item.id != id
  {
    if items != [] {
      InWithoutId(items[1..], id, item);
    }
  }

  lemma {:induction false} InNotOngoing(items: seq<Notification>, item: Notification)
    ensures item in NotOngoing(items) <==> item in items && Passing(item)
  {
    if items != [] {
      InNotOngoing(items[1..], item);
    }
  }

  /** Entries with an expiry or of the critical pane come last, those in flight not at all. */
  predicate Lands(input: Input) {
    input.persistence == OneShot || input.persistence == Catastrophic
  }

  lemma AddOnPassing(stack: Stack, input: Input, item: Notification)
    requires FreshIds(stack) && Passing(item)
    ensures item in AddNotification(stack, input).items
      <==> item in stack.items || (Lands(input) && item == Notification(stack.nextId, input))
  {
    if input.persistence == Ongoing && input.key != "" && Find(stack.items, input.key).Some? {
      var found := Find(stack.items, input.key).value;
      FoundIsOngoing(stack.items, input.key);
      InSwap(stack.items, found.id, Notification(stack.nextId, input), item);
      if item in stack.items && item.id == found.id {
        SameIdSameEntry(stack.items, item, found);
      }
    }
  }

  lemma ReplaceOnPassing(stack: Stack, inputs: seq<Input>, item: Notification)
    requires Passing(item)
    ensures item in ReplaceOngoing(stack, inputs).items <==> item in stack.items
  {
    InNotOngoing(stack.items, item);
    assert forall n :: n in Numbered(inputs, stack.nextId) ==> n.input.persistence == Ongoing;
  }

  // ----- One operation -----

  /** The entry, if any, that an operation adds: an event that belongs on the pane or in a toast, or the frontend's own. */
  function Adds(op: Op): Option<Input> {
    match op
    case Report(ev) =>
      if ForPane(ev) then Some(Input(ev.severity, Catastrophic, ev.key, ev.detail))
      else if OnlyLogged(ev) || ForRun(ev) || ForBanner(ev) then None
      else Some(Input(ev.severity, OneShot, ev.key, ev.detail))
    case Raise(input) => if Lands(input) then Some(input) else None
    case _ => None
  }

  /** It goes by its own id, or with everything that has its key. */
  predicate TakesAway(op: Op, item: Notification) {
    match op
    case Dismiss(key) => key != "" && item.input.key == key
    case Remove(id) => item.id == id
    case _ => false
  }

  lemma ReportOnPassing(stack: Stack, ev: Event, item: Notification)
    requires FreshIds(stack) && Passing(item)
    ensures item in ReceiveAll(stack, Route(ev)).items
      <==> item in stack.items || (Adds(Report(ev)) == Some(item.input) && item.id == stack.nextId)
  {
    ReceiveRouted(stack, ev);
    if Route(ev) != [] {
      match Route(ev)[0] {
        case Toast(payload) => AddOnPassing(stack, PayloadToInput(payload, OneShot), item);
        case Banner(payload) => AddOnPassing(stack, PayloadToInput(payload, Ongoing), item);
        case CriticalPane(payload) => AddOnPassing(stack, PayloadToInput(payload, Catastrophic), item);
        case _ =>
      }
    }
  }

  /** What one operation of either side does to the toasts and critical entries: banners and their lists leave them alone. */
  lemma PerformOnPassing(session: Session, op: Op, item: Notification)
    requires FreshIds(session.stack) && Passing(item)
    ensures item in Perform(session, op).stack.items
      <==> (item in session.stack.items && !TakesAway(op, item))
           || (Adds(op) == Some(item.input) && item.id == session.stack.nextId)
  {
    match op
    case Report(ev) => ReportOnPassing(session.stack, ev, item);
    case Dismiss(key) => InWithoutKey(session.stack.items, key, item);
    case Replace(prefix, batch) =>
      ReplaceOnPassing(session.stack, InputsOf(AfterReplace(session.banners, prefix, batch)), item);
    case Remove(id) => InWithoutId(session.stack.items, id, item);
    case Raise(input) => AddOnPassing(session.stack, input, item);
  }

  // ----- Whole sessions -----

  /** The operation at `i` added the entry, and none since took it away. */
  predicate AddedAndKept(ops: seq<Op>, i: nat, item: Notification)
    requires i < |ops|
  {
    && Adds(ops[i]) == Some(item.input) && item.id == PerformFreely(ops[..i]).stack.nextId
    && forall j :: i < j < |ops| ==> !TakesAway(ops[j], item)
  }

  ghost predicate StillThere(ops: seq<Op>, item: Notification) {
    exists i :: 0 <= i < |ops| && AddedAndKept(ops, i, item)
  }

  lemma StillThereStep(ops: seq<Op>, last: Op, item: Notification)
    ensures StillThere(ops + [last], item)
      <==> (StillThere(ops, item) && !TakesAway(last, item))
           || (Adds(last) == Some(item.input) && item.id == PerformFreely(ops).stack.nextId)
  {
    var all := ops + [last];
    assert all[..|ops|] == ops;
    if StillThere(all, item) {
      var i :| 0 <= i < |all| && AddedAndKept(all, i, item);
      if i < |ops| {
        assert all[..i] == ops[..i] && all[|ops|] == last;
        assert forall j :: i < j < |ops| ==> all[j] == ops[j];
        assert AddedAndKept(ops, i, item);
      }
    }
    if StillThere(ops, item) && !TakesAway(last, item) {
      var i :| 0 <= i < |ops| && AddedAndKept(ops, i, item);
      assert all[..i] == ops[..i];
      assert AddedAndKept(all, i, item);
    }
    if Adds(last) == Some(item.input) && item.id == PerformFreely(ops).stack.nextId {
      assert AddedAndKept(all, |ops|, item);
    }
  }

  /**
   After any session at all, the toasts and critical entries on the list are exactly those that some
   operation added and none since took away.
   */
  lemma {:induction false} ListedIffStillThere(ops: seq<Op>, item: Notification)
    requires Passing(item)
    ensures item in PerformFreely(ops).stack.items <==> StillThere(ops, item)
  {
    if ops != [] {
      var before, last := ops[..|ops| - 1], ops[|ops| - 1];
      ListedIffStillThere(before, item);
      FreshIdsAlways(before);
      PerformOnPassing(PerformFreely(before), last, item);
      StillThereStep(before, last, item);
      assert ops == before + [last];
    }
  }

  // ----- Their order -----

  /** Going down the list, the ids of the passing entries grow. */
  predicate Ordered(items: seq<Notification>) {
    items == [] || ((Passing(items[0]) ==> Above(items[1..], items[0].id)) && Ordered(items[1..]))
  }

  predicate Above(items: seq<Notification>, id: nat) {
    forall n :: n in items && Passing(n) ==> id < n.id
  }

  lemma {:induction false} SwapStaysOrdered(items: seq<Notification>, id: nat, item: Notification)
    requires Ordered(items) && !Passing(item)
    ensures Ordered(Swap(items, id, item))
    ensures forall n :: n in Swap(items, id, item) && Passing(n) ==> n in items
  {
    if items != [] {
      SwapStaysOrdered(items[1..], id, item);
      assert Swap(items, id, item)[1..] == Swap(items[1..], id, item);
    }
  }

  lemma {:induction false} WithoutKeyStaysOrdered(items: seq<Notification>, key: string)
    requires Ordered(items)
    ensures Ordered(WithoutKey(items, key))
    ensures forall n :: n in WithoutKey(items, key) ==> n in items
  {
    if items != [] {
      WithoutKeyStaysOrdered(items[1..], key);
      if items[0].input.key == key {
        assert WithoutKey(items, key) == WithoutKey(items[1..], key);
      } else {
        assert WithoutKey(items, key)[1..] == WithoutKey(items[1..], key);
      }
    }
  }

  lemma {:induction false} WithoutIdStaysOrdered(items: seq<Notification>, id: nat)
    requires Ordered(items)
    ensures Ordered(WithoutId(items, id))
    ensures forall n :: n in WithoutId(items, id) ==> n in items
  {
    if items != [] {
      WithoutIdStaysOrdered(items[1..], id);
      if items[0].id == id {
        assert WithoutId(items, id) == WithoutId(items[1..], id);
      } else {
        assert WithoutId(items, id)[1..] == WithoutId(items[1..], id);
      }
    }
  }

  lemma {:induction false} NotOngoingStaysOrdered(items: seq<Notification>)
    requires Ordered(items)
    ensures Ordered(NotOngoing(items))
    ensures forall n :: n in NotOngoing(items) ==> n in items
  {
    if items != [] {
      NotOngoingStaysOrdered(items[1..]);
      if Passing(items[0]) {
        assert NotOngoing(items)[1..] == NotOngoing(items[1..]);
      } else {
        assert NotOngoing(items) == NotOngoing(items[1..]);
      }
    }
  }

  /** New entries at the end keep the order if the passing ones among them are ordered and newer. */
  lemma {:induction false} AppendStaysOrdered(items: seq<Notification>, more: seq<Notification>)
    requires Ordered(items) && Ordered(more)
    requires forall a, b :: a in items && b in more && Passing(b) ==> a.id < b.id
    ensures Ordered(items + more)
  {
    if items == [] {
      assert items + more == more;
    } else {
      assert (items + more)[0] == items[0] && (items + more)[1..] == items[1..] + more;
      AppendStaysOrdered(items[1..], more);
    }
  }

  lemma {:induction false} BannersAreOrdered(items: seq<Notification>)
    requires forall n :: n in items ==> !Passing(n)
    ensures Ordered(items)
  {
    if items != [] {
      BannersAreOrdered(items[1..]);
    }
  }

  lemma AllOlder(stack: Stack, item: Notification)
    requires FreshIds(stack) && item in stack.items
    ensures item.id < stack.nextId
  {
    IdInside(stack.items, item);
  }

  lemma AddStaysOrdered(stack: Stack, input: Input)
    requires FreshIds(stack) && Ordered(stack.items)
    ensures Ordered(AddNotification(stack, input).items)
  {
    var item := Notification(stack.nextId, input);
    if input.persistence == Ongoing && input.key != "" && Find(stack.items, input.key).Some? {
      SwapStaysOrdered(stack.items, Find(stack.items, input.key).value.id, item);
    } else {
      forall a | a in stack.items ensures a.id < item.id {
        AllOlder(stack, a);
      }
      assert [item][1..] == [] && Ordered([item]);
      AppendStaysOrdered(stack.items, [item]);
    }
  }

  lemma ReplaceStaysOrdered(stack: Stack, inputs: seq<Input>)
    requires Ordered(stack.items)
    ensures Ordered(ReplaceOngoing(stack, inputs).items)
  {
    NotOngoingStaysOrdered(stack.items);
    BannersAreOrdered(Numbered(inputs, stack.nextId));
    AppendStaysOrdered(NotOngoing(stack.items), Numbered(inputs, stack.nextId));
  }

  lemma ReceiveStaysOrdered(stack: Stack, ev: UiEvent)
    requires FreshIds(stack) && Ordered(stack.items)
    ensures Ordered(Receive(stack, ev).items)
  {
    match ev
    case Toast(payload) => AddStaysOrdered(stack, PayloadToInput(payload, OneShot));
    case Banner(payload) => AddStaysOrdered(stack, PayloadToInput(payload, Ongoing));
    case BannerDismiss(key) => WithoutKeyStaysOrdered(stack.items, key);
    case CriticalPane(payload) => AddStaysOrdered(stack, PayloadToInput(payload, Catastrophic));
    case BannersList(payloads) => ReplaceStaysOrdered(stack, InputsOf(payloads));
    case RunError(_) =>
  }

  lemma PerformStaysOrdered(session: Session, op: Op)
    requires FreshIds(session.stack) && Ordered(session.stack.items)
    ensures Ordered(Perform(session, op).stack.items)
  {
    match op
    case Report(ev) =>
      ReceiveRouted(session.stack, ev);
      if Route(ev) != [] {
        ReceiveStaysOrdered(session.stack, Route(ev)[0]);
      }
    case Dismiss(key) => ReceiveStaysOrdered(session.stack, BannerDismiss(key));
    case Replace(prefix, batch) =>
      ReceiveStaysOrdered(session.stack, BannersList(AfterReplace(session.banners, prefix, batch)));
    case Remove(id) => WithoutIdStaysOrdered(session.stack.items, id);
    case Raise(input) => AddStaysOrdered(session.stack, input);
  }

  lemma NextIdAfter(session: Session, op: Op)
    ensures Perform(session, op).stack.nextId >= session.stack.nextId + if Adds(op).Some? then 1 else 0
  {
    if op.Report? {
      ReceiveRouted(session.stack, op.ev);
    }
  }

  /** Ids are handed out in the order of the operations. */
  lemma {:induction false} LaterIsNewer(ops: seq<Op>, i: nat, j: nat)
    requires i < j <= |ops| && Adds(ops[i]).Some?
    ensures PerformFreely(ops[..i]).stack.nextId < PerformFreely(ops[..j]).stack.nextId
    decreases j
  {
    assert ops[..j][..j - 1] == ops[..j - 1];
    NextIdAfter(PerformFreely(ops[..j - 1]), ops[j - 1]);
    if i < j - 1 {
      LaterIsNewer(ops, i, j - 1);
    }
  }

  /** After any session the passing entries stand in the order of their ids, each once. */
  lemma {:induction false} ListIsOrdered(ops: seq<Op>)
    ensures Ordered(PerformFreely(ops).stack.items) && Unique(PerformFreely(ops).stack.items)
  {
    FreshIdsAlways(ops);
    if ops != [] {
      var before, last := ops[..|ops| - 1], ops[|ops| - 1];
      ListIsOrdered(before);
      FreshIdsAlways(before);
      PerformStaysOrdered(PerformFreely(before), last);
    }
  }

  // ----- From the report to the screen -----

  lemma SameIdSameOp(ops: seq<Op>, i: nat, k: nat)
    requires i < |ops| && k < |ops| && Adds(ops[i]).Some? && Adds(ops[k]).Some?
    requires PerformFreely(ops[..i]).stack.nextId == PerformFreely(ops[..k]).stack.nextId
    ensures i == k
  {
    if i < k {
      LaterIsNewer(ops, i, k);
    } else if k < i {
      LaterIsNewer(ops, k, i);
    }
  }

  /** None of the operations takes the entry away. */
  predicate Spares(later: seq<Op>, item: Notification) {
    forall j :: 0 <= j < |later| ==> !TakesAway(later[j], item)
  }

  lemma SparedIsThere(ops: seq<Op>, op: Op, later: seq<Op>, item: Notification)
    requires Adds(op) == Some(item.input) && item.id == PerformFreely(ops).stack.nextId && Spares(later, item)
    ensures StillThere(ops + [op] + later, item)
  {
    var all := ops + [op] + later;
    assert all[..|ops|] == ops && all[|ops|] == op;
    forall j | |ops| < j < |all| ensures !TakesAway(all[j], item) {
      assert all[j] == later[j - |ops| - 1];
    }
    assert AddedAndKept(all, |ops|, item);
  }

  lemma ThereIsSpared(ops: seq<Op>, op: Op, later: seq<Op>, item: Notification)
    requires Adds(op) == Some(item.input) && item.id == PerformFreely(ops).stack.nextId
    requires StillThere(ops + [op] + later, item)
    ensures Spares(later, item)
  {
    var all := ops + [op] + later;
    assert all[..|ops|] == ops && all[|ops|] == op;
    var i :| 0 <= i < |all| && AddedAndKept(all, i, item);
    SameIdSameOp(all, i, |ops|);
    forall j | 0 <= j < |later| ensures !TakesAway(later[j], item) {
      assert all[|ops| + 1 + j] == later[j];
    }
  }

  /**
   What is reported as a toast or for the pane, or raised by the frontend, is put on the list, and it
   stays there, whatever else happens, exactly until its own id or its own key is taken away.
   */
  lemma ShownUntilTakenAway(ops: seq<Op>, op: Op, later: seq<Op>)
    requires Adds(op).Some?
    ensures var item := Notification(PerformFreely(ops).stack.nextId, Adds(op).value);
      item in PerformFreely(ops + [op] + later).stack.items <==> Spares(later, item)
  {
    var item := Notification(PerformFreely(ops).stack.nextId, Adds(op).value);
    ListedIffStillThere(ops + [op] + later, item);
    if StillThere(ops + [op] + later, item) {
      ThereIsSpared(ops, op, later, item);
    }
    if Spares(later, item) {
      SparedIsThere(ops, op, later, item);
    }
  }
}
