/**
 The frontend's notification list and its agreement with the reservoir: the list is rebuilt from
 emitted events by different rules than the Go list, and the ongoing entries must still match.
 */
module NotificationStack {
  import opened Sequences
  import opened Wrappers
  import opened Banners

  datatype Input = Input(severity: Severity, persistence: Persistence, key: string, detail: Detail)

  datatype Notification = Notification(id: nat, input: Input)

  /** The list, and the next id that `randomUUID` has not handed out. */
  datatype Stack = Stack(items: seq<Notification>, nextId: nat)

  function PayloadToInput(payload: Event, persistence: Persistence): Input {
    Input(payload.severity, persistence, payload.key, payload.detail)
  }

  predicate OngoingWith(item: Notification, key: string) {
    item.input.persistence == Ongoing && item.input.key == key
  }

  /** `prev.find(...)` for the entry that an ongoing banner with this key replaces. */
  function Find(items: seq<Notification>, key: string): Option<Notification> {
    if items == [] then None
    else if OngoingWith(items[0], key) then Some(items[0])
    else Find(items[1..], key)
  }

  /** `prev.map(n => n.id === id ? item : n)` */
  function Swap(items: seq<Notification>, id: nat, item: Notification): seq<Notification> {
    if items == [] then []
    else [if items[0].id == id then item else items[0]] + Swap(items[1..], id, item)
  }

  function AddNotification(stack: Stack, input: Input): Stack {
    var item := Notification(stack.nextId, input);
    var next := stack.nextId + 1;
    if input.persistence == InFlight then stack.(nextId := next)
    else if input.persistence == Ongoing && input.key != "" && Find(stack.items, input.key).Some?
    then Stack(Swap(stack.items, Find(stack.items, input.key).value.id, item), next)
    else Stack(stack.items + [item], next)
  }

  function WithoutKey(items: seq<Notification>, key: string): seq<Notification> {
    if items == [] then []
    else (if items[0].input.key == key then [] else [items[0]]) + WithoutKey(items[1..], key)
  }

  function NotOngoing(items: seq<Notification>): seq<Notification> {
    if items == [] then []
    else (if items[0].input.persistence == Ongoing then [] else [items[0]]) + NotOngoing(items[1..])
  }

  function Numbered(inputs: seq<Input>, from: nat): seq<Notification> {
    seq(|inputs|, i requires 0 <= i < |inputs| => Notification(from + i, inputs[i].(persistence := Ongoing)))
  }

  function DismissByKey(stack: Stack, key: string): Stack {
    if key == "" then stack else stack.(items := WithoutKey(stack.items, key))
  }

  function ReplaceOngoing(stack: Stack, inputs: seq<Input>): Stack {
    Stack(NotOngoing(stack.items) + Numbered(inputs, stack.nextId), stack.nextId + |inputs|)
  }

  /** An entry leaves by its id: a toast's timer, or the user. */
  function WithoutId(items: seq<Notification>, id: nat): seq<Notification> {
    if items == [] then []
    else (if items[0].id == id then [] else [items[0]]) + WithoutId(items[1..], id)
  }

  function InputsOf(payloads: seq<Event>): seq<Input> {
    seq(|payloads|, i requires 0 <= i < |payloads| => PayloadToInput(payloads[i], Ongoing))
  }

  /** The subscriptions of `useNotifyChannel`; run:error is handled elsewhere. */
  function Receive(stack: Stack, ev: UiEvent): Stack {
    match ev
    case Toast(payload) => AddNotification(stack, PayloadToInput(payload, OneShot))
    case Banner(payload) => AddNotification(stack, PayloadToInput(payload, Ongoing))
    case BannerDismiss(key) => DismissByKey(stack, key)
    case CriticalPane(payload) => AddNotification(stack, PayloadToInput(payload, Catastrophic))
    case BannersList(payloads) => ReplaceOngoing(stack, InputsOf(payloads))
    case RunError(_) => stack
  }

  function ReceiveAll(stack: Stack, events: seq<UiEvent>): Stack {
    if events == [] then stack
    else Receive(ReceiveAll(stack, events[..|events| - 1]), events[|events| - 1])
  }

  /** The two updaters that fill an array in a loop. */
  method DismissByKeyLoop(prev: seq<Notification>, key: string) returns (kept: seq<Notification>)
    ensures kept == WithoutKey(prev, key)
  {
    kept := [];
    var i := 0;
    while i < |prev|
      invariant 0 <= i <= |prev|
      invariant kept + WithoutKey(prev[i..], key) == WithoutKey(prev, key)
    {
      assert prev[i..][1..] == prev[i + 1..];
      Reassociate(kept, if prev[i].input.key == key then [] else [prev[i]], WithoutKey(prev[i + 1..], key));
      if prev[i].input.key != key {
        kept := kept + [prev[i]];
      }
      i := i + 1;
    }
  }

  method ReplaceOngoingLoop(prev: seq<Notification>, replacements: seq<Notification>) returns (next: seq<Notification>)
    ensures next == NotOngoing(prev) + replacements
  {
    var kept := [];
    var i := 0;
    while i < |prev|
      invariant 0 <= i <= |prev|
      invariant kept + NotOngoing(prev[i..]) == NotOngoing(prev)
    {
      assert prev[i..][1..] == prev[i + 1..];
      Reassociate(kept, if prev[i].input.persistence == Ongoing then [] else [prev[i]], NotOngoing(prev[i + 1..]));
      if prev[i].input.persistence != Ongoing {
        kept := kept + [prev[i]];
      }
      i := i + 1;
    }
    next := kept + replacements;
  }

  // ----- The mirror -----

  function OngoingInputs(items: seq<Notification>): seq<Input> {
    if items == [] then []
    else OngoingInput(items[0]) + OngoingInputs(items[1..])
  }

  function OngoingInput(item: Notification): seq<Input> {
    if item.input.persistence == Ongoing then [item.input] else []
  }

  /** The ongoing entries, in order and content, are the reservoir's banners. */
  predicate Mirror(banners: seq<Event>, stack: Stack) {
    OngoingInputs(stack.items) == InputsOf(banners)
  }

  function Ids(items: seq<Notification>): set<nat> {
    if items == [] then {} else {items[0].id} + Ids(items[1..])
  }

  predicate Unique(items: seq<Notification>) {
    items == [] || (items[0].id !in Ids(items[1..]) && Unique(items[1..]))
  }

  /** `crypto.randomUUID` does not repeat. */
  ghost predicate FreshIds(stack: Stack) {
    Unique(stack.items) && forall id :: id in Ids(stack.items) ==> id < stack.nextId
  }

  lemma {:induction false} OngoingInputsAppend(items: seq<Notification>, more: seq<Notification>)
    ensures OngoingInputs(items + more) == OngoingInputs(items) + OngoingInputs(more)
  {
    if items == [] {
      assert items + more == more;
    } else {
      assert (items + more)[0] == items[0] && (items + more)[1..] == items[1..] + more;
      OngoingInputsAppend(items[1..], more);
      Reassociate(OngoingInput(items[0]), OngoingInputs(items[1..]), OngoingInputs(more));
    }
  }

  function UpsertInput(inputs: seq<Input>, input: Input): seq<Input> {
    if inputs == [] then [input]
    else if input.key != "" && inputs[0].key == input.key then [input] + inputs[1..]
    else [inputs[0]] + UpsertInput(inputs[1..], input)
  }

  lemma {:induction false} UpsertInputAppends(inputs: seq<Input>, input: Input)
    requires forall i :: 0 <= i < |inputs| ==> input.key == "" || inputs[i].key != input.key
    ensures UpsertInput(inputs, input) == inputs + [input]
  {
    if inputs != [] {
      UpsertInputAppends(inputs[1..], input);
    }
  }

  lemma {:induction false} InputsOfUpsert(banners: seq<Event>, ev: Event)
    ensures InputsOf(Upsert(banners, ev)) == UpsertInput(InputsOf(banners), PayloadToInput(ev, Ongoing))
  {
    if banners != [] {
      InputsOfUpsert(banners[1..], ev);
      assert InputsOf(banners)[1..] == InputsOf(banners[1..]);
    }
  }

  lemma {:induction false} SwapAbsent(items: seq<Notification>, id: nat, item: Notification)
    requires id !in Ids(items)
    ensures Swap(items, id, item) == items
  {
    if items != [] {
      SwapAbsent(items[1..], id, item);
    }
  }

  lemma {:induction false} NotFound(items: seq<Notification>, key: string)
    requires Find(items, key).None?
    ensures forall i :: 0 <= i < |OngoingInputs(items)| ==> OngoingInputs(items)[i].key != key
  {
    if items != [] {
      NotFound(items[1..], key);
    }
  }

  lemma {:induction false} FoundInside(items: seq<Notification>, key: string)
    requires Find(items, key).Some?
    ensures Find(items, key).value.id in Ids(items)
  {
    if !OngoingWith(items[0], key) {
      FoundInside(items[1..], key);
    }
  }

  /** Swapping in by id is replacing the first ongoing entry with the key. */
  lemma {:induction false} SwapIsUpsert(items: seq<Notification>, item: Notification)
    requires Unique(items)
    requires item.input.persistence == Ongoing && item.input.key != "" && Find(items, item.input.key).Some?
    ensures OngoingInputs(Swap(items, Find(items, item.input.key).value.id, item))
         == UpsertInput(OngoingInputs(items), item.input)
  {
    var found := Find(items, item.input.key).value;
    var swapped := Swap(items, found.id, item);
    assert swapped[1..] == Swap(items[1..], found.id, item);
    if OngoingWith(items[0], item.input.key) {
      SwapAbsent(items[1..], found.id, item);
      assert OngoingInputs(items)[1..] == OngoingInputs(items[1..]);
    } else {
      FoundInside(items[1..], item.input.key);
      SwapIsUpsert(items[1..], item);
      if items[0].input.persistence == Ongoing {
        assert OngoingInputs(items)[1..] == OngoingInputs(items[1..]);
      } else {
        assert OngoingInputs(items) == OngoingInputs(items[1..]);
      }
    }
  }

  /** Adding an ongoing banner is the reservoir's upsert; adding anything else is invisible. */
  lemma AddIsUpsert(stack: Stack, input: Input)
    requires FreshIds(stack)
    ensures OngoingInputs(AddNotification(stack, input).items)
         == if input.persistence == Ongoing then UpsertInput(OngoingInputs(stack.items), input)
            else OngoingInputs(stack.items)
  {
    var item := Notification(stack.nextId, input);
    OngoingInputsAppend(stack.items, [item]);
    assert [item][1..] == [];
    if input.persistence == Ongoing {
      if input.key != "" && Find(stack.items, input.key).Some? {
        SwapIsUpsert(stack.items, item);
      } else {
        if input.key != "" {
          NotFound(stack.items, input.key);
        }
        UpsertInputAppends(OngoingInputs(stack.items), input);
      }
    }
  }

  lemma ReceiveRouted(stack: Stack, ev: Event)
    ensures ReceiveAll(stack, Route(ev)) == if Route(ev) == [] then stack else Receive(stack, Route(ev)[0])
  {
    if Route(ev) != [] {
      assert Route(ev)[..0] == [];
    }
  }

  /** What a report does to the ongoing entries: an upsert if it goes out as a banner, else nothing. */
  lemma ReportShows(stack: Stack, ev: Event)
    requires FreshIds(stack)
    ensures OngoingInputs(ReceiveAll(stack, Route(ev)).items)
         == if ev.persistence == Ongoing && ev.severity != Critical
            then UpsertInput(OngoingInputs(stack.items), PayloadToInput(ev, Ongoing))
            else OngoingInputs(stack.items)
  {
    ReceiveRouted(stack, ev);
    if Route(ev) != [] {
      match Route(ev)[0] {
        case Toast(payload) => AddIsUpsert(stack, PayloadToInput(payload, OneShot));
        case Banner(payload) => AddIsUpsert(stack, PayloadToInput(payload, Ongoing));
        case CriticalPane(payload) => AddIsUpsert(stack, PayloadToInput(payload, Catastrophic));
        case _ =>
      }
    }
  }

  /** A report keeps the mirror, unless it is an ongoing Critical one that changes the list. */
  lemma ReportKeepsMirrorIff(banners: seq<Event>, stack: Stack, ev: Event)
    requires Mirror(banners, stack) && FreshIds(stack)
    ensures Mirror(AfterReport(banners, ev), ReceiveAll(stack, Route(ev)))
      <==> (ev.persistence == Ongoing && ev.severity == Critical ==> InputsOf(Upsert(banners, ev)) == InputsOf(banners))
  {
    InputsOfUpsert(banners, ev);
    ReportShows(stack, ev);
  }

  function KeyCount(inputs: seq<Input>, key: string): nat {
    if inputs == [] then 0 else (if inputs[0].key == key then 1 else 0) + KeyCount(inputs[1..], key)
  }

  function DropAllInputs(inputs: seq<Input>, key: string): seq<Input> {
    if inputs == [] then [] else (if inputs[0].key == key then [] else [inputs[0]]) + DropAllInputs(inputs[1..], key)
  }

  function DropFirstInput(inputs: seq<Input>, key: string): seq<Input> {
    if inputs == [] then []
    else if inputs[0].key == key then inputs[1..]
    else [inputs[0]] + DropFirstInput(inputs[1..], key)
  }

  lemma {:induction false} DropsInInputs(banners: seq<Event>, key: string)
    ensures InputsOf(DropFirst(banners, key)) == DropFirstInput(InputsOf(banners), key)
  {
    if banners != [] {
      DropsInInputs(banners[1..], key);
      assert InputsOf(banners)[1..] == InputsOf(banners[1..]);
    }
  }

  lemma {:induction false} WithoutKeyInInputs(items: seq<Notification>, key: string)
    ensures OngoingInputs(WithoutKey(items, key)) == DropAllInputs(OngoingInputs(items), key)
  {
    if items != [] {
      WithoutKeyInInputs(items[1..], key);
      if items[0].input.key != key {
        assert WithoutKey(items, key)[1..] == WithoutKey(items[1..], key);
      }
      if items[0].input.persistence == Ongoing {
        assert OngoingInputs(items)[1..] == OngoingInputs(items[1..]);
      } else {
        assert OngoingInputs(items) == OngoingInputs(items[1..]);
      }
      if items[0].input.key == key {
        assert WithoutKey(items, key) == WithoutKey(items[1..], key);
      }
    }
  }

  /** Dropping the first and dropping all agree exactly when there is at most one. */
  lemma {:induction false} DropsAgreeIff(inputs: seq<Input>, key: string)
    ensures |DropAllInputs(inputs, key)| == |inputs| - KeyCount(inputs, key)
    ensures DropFirstInput(inputs, key) == DropAllInputs(inputs, key) <==> KeyCount(inputs, key) <= 1
  {
    if inputs != [] {
      DropsAgreeIff(inputs[1..], key);
      if inputs[0].key != key {
        assert DropFirstInput(inputs, key)[1..] == DropFirstInput(inputs[1..], key);
        assert DropAllInputs(inputs, key)[1..] == DropAllInputs(inputs[1..], key);
      } else if KeyCount(inputs[1..], key) == 0 {
        NothingToDrop(inputs[1..], key);
      }
    }
  }

  lemma {:induction false} NothingToDrop(inputs: seq<Input>, key: string)
    requires KeyCount(inputs, key) == 0
    ensures DropAllInputs(inputs, key) == inputs
  {
    if inputs != [] {
      NothingToDrop(inputs[1..], key);
    }
  }

  /** A dismissal keeps the mirror iff no two banners share the key. */
  lemma DismissKeepsMirrorIff(banners: seq<Event>, stack: Stack, key: string)
    requires Mirror(banners, stack)
    ensures Mirror(AfterDismiss(banners, key), DismissByKey(stack, key))
      <==> key == "" || KeyCount(InputsOf(banners), key) <= 1
  {
    DropsInInputs(banners, key);
    WithoutKeyInInputs(stack.items, key);
    DropsAgreeIff(InputsOf(banners), key);
  }

  lemma {:induction false} DistinctCounts(banners: seq<Event>, key: string)
    requires Distinct(banners) && key != ""
    ensures KeyCount(InputsOf(banners), key) == if HasKey(banners, key) then 1 else 0
  {
    HasKeyStep(banners, key);
    if banners != [] {
      DistinctStep(banners);
      DistinctCounts(banners[1..], key);
      assert InputsOf(banners)[1..] == InputsOf(banners[1..]);
    }
  }

  lemma {:induction false} NotOngoingIsInvisible(items: seq<Notification>)
    ensures OngoingInputs(NotOngoing(items)) == []
  {
    if items != [] {
      NotOngoingIsInvisible(items[1..]);
      if items[0].input.persistence != Ongoing {
        assert NotOngoing(items)[1..] == NotOngoing(items[1..]);
      } else {
        assert NotOngoing(items) == NotOngoing(items[1..]);
      }
    }
  }

  lemma {:induction false} NumberedShows(inputs: seq<Input>, from: nat)
    requires forall i :: 0 <= i < |inputs| ==> inputs[i].persistence == Ongoing
    ensures OngoingInputs(Numbered(inputs, from)) == inputs
  {
    if inputs != [] {
      NumberedShows(inputs[1..], from + 1);
      assert Numbered(inputs, from)[1..] == Numbered(inputs[1..], from + 1);
    }
  }

  /** A banners:list event brings any frontend back in step. */
  lemma ListResynchronises(banners: seq<Event>, stack: Stack)
    ensures Mirror(banners, Receive(stack, BannersList(banners)))
  {
    OngoingInputsAppend(NotOngoing(stack.items), Numbered(InputsOf(banners), stack.nextId));
    NotOngoingIsInvisible(stack.items);
    NumberedShows(InputsOf(banners), stack.nextId);
  }

  // ----- Whole sessions -----

  datatype Op =
    | Report(ev: Event)
    | Dismiss(key: string)
    | Replace(prefix: string, batch: seq<Event>)
    | Remove(id: nat)      // an entry's timer fires, or the user closes it
    | Raise(input: Input)  // the frontend raises an entry of its own

  predicate ShowsOngoing(items: seq<Notification>, id: nat) {
    exists i :: 0 <= i < |items| && items[i].id == id && items[i].input.persistence == Ongoing
  }

  /** No ongoing Critical report, no colliding batch; nobody closes a banner by hand or raises one in the frontend. */
  predicate OpOk(op: Op, stack: Stack) {
    match op
    case Report(ev) => !(ev.persistence == Ongoing && ev.severity == Critical)
    case Dismiss(_) => true
    case Replace(prefix, batch) =>
      Distinct(batch) && forall i :: 0 <= i < |batch| ==> prefix <= batch[i].key
    case Remove(id) => !ShowsOngoing(stack.items, id)
    case Raise(input) => input.persistence != Ongoing
  }

  /** The reservoir and the frontend side by side. */
  datatype Session = Session(banners: seq<Event>, stack: Stack)

  function Perform(session: Session, op: Op): Session {
    match op
    case Report(ev) => Session(AfterReport(session.banners, ev), ReceiveAll(session.stack, Route(ev)))
    case Dismiss(key) =>
      Session(AfterDismiss(session.banners, key),
              if key == "" then session.stack else Receive(session.stack, BannerDismiss(key)))
    case Replace(prefix, batch) =>
      var banners := AfterReplace(session.banners, prefix, batch);
      Session(banners, Receive(session.stack, BannersList(banners)))
    case Remove(id) => session.(stack := session.stack.(items := WithoutId(session.stack.items, id)))
    case Raise(input) => session.(stack := AddNotification(session.stack, input))
  }

  const EMPTY := Session([], Stack([], 0))

  /** The session after these operations, if each met its condition. */
  function PerformAll(start: Session, ops: seq<Op>): Option<Session> {
    if ops == [] then Some(start)
    else
      var before := PerformAll(start, ops[..|ops| - 1]);
      var last := ops[|ops| - 1];
      if before.None? || !OpOk(last, before.value.stack) then None else Some(Perform(before.value, last))
  }

  /** The session after these operations, whatever they are. */
  function PerformFreely(ops: seq<Op>): Session {
    if ops == [] then EMPTY else Perform(PerformFreely(ops[..|ops| - 1]), ops[|ops| - 1])
  }

  lemma {:induction false} SwapKeepsUnique(items: seq<Notification>, id: nat, item: Notification)
    requires Unique(items) && item.id !in Ids(items)
    ensures Unique(Swap(items, id, item)) && Ids(Swap(items, id, item)) <= Ids(items) + {item.id}
  {
    if items != [] {
      SwapKeepsUnique(items[1..], id, item);
      assert Swap(items, id, item)[1..] == Swap(items[1..], id, item);
      if items[0].id == id {
        SwapAbsent(items[1..], id, item);
      }
    }
  }

  lemma {:induction false} AppendIds(items: seq<Notification>, more: seq<Notification>)
    ensures Ids(items + more) == Ids(items) + Ids(more)
    ensures Unique(items + more) <==> Unique(items) && Unique(more) && Ids(items) !! Ids(more)
  {
    if items == [] {
      assert items + more == more;
    } else {
      assert (items + more)[0] == items[0] && (items + more)[1..] == items[1..] + more;
      AppendIds(items[1..], more);
    }
  }

  lemma AddKeepsFreshIds(stack: Stack, input: Input)
    requires FreshIds(stack)
    ensures FreshIds(AddNotification(stack, input))
  {
    var item := Notification(stack.nextId, input);
    AppendIds(stack.items, [item]);
    assert [item][1..] == [];
    SwapKeepsUnique(stack.items, if Find(stack.items, input.key).Some? then Find(stack.items, input.key).value.id else 0, item);
  }

  lemma {:induction false} WithoutKeyKeepsUnique(items: seq<Notification>, key: string)
    ensures Ids(WithoutKey(items, key)) <= Ids(items)
    ensures Unique(items) ==> Unique(WithoutKey(items, key))
  {
    if items != [] {
      WithoutKeyKeepsUnique(items[1..], key);
      if items[0].input.key == key {
        assert WithoutKey(items, key) == WithoutKey(items[1..], key);
      } else {
        assert WithoutKey(items, key)[1..] == WithoutKey(items[1..], key);
      }
    }
  }

  lemma {:induction false} NotOngoingKeepsUnique(items: seq<Notification>)
    ensures Ids(NotOngoing(items)) <= Ids(items)
    ensures Unique(items) ==> Unique(NotOngoing(items))
  {
    if items != [] {
      NotOngoingKeepsUnique(items[1..]);
      if items[0].input.persistence == Ongoing {
        assert NotOngoing(items) == NotOngoing(items[1..]);
      } else {
        assert NotOngoing(items)[1..] == NotOngoing(items[1..]);
      }
    }
  }

  lemma {:induction false} NumberedIds(inputs: seq<Input>, from: nat)
    ensures Unique(Numbered(inputs, from))
    ensures forall id :: id in Ids(Numbered(inputs, from)) ==> from <= id < from + |inputs|
  {
    if inputs != [] {
      NumberedIds(inputs[1..], from + 1);
      assert Numbered(inputs, from)[1..] == Numbered(inputs[1..], from + 1);
    }
  }

  lemma ReplaceKeepsFreshIds(stack: Stack, inputs: seq<Input>)
    requires FreshIds(stack)
    ensures FreshIds(ReplaceOngoing(stack, inputs))
  {
    NotOngoingKeepsUnique(stack.items);
    NumberedIds(inputs, stack.nextId);
    AppendIds(NotOngoing(stack.items), Numbered(inputs, stack.nextId));
  }

  lemma ReceiveKeepsFreshIds(stack: Stack, ev: UiEvent)
    requires FreshIds(stack)
    ensures FreshIds(Receive(stack, ev))
  {
    match ev
    case Toast(payload) => AddKeepsFreshIds(stack, PayloadToInput(payload, OneShot));
    case Banner(payload) => AddKeepsFreshIds(stack, PayloadToInput(payload, Ongoing));
    case BannerDismiss(key) => WithoutKeyKeepsUnique(stack.items, key);
    case CriticalPane(payload) => AddKeepsFreshIds(stack, PayloadToInput(payload, Catastrophic));
    case BannersList(payloads) => ReplaceKeepsFreshIds(stack, InputsOf(payloads));
    case RunError(_) =>
  }

  lemma {:induction false} WithoutIdKeepsUnique(items: seq<Notification>, id: nat)
    ensures Ids(WithoutId(items, id)) <= Ids(items)
    ensures Unique(items) ==> Unique(WithoutId(items, id))
  {
    if items != [] {
      WithoutIdKeepsUnique(items[1..], id);
      if items[0].id == id {
        assert WithoutId(items, id) == WithoutId(items[1..], id);
      } else {
        assert WithoutId(items, id)[1..] == WithoutId(items[1..], id);
      }
    }
  }

  function OngoingCount(items: seq<Notification>, id: nat): nat {
    if items == [] then 0
    else (if items[0].id == id && items[0].input.persistence == Ongoing then 1 else 0) + OngoingCount(items[1..], id)
  }

  lemma ShowsOngoingStep(items: seq<Notification>, id: nat)
    requires items != []
    ensures ShowsOngoing(items, id)
      <==> (items[0].id == id && items[0].input.persistence == Ongoing) || ShowsOngoing(items[1..], id)
  {
    if ShowsOngoing(items[1..], id) {
      var i :| 0 <= i < |items[1..]| && items[1..][i].id == id && items[1..][i].input.persistence == Ongoing;
      assert items[i + 1] == items[1..][i];
    }
    if ShowsOngoing(items, id) {
      var i :| 0 <= i < |items| && items[i].id == id && items[i].input.persistence == Ongoing;
      if i > 0 {
        assert items[1..][i - 1] == items[i];
      }
    }
  }

  /** An entry that goes takes along its place among the ongoing ones, if it has one. */
  lemma {:induction false} RemovalShrinks(items: seq<Notification>, id: nat)
    ensures |OngoingInputs(WithoutId(items, id))| == |OngoingInputs(items)| - OngoingCount(items, id)
    ensures OngoingCount(items, id) == 0 <==> !ShowsOngoing(items, id)
    ensures OngoingCount(items, id) == 0 ==> OngoingInputs(WithoutId(items, id)) == OngoingInputs(items)
  {
    if items != [] {
      ShowsOngoingStep(items, id);
      RemovalShrinks(items[1..], id);
      if items[0].id == id {
        assert WithoutId(items, id) == WithoutId(items[1..], id);
      } else {
        assert WithoutId(items, id)[1..] == WithoutId(items[1..], id);
      }
    }
  }

  /** Removing an entry keeps the mirror iff it is not an ongoing one. */
  lemma RemoveKeepsMirrorIff(banners: seq<Event>, stack: Stack, id: nat)
    requires Mirror(banners, stack)
    ensures Mirror(banners, stack.(items := WithoutId(stack.items, id))) <==> !ShowsOngoing(stack.items, id)
  {
    RemovalShrinks(stack.items, id);
  }

  /** An entry the frontend raises itself keeps it iff it is not ongoing or repeats the banner it replaces. */
  lemma RaiseKeepsMirrorIff(banners: seq<Event>, stack: Stack, input: Input)
    requires Mirror(banners, stack) && FreshIds(stack)
    ensures Mirror(banners, AddNotification(stack, input))
      <==> (input.persistence == Ongoing ==> UpsertInput(InputsOf(banners), input) == InputsOf(banners))
  {
    AddIsUpsert(stack, input);
  }

  /** Ids stay fresh under every operation, admissible or not. */
  lemma PerformKeepsFreshIds(session: Session, op: Op)
    requires FreshIds(session.stack)
    ensures FreshIds(Perform(session, op).stack)
  {
    match op
    case Report(ev) =>
      ReceiveRouted(session.stack, ev);
      if Route(ev) != [] {
        ReceiveKeepsFreshIds(session.stack, Route(ev)[0]);
      }
    case Dismiss(key) => ReceiveKeepsFreshIds(session.stack, BannerDismiss(key));
    case Replace(prefix, batch) =>
      ReceiveKeepsFreshIds(session.stack, BannersList(AfterReplace(session.banners, prefix, batch)));
    case Remove(id) => WithoutIdKeepsUnique(session.stack.items, id);
    case Raise(input) => AddKeepsFreshIds(session.stack, input);
  }

  lemma {:induction false} FreshIdsAlways(ops: seq<Op>)
    ensures FreshIds(PerformFreely(ops).stack)
  {
    if ops != [] {
      FreshIdsAlways(ops[..|ops| - 1]);
      PerformKeepsFreshIds(PerformFreely(ops[..|ops| - 1]), ops[|ops| - 1]);
    }
  }

  ghost predicate InStep(session: Session) {
    Mirror(session.banners, session.stack) && Distinct(session.banners) && FreshIds(session.stack)
  }

  lemma PerformKeepsInStep(session: Session, op: Op)
    requires InStep(session) && OpOk(op, session.stack)
    ensures InStep(Perform(session, op))
  {
    PerformKeepsFreshIds(session, op);
    match op
    case Report(ev) =>
      ReportKeepsMirrorIff(session.banners, session.stack, ev);
      UpsertKeepsDistinct(session.banners, ev);
    case Dismiss(key) =>
      if key != "" {
        DistinctCounts(session.banners, key);
        DismissKeepsMirrorIff(session.banners, session.stack, key);
        DropFirstKeepsDistinct(session.banners, key);
      }
    case Replace(prefix, batch) =>
      PrefixedBatchKeepsDistinct(session.banners, prefix, batch);
      ListResynchronises(AfterReplace(session.banners, prefix, batch), session.stack);
    case Remove(id) => RemoveKeepsMirrorIff(session.banners, session.stack, id);
    case Raise(input) => AddIsUpsert(session.stack, input);
  }

  /** The exact condition, operation by operation, for the two lists to stay in agreement. */
  predicate KeepsAgreement(op: Op, session: Session) {
    var inputs := InputsOf(session.banners);
    match op
    case Report(ev) =>
      ev.persistence == Ongoing && ev.severity == Critical ==> UpsertInput(inputs, PayloadToInput(ev, Ongoing)) == inputs
    case Dismiss(key) => key == "" || KeyCount(inputs, key) <= 1
    case Replace(_, _) => true
    case Remove(id) => !ShowsOngoing(session.stack.items, id)
    case Raise(input) => input.persistence == Ongoing ==> UpsertInput(inputs, input) == inputs
  }

  lemma PerformKeepsMirrorIff(session: Session, op: Op)
    requires Mirror(session.banners, session.stack) && FreshIds(session.stack)
    ensures Mirror(Perform(session, op).banners, Perform(session, op).stack) <==> KeepsAgreement(op, session)
  {
    match op
    case Report(ev) =>
      ReportKeepsMirrorIff(session.banners, session.stack, ev);
      InputsOfUpsert(session.banners, ev);
    case Dismiss(key) => DismissKeepsMirrorIff(session.banners, session.stack, key);
    case Replace(prefix, batch) =>
      ListResynchronises(AfterReplace(session.banners, prefix, batch), session.stack);
    case Remove(id) => RemoveKeepsMirrorIff(session.banners, session.stack, id);
    case Raise(input) => RaiseKeepsMirrorIff(session.banners, session.stack, input);
  }

  /** From any session in step, admissible operations lead to sessions in step. */
  lemma {:induction false} StaysInStep(start: Session, ops: seq<Op>)
    requires InStep(start) && PerformAll(start, ops).Some?
    ensures InStep(PerformAll(start, ops).value)
  {
    if ops != [] {
      StaysInStep(start, ops[..|ops| - 1]);
      PerformKeepsInStep(PerformAll(start, ops[..|ops| - 1]).value, ops[|ops| - 1]);
    }
  }

  /** After any admissible session the frontend's ongoing entries are `ListBanners()`, in order and content. */
  lemma MirrorAgrees(ops: seq<Op>)
    requires PerformAll(EMPTY, ops).Some?
    ensures var session := PerformAll(EMPTY, ops).value;
      && OngoingInputs(session.stack.items) == InputsOf(session.banners)
      && Distinct(session.banners) && FreshIds(session.stack)
  {
    StaysInStep(EMPTY, ops);
  }

  /**
   After any session at all, with critical banners, hand-closed ones and the frontend's own, one
   replacement brings the two lists into agreement; if it leaves distinct keys, admissible operations
   keep it.
   */
  lemma MirrorRecovers(anything: seq<Op>, prefix: string, batch: seq<Event>, later: seq<Op>)
    ensures var session := Perform(PerformFreely(anything), Replace(prefix, batch));
      && OngoingInputs(session.stack.items) == InputsOf(session.banners)
      && (Distinct(session.banners) && PerformAll(session, later).Some? ==>
            var last := PerformAll(session, later).value;
            OngoingInputs(last.stack.items) == InputsOf(last.banners))
  {
    var before := PerformFreely(anything);
    var session := Perform(before, Replace(prefix, batch));
    ListResynchronises(session.banners, before.stack);
    FreshIdsAlways(anything);
    PerformKeepsFreshIds(before, Replace(prefix, batch));
    if Distinct(session.banners) && PerformAll(session, later).Some? {
      StaysInStep(session, later);
    }
  }
}
