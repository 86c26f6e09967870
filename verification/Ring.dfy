/** The log ring and the viewer that keeps its own copy of it. */
module Ring {
  import opened Sequences

  datatype LogEntry = LogEntry(level: string, source: string, message: string)

  /** The last `n` items. */
  function Last<T>(items: seq<T>, n: nat): seq<T> {
    if |items| > n then items[|items| - n..] else items
  }

  /** The ring with the history of everything ever pushed. */
  class RingBuffer {
    const entries: array<LogEntry>
    var head: nat
    var count: nat
    ghost var pushed: seq<LogEntry>

    ghost predicate Valid()
      reads this, entries
    {
      && entries.Length > 0
      && head == |pushed| % entries.Length
      && count == (if |pushed| < entries.Length then |pushed| else entries.Length)
      && forall i :: |pushed| - count <= i < |pushed| ==> entries[i % entries.Length] == pushed[i]
    }

    constructor (capacity: nat, blank: LogEntry)
      requires capacity > 0
      ensures Valid() && pushed == [] && entries.Length == capacity && fresh(entries)
    {
      entries := new LogEntry[capacity](_ => blank);
      head, count, pushed := 0, 0, [];
    }

    /** Append an entry, evicting the oldest if full. */
    method Push(entry: LogEntry)
      requires Valid()
      modifies this, entries
      ensures Valid() && pushed == old(pushed) + [entry]
    {
      ghost var n, cap := |pushed|, entries.Length;
      NextSlot(n, cap);
      forall i: nat | n - cap < i < n ensures i % cap != n % cap {
        OtherSlot(i, n, cap);
      }
      entries[head] := entry;
      head := (head + 1) % entries.Length;
      if count < entries.Length {
        count := count + 1;
      }
      pushed := pushed + [entry];
    }

    /** The stored entries, oldest first: the last `capacity` pushes. */
    method Entries() returns (result: seq<LogEntry>)
      requires Valid()
      ensures result == Last(pushed, entries.Length)
    {
      result := [];
      var start := (head - count + entries.Length) % entries.Length;
      ghost var first := |pushed| - count;
      StartSlot(|pushed|, count, entries.Length);
      var i := 0;
      while i < count
        invariant 0 <= i <= count
        invariant result == pushed[first..first + i]
      {
        SlotAfter(first, i, entries.Length);
        var idx := (start + i) % entries.Length;
        result := result + [entries[idx]];
        i := i + 1;
      }
    }
  }

  lemma NextSlot(n: nat, cap: nat)
    requires cap > 0
    ensures (n % cap + 1) % cap == (n + 1) % cap
  {
    SlotAfter(n, 1, cap);
  }

  /** Moving `i` slots on from the slot of `n`. */
  lemma SlotAfter(n: nat, i: nat, cap: nat)
    requires cap > 0
    ensures (n % cap + i) % cap == (n + i) % cap
  {
    var q := n / cap;
    assert n == q * cap + n % cap;
    Shift(n % cap + i, q, cap);
    assert n + i == n % cap + i + q * cap;
  }

  lemma {:induction false} Shift(m: nat, q: nat, cap: nat)
    requires cap > 0
    ensures (m + q * cap) % cap == m % cap
    decreases q
  {
    if q > 0 {
      Shift(m, q - 1, cap);
      var k := m + (q - 1) * cap;
      assert m + q * cap == k + cap;
      Wrap(k, cap);
    }
  }

  lemma Wrap(k: nat, cap: nat)
    requires cap > 0
    ensures (k + cap) % cap == k % cap
  {
    var q, r := k / cap, k % cap;
    assert k + cap == (q + 1) * cap + r;
    Unique(k + cap, cap, q + 1, r);
  }

  lemma Unique(k: nat, cap: nat, q: nat, r: nat)
    requires cap > 0 && r < cap && k == q * cap + r
    ensures k % cap == r
  {
    var d := k / cap - q;
    assert d * cap == r - k % cap;
    MultipleGrows(d, cap);
  }

  lemma OneMoreMultiple(d: int, cap: int)
    ensures (d + 1) * cap == d * cap + cap
  {}

  lemma {:induction false} MultipleGrows(d: int, cap: nat)
    ensures d > 0 ==> d * cap >= cap
    ensures d < 0 ==> d * cap + cap <= 0
    decreases if d < 0 then -d else d
  {
    if d > 0 {
      MultipleGrows(d - 1, cap);
      OneMoreMultiple(d - 1, cap);
    } else if d < 0 {
      MultipleGrows(d + 1, cap);
      OneMoreMultiple(d, cap);
    }
  }

  /** Two pushes less than a capacity apart sit in different slots. */
  lemma OtherSlot(i: nat, n: nat, cap: nat)
    requires cap > 0 && n - cap < i < n
    ensures i % cap != n % cap
  {
    var d := n / cap - i / cap;
    assert d * cap == (n - i) - (n % cap) + (i % cap);
    MultipleGrows(d, cap);
  }

  lemma StartSlot(n: nat, count: nat, cap: nat)
    requires cap > 0 && count <= n && count <= cap
    requires count == if n < cap then n else cap
    ensures (n % cap - count + cap) % cap == (n - count) % cap
  {
    if n < cap {
      Unique(n, cap, 0, n);
      Wrap(0, cap);
    } else {
      Unique(n % cap, cap, 0, n % cap);
      Wrap(n - cap, cap);
    }
  }

  // ----- The viewer -----

  const VIEW_CAPACITY := 1000

  /** JavaScript's `items.slice(-n)`: the last n items, or all if there are fewer. */
  function SliceFromEnd<T>(items: seq<T>, n: nat): seq<T> {
    if |items| >= n then items[|items| - n..] else items
  }

  /** `[...prev.slice(-999), data]` */
  function ViewerAppend<T>(prev: seq<T>, data: T): seq<T> {
    SliceFromEnd(prev, VIEW_CAPACITY - 1) + [data]
  }

  function ViewerAfter<T>(start: seq<T>, events: seq<T>): seq<T> {
    if events == [] then start
    else ViewerAppend(ViewerAfter(start, events[..|events| - 1]), events[|events| - 1])
  }

  lemma ViewerStep<T>(pushed: seq<T>, data: T)
    ensures ViewerAppend(Last(pushed, VIEW_CAPACITY), data) == Last(pushed + [data], VIEW_CAPACITY)
  {}

  lemma ViewerFollowsOneMore<T>(pushed: seq<T>, before: seq<T>, data: T, more: seq<T>)
    requires more == before + [data]
    requires ViewerAfter(Last(pushed, VIEW_CAPACITY), before) == Last(pushed + before, VIEW_CAPACITY)
    ensures ViewerAfter(Last(pushed, VIEW_CAPACITY), more) == Last(pushed + more, VIEW_CAPACITY)
  {
    assert more[..|more| - 1] == before;
    ViewerStep(pushed + before, data);
    Reassociate(pushed, before, [data]);
  }

  /** A viewer that starts from the ring's entries shows the ring's entries after any further pushes. */
  lemma {:induction false} ViewerFollowsRing<T>(pushed: seq<T>, more: seq<T>)
    ensures ViewerAfter(Last(pushed, VIEW_CAPACITY), more) == Last(pushed + more, VIEW_CAPACITY)
  {
    if more == [] {
      assert pushed + more == pushed;
    } else {
      var before, data := more[..|more| - 1], more[|more| - 1];
      ViewerFollowsRing(pushed, before);
      ViewerFollowsOneMore(pushed, before, data, more);
    }
  }
}
