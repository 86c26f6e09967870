/** Facts about sequences that several proofs need. */
module Sequences {
  lemma Reassociate<T>(a: seq<T>, b: seq<T>, c: seq<T>)
    ensures a + b + c == a + (b + c)
  {}

  /** What each item gives, one after another. */
  function Concat<T, U>(items: seq<T>, f: T -> seq<U>): seq<U> {
    if items == [] then [] else Concat(items[..|items| - 1], f) + f(items[|items| - 1])
  }

  lemma ConcatOne<T, U>(item: T, f: T -> seq<U>)
    ensures Concat([item], f) == f(item)
  {
    assert [item][..0] == [];
  }

  lemma ConcatStep<T, U>(items: seq<T>, item: T, f: T -> seq<U>)
    ensures Concat(items + [item], f) == Concat(items, f) + f(item)
  {
    assert (items + [item])[..|items|] == items;
  }

  lemma {:induction false} ConcatPlus<T, U>(a: seq<T>, b: seq<T>, f: T -> seq<U>)
    ensures Concat(a + b, f) == Concat(a, f) + Concat(b, f)
    decreases |b|
  {
    if b == [] {
      assert a + b == a;
    } else {
      var n := |b| - 1;
      ConcatPlus(a, b[..n], f);
      Reassociate(a, b[..n], [b[n]]);
      assert b == b[..n] + [b[n]];
      ConcatStep(a + b[..n], b[n], f);
      Reassociate(Concat(a, f), Concat(b[..n], f), f(b[n]));
    }
  }

  /** A part at the front gives a part at the front. */
  lemma ConcatPrefix<T, U>(a: seq<T>, b: seq<T>, f: T -> seq<U>)
    requires a <= b
    ensures Concat(a, f) <= Concat(b, f)
  {
    assert b == a + b[|a|..];
    ConcatPlus(a, b[|a|..], f);
  }

  /** Two passes are one, if for each item they are. */
  lemma {:induction false} ConcatConcat<T, U, V>(items: seq<T>, f: T -> seq<U>, g: U -> seq<V>, h: T -> seq<V>)
    requires forall item :: item in items ==> Concat(f(item), g) == h(item)
    ensures Concat(Concat(items, f), g) == Concat(items, h)
  {
    if items != [] {
      var before, last := items[..|items| - 1], items[|items| - 1];
      ConcatConcat(before, f, g, h);
      ConcatPlus(Concat(before, f), f(last), g);
    }
  }
}
