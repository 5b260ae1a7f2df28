/** Facts about concatenation that the proofs use more than once, and the paging of an unchanging list. */
module Seqs {

  function FlatMap<A, B>(f: A -> seq<B>, items: seq<A>): seq<B> {
    if items == [] then [] else FlatMap(f, items[..|items| - 1]) + f(items[|items| - 1])
  }

  lemma Assoc<T>(a: seq<T>, b: seq<T>, c: seq<T>)
    ensures a + b + c == a + (b + c)
  {
  }

  lemma {:induction false} FlatMapSum<A, B>(f: A -> seq<B>, a: seq<A>, b: seq<A>)
    ensures FlatMap(f, a + b) == FlatMap(f, a) + FlatMap(f, b)
    decreases |b|
  {
    if b == [] {
      assert a + b == a;
    } else {
      var n := |b| - 1;
      FlatMapSum(f, a, b[..n]);
      assert (a + b)[..|a + b| - 1] == a + b[..n];
      Assoc(FlatMap(f, a), FlatMap(f, b[..n]), f(b[n]));
    }
  }

  lemma FlatMapFront<A, B>(f: A -> seq<B>, items: seq<A>)
    requires items != []
    ensures FlatMap(f, items) == f(items[0]) + FlatMap(f, items[1..])
  {
    FlatMapSum(f, [items[0]], items[1..]);
    assert items == [items[0]] + items[1..];
    assert [items[0]][..0] == [];
    assert FlatMap(f, [items[0]]) == FlatMap(f, []) + f(items[0]);
  }

  lemma FlatMapExtend<A, B>(f: A -> seq<B>, items: seq<A>, i: nat)
    requires i < |items|
    ensures FlatMap(f, items[..i + 1]) == FlatMap(f, items[..i]) + f(items[i])
  {
    assert items[..i + 1][..i] == items[..i];
  }

  // Each item's part stands after the parts of the items before it.
  lemma FlatMapAt<A, B>(f: A -> seq<B>, items: seq<A>, i: nat, k: nat)
    requires i < |items| && k < |f(items[i])|
    ensures |FlatMap(f, items[..i])| + k < |FlatMap(f, items)|
    ensures FlatMap(f, items)[|FlatMap(f, items[..i])| + k] == f(items[i])[k]
  {
    FlatMapSum(f, items[..i + 1], items[i + 1..]);
    FlatMapExtend(f, items, i);
    assert items == items[..i + 1] + items[i + 1..];
  }

  // Two sums whose left parts are equally long agree part by part.
  lemma SplitSum<T>(a: seq<T>, s: seq<T>, b: seq<T>, t: seq<T>)
    requires |a| == |b| && a + s == b + t
    ensures a == b && s == t
  {
    assert a == (a + s)[..|a|] == (b + t)[..|b|] == b;
    assert s == (a + s)[|a|..] == (b + t)[|b|..] == t;
  }

  // ----- paging -----

  function Min(a: int, b: int): int {
    if a < b then a else b
  }

  // The upstream's answer to a request for so many items from an offset.
  function Reply<T>(items: seq<T>, start: nat, limit: nat): seq<T> {
    if start > |items| then [] else items[start..Min(start + limit, |items|)]
  }
}
