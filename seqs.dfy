/** Sequence helpers shared by the row builders. */
module Seqs {
  /** `[f(x) for x in xs]`. */
  function Map<A, B>(f: A -> B, xs: seq<A>): (r: seq<B>)
    ensures |r| == |xs|
  {
    if xs == [] then [] else Map(f, xs[..|xs| - 1]) + [f(xs[|xs| - 1])]
  }

  /** The `j`-th mapped element is `f` of the `j`-th element. */
  lemma {:induction false} MapAt<A, B>(f: A -> B, xs: seq<A>, j: nat)
    requires j < |xs|
    ensures Map(f, xs)[j] == f(xs[j])
  {
    var init := xs[..|xs| - 1];
    if j < |init| {
      MapAt(f, init, j);
      assert init[j] == xs[j];
    }
  }

  /** The sequences `f` gives for the elements, one after another. */
  function Flatten<A, B>(f: A -> seq<B>, xs: seq<A>): seq<B> {
    if xs == [] then [] else Flatten(f, xs[..|xs| - 1]) + f(xs[|xs| - 1])
  }

  /** What comes out of a flattening comes from one of the elements, and
      everything any element gives comes out. */
  lemma {:induction false} FlattenMembers<A, B>(f: A -> seq<B>, xs: seq<A>, y: B)
    ensures y in Flatten(f, xs) <==> exists i :: 0 <= i < |xs| && y in f(xs[i])
  {
    if xs != [] {
      var init := xs[..|xs| - 1];
      FlattenMembers(f, init, y);
      assert Flatten(f, xs) == Flatten(f, init) + f(xs[|xs| - 1]);
      if exists i :: 0 <= i < |xs| && y in f(xs[i]) {
        var i :| 0 <= i < |xs| && y in f(xs[i]);
        if i < |init| {
          assert init[i] == xs[i];
        }
      }
      if y in Flatten(f, init) {
        var i :| 0 <= i < |init| && y in f(init[i]);
        assert xs[i] == init[i];
      }
    }
  }

  /** Taking one more element of `items` after `done` appends it. */
  lemma SnocSlices<T>(done: seq<T>, items: seq<T>, j: nat)
    requires j < |items|
    ensures done + items[..j + 1] == (done + items[..j]) + [items[j]]
  {
    assert items[..j + 1] == items[..j] + [items[j]];
  }

  /** The parts of a sequence with one element appended. */
  lemma SnocParts<T>(a: seq<T>, d: T)
    ensures |a + [d]| == |a| + 1 && (a + [d])[..|a|] == a && (a + [d])[|a|] == d
  {
  }
}
