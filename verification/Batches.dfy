/** Numbered things collected into batches, each exactly once. */
module Batches {

  function Flat(batches: seq<seq<nat>>): seq<nat> {
    if batches == [] then [] else Flat(batches[..|batches| - 1]) + batches[|batches| - 1]
  }

  function Upto(n: nat): seq<nat> {
    seq(n, i => i)
  }

  /** The numbers 0 to n - 1, in order, each in one closed batch or in the open one. */
  predicate Partitions(closed: seq<seq<nat>>, current: seq<nat>, n: nat) {
    Flat(closed) + current == Upto(n)
  }

  lemma Joins(closed: seq<seq<nat>>, current: seq<nat>, n: nat)
    requires Partitions(closed, current, n)
    ensures Partitions(closed, current + [n], n + 1)
  {
    assert Flat(closed) + (current + [n]) == Flat(closed) + current + [n];
    assert Upto(n + 1) == Upto(n) + [n];
  }

  lemma Closes(closed: seq<seq<nat>>, current: seq<nat>, n: nat)
    requires Partitions(closed, current, n)
    ensures Partitions(closed + [current], [], n)
  {
    assert (closed + [current])[..|closed|] == closed;
  }
}
