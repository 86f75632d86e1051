/** Facts about sequences that more than one store relies on. */
module Sequences {
  /** Cutting out position `i` keeps the others in order and loses exactly that element. */
  lemma SpliceOut<T>(xs: seq<T>, i: nat)
    requires i < |xs|
    ensures var rest := xs[..i] + xs[i + 1..];
      && |rest| == |xs| - 1
      && (forall k :: 0 <= k < i ==> rest[k] == xs[k])
      && (forall k :: i <= k < |rest| ==> rest[k] == xs[k + 1])
      && multiset(rest) + multiset{xs[i]} == multiset(xs)
  {
    var front, back := xs[..i], xs[i + 1..];
    assert xs == front + [xs[i]] + back;
    assert multiset(xs) == multiset(front) + multiset{xs[i]} + multiset(back);
  }
}
