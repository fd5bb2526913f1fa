/** Positions in a list, listed in ascending order. */
module Positions {
  ghost predicate Ascending(ps: seq<nat>, n: nat) {
    && (forall k :: 0 <= k < |ps| ==> ps[k] < n)
    && (forall j, k :: 0 <= j < k < |ps| ==> ps[j] < ps[k])
  }

  lemma EmptyAscends()
    ensures Ascending([], 0)
  {
  }

  lemma AscendingNext(ps: seq<nat>, n: nat)
    requires Ascending(ps, n)
    ensures n !in ps && Ascending(ps, n + 1) && Ascending(ps + [n], n + 1)
    ensures forall i: nat :: i in ps + [n] <==> i in ps || i == n
  {
  }
}
