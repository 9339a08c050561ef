/** What several modules need about sequences and counting. */
module Basics {

  function One(b: bool): int { if b then 1 else 0 }

  ghost predicate Distinct<T>(q: seq<T>) { forall i, j :: 0 <= i < j < |q| ==> q[i] != q[j] }

  function Concat<T>(qs: seq<seq<T>>): seq<T> {
    if qs == [] then [] else qs[0] + Concat(qs[1..])
  }
}
