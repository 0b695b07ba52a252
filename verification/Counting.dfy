/** Counting what is in flight: the size of a set that gains or loses one element. */
module Counting {
  function Bit(b: bool): nat {
    if b then 1 else 0
  }

  /** Two sets that agree but for one element. */
  lemma CountOne<T>(before: set<T>, after: set<T>, x: T)
    requires before - {x} == after - {x}
    ensures |after| == |before| - Bit(x in before) + Bit(x in after)
  {
    Without(before, x);
    Without(after, x);
  }

  lemma Without<T>(s: set<T>, x: T)
    ensures |s| == |s - {x}| + Bit(x in s)
  {
  }
}
