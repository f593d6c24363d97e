/** Python's `max` and `sum` over lists, as the placer uses them. */
module Seqs {

  /** `max(range(len(keys)), key=lambda i: keys[i])`: Python's `max` keeps the first element
      and replaces it only by a strictly larger one, so this is the first position of a
      largest key. */
  function ArgMax(keys: seq<real>): (k: nat)
    requires |keys| > 0
    ensures k < |keys|
    ensures forall i :: 0 <= i < |keys| ==> keys[i] <= keys[k]
    ensures forall i :: 0 <= i < k ==> keys[i] < keys[k]
    decreases |keys|
  {
    if |keys| == 1 then 0
    else
      var k := ArgMax(keys[..|keys| - 1]);
      if keys[|keys| - 1] > keys[k] then |keys| - 1 else k
  }

  /** `max(xs)` of a non-empty list of integers. */
  function Max(xs: seq<int>): (m: int)
    requires |xs| > 0
    ensures m in xs
    ensures forall i :: 0 <= i < |xs| ==> xs[i] <= m
    decreases |xs|
  {
    if |xs| == 1 then xs[0]
    else
      var m := Max(xs[1..]);
      if xs[0] > m then xs[0] else m
  }

  /** `sum(xs)`. */
  function Sum(xs: seq<int>): int
    decreases |xs|
  {
    if xs == [] then 0 else xs[0] + Sum(xs[1..])
  }
}
