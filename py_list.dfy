/**
  Python list slicing and indexing, with their handling of negative numbers.
*/
module PyList {

  /** `xs[:k]`: a negative `k` counts from the end; out-of-range bounds clamp. */
  function SliceTo<T>(xs: seq<T>, k: int): (r: seq<T>)
    ensures k >= 0 ==> |r| == if k < |xs| then k else |xs|
    ensures k < 0 ==> |r| == if -k < |xs| then |xs| + k else 0
    ensures r == xs[..|r|]
  {
    if k >= 0 then (if k < |xs| then xs[..k] else xs)
    else if -k < |xs| then xs[..|xs| + k]
    else []
  }

  /** `xs[i]` does not raise IndexError. */
  predicate IndexOk<T>(xs: seq<T>, i: int) {
    -|xs| <= i < |xs|
  }

  /** `xs[i]`, a negative `i` counting from the end. */
  function At<T>(xs: seq<T>, i: int): (r: T)
    requires IndexOk(xs, i)
    ensures r in xs
    ensures 0 <= i ==> r == xs[i]
    ensures i < 0 ==> r == xs[|xs| + i]
  {
    if i >= 0 then xs[i] else xs[|xs| + i]
  }

  /** Taking at least as many elements as the list holds is the identity. */
  lemma SliceToAll<T>(xs: seq<T>, k: int)
    requires k >= |xs|
    ensures SliceTo(xs, k) == xs
  {
  }
}
