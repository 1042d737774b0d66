/** The patch tensor, flattened to a sequence of reals, and the projection
    `torch.clamp(patch, -1, 1)` applied after every step. */
module Patches {

  function Dist(a: real, b: real): real {
    if a < b then b - a else a - b
  }

  /** Clamping one element: the point of [-1, 1] nearest to `v`. */
  function ClampValue(v: real): (c: real)
    ensures -1.0 <= c <= 1.0
    ensures forall w :: -1.0 <= w <= 1.0 ==> Dist(c, v) <= Dist(w, v)
  {
    if v < -1.0 then -1.0 else if v > 1.0 then 1.0 else v
  }

  predicate InRange(p: seq<real>) {
    forall i :: 0 <= i < |p| ==> -1.0 <= p[i] <= 1.0
  }

  /** Element-wise projection into [-1, 1]: the shape is kept, every element
      ends in range, and a patch already in range is left as it is. */
  function Clamp(p: seq<real>): (r: seq<real>)
    ensures |r| == |p|
    ensures InRange(r)
    ensures forall i :: 0 <= i < |p| ==> r[i] == ClampValue(p[i])
    ensures InRange(p) ==> r == p
  {
    seq(|p|, i requires 0 <= i < |p| => ClampValue(p[i]))
  }

  lemma ClampIdempotent(p: seq<real>)
    ensures Clamp(Clamp(p)) == Clamp(p)
  {
  }

  /** The live patch tensor that training updates in place (`patch.data = ...`). */
  class LivePatch {
    var data: seq<real>

    constructor (init: seq<real>)
      ensures data == init
    {
      data := init;
    }
  }
}
