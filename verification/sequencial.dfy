/**
 * The "highest id + 1" numbering used for staff users, products and orders.
 * The store's descending sort puts documents without the field last, so the
 * top document carries the largest id present, if any.
 */
module Sequencial {
  import opened Wrappers

  /** The largest non-null value of `ids`, or null when there is none. */
  function Maior(ids: seq<Option<int>>): (r: Option<int>)
    ensures r.None? <==> forall i :: 0 <= i < |ids| ==> ids[i].None?
    ensures r.Some? ==> Some(r.value) in ids && forall i :: 0 <= i < |ids| && ids[i].Some? ==> ids[i].value <= r.value
  {
    if ids == [] then None
    else
      var resto := Maior(ids[1..]);
      match ids[0]
      case None => resto
      case Some(v) => if resto.Some? && resto.value > v then resto else Some(v)
  }

  /** Highest id + 1, or 1 when no document has an id. */
  function Proximo(ids: seq<Option<int>>): (n: int)
    ensures forall i :: 0 <= i < |ids| && ids[i].Some? ==> ids[i].value < n
    ensures (forall i :: 0 <= i < |ids| ==> ids[i].None?) ==> n == 1
    ensures (exists i :: 0 <= i < |ids| && ids[i].Some?) ==> Some(n - 1) in ids
  {
    match Maior(ids)
    case None => 1
    case Some(m) => m + 1
  }
}
