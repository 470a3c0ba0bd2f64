/** The token slicer the visitor relies on. Its implementation is not part of
    this model; this function is its contract: take `n` tokens from the front
    of the cursor, telling a cleanly empty cursor apart from one that ran out
    part-way through a group. */
module Slicer {

  datatype Slice<T> =
    | Group(items: seq<T>, rest: seq<T>)  // `n` items, in cursor order, and what is left
    | Empty                               // no tokens at all remained
    | Exhausted                           // some, but fewer than `n`, tokens remained

  function IterSlice<T>(tokens: seq<T>, n: nat): (r: Slice<T>)
    requires n > 0
    ensures r.Empty? <==> |tokens| == 0
    ensures r.Exhausted? <==> 0 < |tokens| < n
    ensures r.Group? <==> n <= |tokens|
    ensures r.Group? ==> |r.items| == n && r.items + r.rest == tokens
  {
    if |tokens| == 0 then Empty
    else if |tokens| < n then Exhausted
    else Group(tokens[..n], tokens[n..])
  }
}
