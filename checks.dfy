// The shape every envelope validator shares: a `for i, x := range xs` loop
// that returns at the first element failing a check.
module Checks {
  import opened Wrappers

  /** The index at which a scan over xs, started at `from`, stops: the first
      element that fails, or |xs| when none does. */
  function FirstFailing<T>(xs: seq<T>, fails: T -> bool, from: nat): (k: nat)
    requires from <= |xs|
    ensures from <= k <= |xs|
    ensures forall j :: from <= j < k ==> !fails(xs[j])
    ensures k < |xs| ==> fails(xs[k])
    decreases |xs| - from
  {
    if from == |xs| then from
    else if fails(xs[from]) then from
    else FirstFailing(xs, fails, from + 1)
  }

  /** The same scan driven by a validator: the index of the first element
      whose check returns an error, or |xs| when none does. */
  function FirstError<T, E>(xs: seq<T>, check: T -> Option<E>, from: nat): (k: nat)
    requires from <= |xs|
    ensures from <= k <= |xs|
    ensures forall j :: from <= j < k ==> check(xs[j]).None?
    ensures k < |xs| ==> check(xs[k]).Some?
    decreases |xs| - from
  {
    if from == |xs| then from
    else if check(xs[from]).Some? then from
    else FirstError(xs, check, from + 1)
  }
}
