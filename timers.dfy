/** The browser's timer queue, reduced to the one choice it makes: of the
    callbacks scheduled with setTimeout, the one whose due time is earliest
    runs next, and among callbacks due at the same time the one scheduled
    first runs first. */
module Timers {

  /** Index of the timer that fires next, given the due times of the pending
      timers in the order they were scheduled. */
  function Earliest(dues: seq<nat>): (k: nat)
    requires |dues| > 0
    ensures k < |dues|
    ensures forall j :: 0 <= j < |dues| ==> dues[k] <= dues[j]
    ensures forall j :: 0 <= j < k ==> dues[k] < dues[j]
  {
    if |dues| == 1 then 0
    else
      var rest := Earliest(dues[1..]);
      if dues[0] <= dues[rest + 1] then 0 else rest + 1
  }

  /** Index of the pending timer that fires next. */
  function Next<P>(q: seq<P>, due: P -> nat): (k: nat)
    requires q != []
    ensures k < |q|
    ensures forall j :: 0 <= j < |q| ==> due(q[k]) <= due(q[j])
    ensures forall j :: 0 <= j < k ==> due(q[k]) < due(q[j])
  {
    var dues := seq(|q|, i requires 0 <= i < |q| => due(q[i]));
    var k := Earliest(dues);
    assert forall j :: 0 <= j < |q| ==> dues[j] == due(q[j]);
    k
  }

  /** Removes the timer at index `k` once it has fired; the others keep their
      scheduling order. */
  function RemoveAt<T>(q: seq<T>, k: nat): (r: seq<T>)
    requires k < |q|
    ensures |r| == |q| - 1
    ensures forall j :: 0 <= j < k ==> r[j] == q[j]
    ensures forall j :: k <= j < |r| ==> r[j] == q[j + 1]
  {
    q[..k] + q[k + 1..]
  }
}
