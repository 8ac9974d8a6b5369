/** Concatenating the record lists of several acts, act after act, with the
    position at which each act's records start. */
module Flattening {
  import opened JsValues

  /** The record lists, one after another. */
  function Flatten(xss: seq<seq<Json>>): (r: seq<Json>)
    ensures |r| == Offset(xss, |xss|)
  {
    if xss == [] then []
    else
      OffsetPrefix(xss, |xss| - 1, |xss| - 1);
      Flatten(xss[..|xss| - 1]) + xss[|xss| - 1]
  }

  /** The number of records before list `i`. */
  function Offset(xss: seq<seq<Json>>, i: nat): nat
    requires i <= |xss|
  {
    if i == 0 then 0 else Offset(xss, i - 1) + |xss[i - 1]|
  }

  lemma {:induction false} OffsetPrefix(xss: seq<seq<Json>>, k: nat, i: nat)
    requires i <= k <= |xss|
    ensures Offset(xss[..k], i) == Offset(xss, i)
  {
    if i > 0 {
      OffsetPrefix(xss, k, i - 1);
      assert xss[..k][i - 1] == xss[i - 1];
    }
  }

  /** Flattening one more list appends its records. */
  lemma FlattenSnoc(xss: seq<seq<Json>>, i: nat)
    requires i < |xss|
    ensures Flatten(xss[..i + 1]) == Flatten(xss[..i]) + xss[i]
  {
    assert xss[..i + 1][..i] == xss[..i];
  }

  /** Record `j` of list `i` sits after the records of the lists before it. */
  lemma {:induction false} FlattenAt(xss: seq<seq<Json>>, i: nat, j: nat)
    requires i < |xss| && j < |xss[i]|
    ensures Offset(xss, i) + j < |Flatten(xss)|
    ensures Flatten(xss)[Offset(xss, i) + j] == xss[i][j]
  {
    var init, last := xss[..|xss| - 1], xss[|xss| - 1];
    assert Flatten(xss) == Flatten(init) + last;
    OffsetPrefix(xss, |xss| - 1, |init|);
    if i < |init| {
      assert init[i] == xss[i];
      FlattenAt(init, i, j);
      OffsetPrefix(xss, |xss| - 1, i);
    }
  }
}
