/**
 * Ascending order on bin values: enumerating a finite set of bins in ascending order, and
 * the fact that this enumeration is the only strictly ascending one.
 */
module Ordering {

  predicate StrictlyAscending(ks: seq<real>)
  {
    forall i, j :: 0 <= i < j < |ks| ==> ks[i] < ks[j]
  }

  predicate Distinct(xs: seq<real>)
  {
    forall i, j :: 0 <= i < j < |xs| ==> xs[i] != xs[j]
  }

  /** Places x, which is not yet present, at its position in an ascending sequence. */
  function Insert(ks: seq<real>, x: real): (r: seq<real>)
    requires StrictlyAscending(ks) && x !in ks
    ensures StrictlyAscending(r)
    ensures forall y :: y in r <==> y in ks || y == x
  {
    if ks == [] || x < ks[0] then [x] + ks
    else
      var tail := Insert(ks[1..], x);
      HeadBelowRest(ks);
      forall j | 0 <= j < |tail|
        ensures ks[0] < tail[j]
      {
        assert tail[j] in tail;
      }
      [ks[0]] + tail
  }

  lemma HeadBelowRest(ks: seq<real>)
    requires StrictlyAscending(ks) && ks != []
    ensures forall y :: y in ks[1..] ==> ks[0] < y
  {
    forall y | y in ks[1..]
      ensures ks[0] < y
    {
      var k :| 0 <= k < |ks[1..]| && ks[1..][k] == y;
      assert ks[k + 1] == y;
    }
  }

  /** Sorts distinct keys into ascending order. */
  method SortAscending(keys: seq<real>) returns (ks: seq<real>)
    requires Distinct(keys)
    ensures StrictlyAscending(ks)
    ensures forall x :: x in ks <==> x in keys
  {
    ks := [];
    for i := 0 to |keys|
      invariant StrictlyAscending(ks)
      invariant forall x :: x in ks <==> x in keys[..i]
    {
      assert keys[..i + 1] == keys[..i] + [keys[i]];
      ks := Insert(ks, keys[i]);
    }
    assert keys[..|keys|] == keys;
  }

  /** Two strictly ascending sequences with the same elements are equal. */
  lemma {:induction false} AscendingUnique(xs: seq<real>, ys: seq<real>)
    requires StrictlyAscending(xs) && StrictlyAscending(ys)
    requires forall x :: x in xs <==> x in ys
    ensures xs == ys
    decreases |xs|
  {
    HeadIsMember(xs);
    HeadIsMember(ys);
    if xs != [] && ys != [] {
      assert xs[0] == ys[0] by {
        assert xs[0] in xs && ys[0] in ys;
        assert xs[0] in ys && ys[0] in xs;
      }
      forall x
        ensures x in xs[1..] <==> x in ys[1..]
      {
        assert x in xs[1..] <==> x in xs && x != xs[0];
        assert x in ys[1..] <==> x in ys && x != ys[0];
      }
      AscendingUnique(xs[1..], ys[1..]);
      assert xs == [xs[0]] + xs[1..] && ys == [ys[0]] + ys[1..];
    }
  }

  /** Stated without a precondition, so that it can be called where the two sequences'
      emptiness is still undecided. */
  lemma HeadIsMember(xs: seq<real>)
    ensures xs != [] ==> xs[0] in xs
  {
  }

}
