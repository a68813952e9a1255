/** Failure-compatible Option and Result types used throughout the model. */
module Wrappers {

  datatype Option<+T> = None | Some(value: T) {
    predicate IsFailure() { None? }

    function PropagateFailure<U>(): Option<U>
      requires None?
    {
      None
    }

    function Extract(): T
      requires Some?
    {
      value
    }
  }

  datatype Result<+T, +E> = Success(value: T) | Failure(error: E) {
    predicate IsFailure() { Failure? }

    function PropagateFailure<U>(): Result<U, E>
      requires Failure?
    {
      Failure(error)
    }

    function Extract(): T
      requires Success?
    {
      value
    }
  }

  /** The values of the present entries of `os`, in order. */
  function Present<T>(os: seq<Option<T>>): (r: seq<T>)
    ensures |r| <= |os|
  {
    if os == [] then []
    else Present(os[..|os| - 1]) + (if os[|os| - 1].Some? then [os[|os| - 1].value] else [])
  }

  lemma PresentSnoc<T>(os: seq<Option<T>>, o: Option<T>)
    ensures Present(os + [o]) == Present(os) + (if o.Some? then [o.value] else [])
  {
    assert (os + [o])[..|os|] == os;
  }

  /** The values before index `i` are a prefix of all the values. */
  lemma {:induction false} PresentPrefix<T>(os: seq<Option<T>>, i: nat)
    requires i <= |os|
    ensures |Present(os[..i])| <= |Present(os)| && Present(os)[..|Present(os[..i])|] == Present(os[..i])
    decreases |os|
  {
    if i < |os| {
      var p := os[..|os| - 1];
      assert p[..i] == os[..i];
      PresentPrefix(p, i);
    } else {
      assert os[..i] == os;
    }
  }

  /** A present entry at `i` is the value right after the values before `i`. */
  lemma PresentAt<T>(os: seq<Option<T>>, i: nat)
    requires i < |os| && os[i].Some?
    ensures |Present(os[..i])| < |Present(os)| && Present(os)[|Present(os[..i])|] == os[i].value
  {
    assert os[..i + 1][..i] == os[..i];
    PresentPrefix(os, i + 1);
  }

  /** Every value comes from a present entry, and they come in order. */
  lemma {:induction false} PresentFrom<T>(os: seq<Option<T>>, k: nat) returns (i: nat)
    requires k < |Present(os)|
    ensures i < |os| && os[i] == Some(Present(os)[k]) && |Present(os[..i])| == k
    decreases |os|
  {
    var p := os[..|os| - 1];
    if k < |Present(p)| {
      i := PresentFrom(p, k);
      assert p[..i] == os[..i];
    } else {
      i := |os| - 1;
    }
  }

  /** The positions of the present entries, in increasing order: exactly the
      positions holding a value, each holding the value at its rank. */
  lemma {:induction false} PresentIndices<T>(os: seq<Option<T>>) returns (idx: seq<nat>)
    ensures |idx| == |Present(os)|
    ensures forall k :: 0 <= k < |idx| ==> idx[k] < |os| && os[idx[k]] == Some(Present(os)[k])
    ensures forall k1, k2 :: 0 <= k1 < k2 < |idx| ==> idx[k1] < idx[k2]
    ensures forall i :: 0 <= i < |os| ==> (os[i].Some? <==> i in idx)
    decreases |os|
  {
    if os == [] {
      idx := [];
    } else {
      var p := os[..|os| - 1];
      var o := os[|os| - 1];
      var pidx := PresentIndices(p);
      assert os == p + [o];
      PresentSnoc(p, o);
      idx := pidx + (if o.Some? then [|p|] else []);
      forall i | 0 <= i < |os| ensures os[i].Some? <==> i in idx {
        if i < |p| {
          assert os[i] == p[i];
          assert |p| !in pidx;
        }
      }
    }
  }
}
