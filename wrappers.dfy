/** Option and Result: absent values and raised exceptions of the modelled code. */
module Wrappers {

  datatype Option<+T> = None | Some(value: T) {
    function GetOr(default: T): T {
      match this
      case Some(v) => v
      case None => default
    }
  }

  /** A Python call that either returns a value or raises an exception carrying a message. */
  datatype Result<+R, +E> = Ok(value: R) | Err(error: E)

  /** A raised Python exception: its class name and its message. */
  datatype Exception = Exception(kind: string, message: string)

  function RuntimeError(message: string): Exception {
    Exception("RuntimeError", message)
  }

  /** The values present in a sequence of options, in order. */
  function Present<T>(xs: seq<Option<T>>): (r: seq<T>)
    ensures |r| <= |xs|
  {
    if xs == [] then []
    else
      var n := |xs| - 1;
      if xs[n].Some? then Present(xs[..n]) + [xs[n].value] else Present(xs[..n])
  }

  lemma {:induction false} PresentAllSome<T>(xs: seq<Option<T>>)
    requires forall i :: 0 <= i < |xs| ==> xs[i].Some?
    ensures |Present(xs)| == |xs|
    ensures forall i :: 0 <= i < |xs| ==> Present(xs)[i] == xs[i].value
  {
    if xs != [] {
      var n := |xs| - 1;
      assert forall i :: 0 <= i < n ==> xs[..n][i] == xs[i];
      PresentAllSome(xs[..n]);
    }
  }

  /** One more element adds its value, if any, to the present values. */
  lemma PresentStep<T>(xs: seq<Option<T>>, i: nat)
    requires i < |xs|
    ensures Present(xs[..i + 1]) == Present(xs[..i]) + (if xs[i].Some? then [xs[i].value] else [])
  {
    assert xs[..i + 1][..i] == xs[..i];
  }

  /** Every present value comes from some position. */
  lemma {:induction false} PresentMember<T>(xs: seq<Option<T>>, x: T) returns (i: nat)
    requires x in Present(xs)
    ensures i < |xs| && xs[i] == Some(x)
  {
    var n := |xs| - 1;
    if xs[n] == Some(x) {
      i := n;
    } else {
      i := PresentMember(xs[..n], x);
      assert xs[..n][i] == xs[i];
    }
  }
}
