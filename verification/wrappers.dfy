/** Failure-compatible wrappers shared by the model. */
module Wrappers {

  datatype Option<+T> = None | Some(value: T)

  /** The JavaScript exceptions the modelled code can raise. */
  datatype Error =
    | TypeError   // property access on null/undefined, property write on a primitive, missing method
    | RangeError  // an array length set to a non-number

  datatype Result<+R> = Ok(value: R) | Err(error: Error) {
    predicate IsFailure() {
      Err?
    }

    function PropagateFailure<U>(): Result<U>
      requires Err?
    {
      Err(error)
    }

    function Extract(): R
      requires Ok?
    {
      value
    }
  }

  /** Apply `f` to each element in order; the first failure is the result. */
  function MapResult<T, U>(xs: seq<T>, f: T -> Result<U>): (r: Result<seq<U>>)
    ensures r.Ok? <==> forall i :: 0 <= i < |xs| ==> f(xs[i]).Ok?
    ensures r.Ok? ==> |r.value| == |xs| && forall i :: 0 <= i < |xs| ==> r.value[i] == f(xs[i]).value
  {
    if xs == [] then Ok([])
    else
      var init :- MapResult(xs[..|xs| - 1], f);
      var y :- f(xs[|xs| - 1]);
      Ok(init + [y])
  }

  /** The first element `f` fails on decides the error. */
  lemma {:induction false} MapResultFails<T, U>(xs: seq<T>, k: nat, f: T -> Result<U>)
    requires k < |xs| && f(xs[k]).Err?
    requires forall j :: 0 <= j < k ==> f(xs[j]).Ok?
    ensures MapResult(xs, f) == Err(f(xs[k]).error)
    decreases |xs|
  {
    if k < |xs| - 1 {
      MapResultFails(xs[..|xs| - 1], k, f);
    } else {
      assert MapResult(xs[..k], f).Ok?;
    }
  }

  /** One more element on a successful prefix: its failure or its value. */
  lemma MapResultNext<T, U>(xs: seq<T>, i: nat, f: T -> Result<U>)
    requires i < |xs| && MapResult(xs[..i], f).Ok?
    ensures MapResult(xs[..i + 1], f) ==
            if f(xs[i]).Err? then Err(f(xs[i]).error) else Ok(MapResult(xs[..i], f).value + [f(xs[i]).value])
  {
    assert xs[..i + 1][..i] == xs[..i];
  }

  /** A prefix that has failed, or is the whole input, decides the result. */
  lemma {:induction false} MapResultDone<T, U>(xs: seq<T>, i: nat, f: T -> Result<U>)
    requires i <= |xs| && (MapResult(xs[..i], f).Err? || i == |xs|)
    ensures MapResult(xs, f) == MapResult(xs[..i], f)
    decreases |xs|
  {
    if i < |xs| {
      var init := xs[..|xs| - 1];
      assert init[..i] == xs[..i];
      MapResultDone(init, i, f);
    } else {
      assert xs[..i] == xs;
    }
  }
}
