/** Option and Result, the failure-compatible wrappers used throughout the model. */
module Wrappers {

  datatype Option<+T> = None | Some(value: T)

  /** A Python call either returns a value or raises; `Err` carries what was raised. */
  datatype Result<+T, +E> = Ok(value: T) | Err(error: E) {
    predicate IsFailure() { Err? }

    function PropagateFailure<U>(): Result<U, E>
      requires Err?
    {
      Err(error)
    }

    function Extract(): T
      requires Ok?
    {
      value
    }
  }

  /** `[f(x) for x in xs]` where `f` may raise: `None` as soon as one element fails. */
  function TryMap<A, B>(xs: seq<A>, f: A -> Option<B>): (r: Option<seq<B>>)
    ensures r.Some? <==> forall k :: 0 <= k < |xs| ==> f(xs[k]).Some?
    ensures r.Some? ==> |r.value| == |xs|
    ensures r.Some? ==> forall k :: 0 <= k < |xs| ==> r.value[k] == f(xs[k]).value
    decreases |xs|
  {
    if xs == [] then Some([])
    else
      var head := f(xs[0]);
      var rest := TryMap(xs[1..], f);
      if head.Some? && rest.Some? then Some([head.value] + rest.value)
      else
        assert head.None? || exists k :: 1 <= k < |xs| && f(xs[k]).None? by {
          if head.Some? {
            var k :| 0 <= k < |xs| - 1 && f(xs[1..][k]).None?;
            assert f(xs[k + 1]).None?;
          }
        }
        None
  }
}
