/** Optional values and results with an error, as the accessor's operations return them. */
module Wrappers {

  datatype Option<+T> = None | Some(value: T)

  datatype Result<+T, +E> = Success(value: T) | Failure(error: E)

  /**
   * A list comprehension [f(x) for x in xs] whose calls may raise: the results
   * in order, or the error of the first element whose call fails.
   */
  function MapAll<A, B, E>(f: A -> Result<B, E>, xs: seq<A>): (r: Result<seq<B>, E>)
    ensures r.Success? <==> forall i :: 0 <= i < |xs| ==> f(xs[i]).Success?
    ensures r.Success? ==> |r.value| == |xs|
    ensures r.Success? ==> forall i :: 0 <= i < |xs| ==> r.value[i] == f(xs[i]).value
    ensures r.Failure? ==> exists i :: 0 <= i < |xs| && f(xs[i]) == Failure(r.error)
                                     && forall k :: 0 <= k < i ==> f(xs[k]).Success?
  {
    if xs == [] then Success([])
    else
      var last := |xs| - 1;
      assert forall i :: 0 <= i < last ==> xs[..last][i] == xs[i];
      match MapAll(f, xs[..last])
      case Failure(e) => Failure(e)
      case Success(ys) =>
        match f(xs[last])
        case Failure(e) => Failure(e)
        case Success(y) => Success(ys + [y])
  }
}
