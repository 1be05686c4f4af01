/**
 * Ordered walks over a list that stop at the first failure, as a Go
 * `for ... { if err != nil { return err } }` loop or a `ForEach` callback
 * returning an error does.
 */
module Folds {
  import opened Wrappers

  /** Applies `f` to each element in order; the first failure aborts the walk and is returned. */
  function MapAbort<A, B, E>(xs: seq<A>, f: A -> Result<B, E>): (r: Result<seq<B>, E>)
    ensures r.Ok? ==> |r.value| == |xs|
  {
    if xs == [] then Ok([])
    else
      match MapAbort(xs[..|xs| - 1], f)
      case Err(e) => Err(e)
      case Ok(ys) =>
        match f(xs[|xs| - 1])
        case Err(e) => Err(e)
        case Ok(y) => Ok(ys + [y])
  }

  /** One more step of the walk: how the result on `xs[..i+1]` follows from the one on `xs[..i]`. */
  lemma MapAbortStep<A, B, E>(xs: seq<A>, f: A -> Result<B, E>, i: nat)
    requires i < |xs|
    ensures MapAbort(xs[..i + 1], f) ==
      match MapAbort(xs[..i], f)
      case Err(e) => Err(e)
      case Ok(ys) => (match f(xs[i]) case Err(e) => Err(e) case Ok(y) => Ok(ys + [y]))
  {
    assert xs[..i + 1][..i] == xs[..i];
  }

  /** A failure on a prefix is the failure of the whole walk: nothing after it is looked at. */
  lemma {:induction false} MapAbortPrefixErr<A, B, E>(xs: seq<A>, f: A -> Result<B, E>, i: nat)
    requires i <= |xs|
    requires MapAbort(xs[..i], f).Err?
    ensures MapAbort(xs, f) == MapAbort(xs[..i], f)
    decreases |xs| - i
  {
    if i == |xs| {
      assert xs[..i] == xs;
    } else {
      MapAbortStep(xs, f, i);
      MapAbortPrefixErr(xs, f, i + 1);
    }
  }

  /** A successful walk yields, position by position, the value `f` gives the element there. */
  lemma {:induction false} MapAbortOkElements<A, B, E>(xs: seq<A>, f: A -> Result<B, E>)
    requires MapAbort(xs, f).Ok?
    ensures forall i :: 0 <= i < |xs| ==> f(xs[i]) == Ok(MapAbort(xs, f).value[i])
  {
    if xs != [] {
      MapAbortOkElements(xs[..|xs| - 1], f);
    }
  }

  /**
   * The walk fails exactly when some element fails, and then with the error of the
   * first failing element.
   */
  lemma {:induction false} MapAbortFirstError<A, B, E>(xs: seq<A>, f: A -> Result<B, E>)
    ensures MapAbort(xs, f).Err? <==> exists i :: 0 <= i < |xs| && f(xs[i]).Err?
    ensures MapAbort(xs, f).Err? ==>
      exists i :: 0 <= i < |xs| && f(xs[i]) == Err(MapAbort(xs, f).error) &&
        forall j :: 0 <= j < i ==> f(xs[j]).Ok?
  {
    if xs != [] {
      var init := xs[..|xs| - 1];
      MapAbortFirstError(init, f);
      if MapAbort(init, f).Err? {
        var i :| 0 <= i < |init| && f(init[i]) == Err(MapAbort(init, f).error) &&
          forall j :: 0 <= j < i ==> f(init[j]).Ok?;
        assert f(xs[i]) == Err(MapAbort(xs, f).error);
      } else {
        MapAbortOkElements(init, f);
        assert forall j :: 0 <= j < |init| ==> f(xs[j]).Ok?;
        if f(xs[|xs| - 1]).Err? {
          assert f(xs[|xs| - 1]) == Err(MapAbort(xs, f).error);
        }
      }
    }
  }
}
