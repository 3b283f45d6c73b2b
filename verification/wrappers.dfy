/** Option and Result, the wrappers every module uses for the source's
    `Option<T>` and `Result<T, E>` values, and Outcome for code that can
    panic (an `unwrap` on a missing value, an `unreachable!`), and the
    filter-map that several loops of the source perform. */
module Wrappers {
  datatype Option<T> = None | Some(value: T)

  datatype Result<T, E> = Ok(value: T) | Err(error: E)

  datatype Outcome<T> = Returned(value: T) | Panicked

  /** `f` applied to each element, keeping the values and skipping the
      Nones, in order. */
  function FilterMap<A, B>(xs: seq<A>, f: A -> Option<B>): seq<B>
  {
    if xs == [] then []
    else
      var rest := FilterMap(xs[..|xs| - 1], f);
      var y := f(xs[|xs| - 1]);
      if y.Some? then rest + [y.value] else rest
  }

  /** Every kept value comes from an element, every element with a value
      is kept, and nothing is kept only when every element maps to None. */
  lemma {:induction false} FilterMapMembership<A, B>(xs: seq<A>, f: A -> Option<B>, y: B)
    ensures |FilterMap(xs, f)| <= |xs|
    ensures y in FilterMap(xs, f) <==> exists i | 0 <= i < |xs| :: f(xs[i]) == Some(y)
    ensures FilterMap(xs, f) == [] <==> forall i | 0 <= i < |xs| :: f(xs[i]).None?
  {
    if xs != [] {
      var n := |xs| - 1;
      FilterMapMembership(xs[..n], f, y);
      assert forall i | 0 <= i < n :: xs[..n][i] == xs[i];
      if y in FilterMap(xs, f) && f(xs[n]) != Some(y) {
        assert y in FilterMap(xs[..n], f);
      }
    }
  }

  /** A loop that pushes the convertible elements and skips (`continue`)
      the others. */
  method Collect<A, B>(xs: seq<A>, f: A -> Option<B>) returns (ys: seq<B>)
    ensures ys == FilterMap(xs, f)
  {
    ys := [];
    for i := 0 to |xs|
      invariant ys == FilterMap(xs[..i], f)
    {
      assert xs[..i + 1][..i] == xs[..i];
      var y := f(xs[i]);
      if y.Some? {
        ys := ys + [y.value];
      }
    }
    assert xs[..|xs|] == xs;
  }
}
