/** Option, Result and sums over sequences, shared by the other modules. */
module Prelude {

  datatype Option<+T> = None | Some(value: T)

  datatype Result<+R, +E> = Ok(value: R) | Err(error: E)

  // JavaScript's `x ?? other`.
  function Or<T>(x: Option<T>, other: T): T {
    if x.Some? then x.value else other
  }

  // JavaScript's Math.round over the reals: half goes up.
  function JsRound(x: real): int {
    (x + 0.5).Floor
  }

  // Math.round(x * 100) / 100.
  function Round2(x: real): real {
    JsRound(x * 100.0) as real / 100.0
  }

  /** What Math.round(x * 100) / 100 guarantees: half a cent of error, and whole cents are fixed points. */
  lemma Round2Error(x: real)
    ensures -0.005 <= Round2(x) - x <= 0.005
  {
    var y := x * 100.0;
    assert JsRound(y) as real <= y + 0.5 < JsRound(y) as real + 1.0;
  }

  lemma Round2OnCents(n: int)
    ensures Round2(n as real / 100.0) == n as real / 100.0
  {
    var x := n as real / 100.0;
    assert x * 100.0 == n as real;
    assert (n as real + 0.5).Floor == n;
  }

  // --- integer sums -------------------------------------------------------

  ghost function Sum<T>(xs: seq<T>, f: T -> int): int {
    if xs == [] then 0 else Sum(xs[..|xs| - 1], f) + f(xs[|xs| - 1])
  }

  lemma SumAppend<T>(xs: seq<T>, x: T, f: T -> int)
    ensures Sum(xs + [x], f) == Sum(xs, f) + f(x)
  {
    assert (xs + [x])[..|xs|] == xs;
  }

  lemma SumOne<T>(x: T, f: T -> int)
    ensures Sum([x], f) == f(x)
  {
    assert [x][..0] == [];
  }

  lemma {:induction false} SumUpdate<T>(xs: seq<T>, i: nat, x: T, f: T -> int)
    requires i < |xs|
    ensures Sum(xs[i := x], f) == Sum(xs, f) - f(xs[i]) + f(x)
  {
    var n := |xs| - 1;
    if i == n {
      assert xs[i := x][..n] == xs[..n];
    } else {
      assert xs[i := x][..n] == xs[..n][i := x];
      SumUpdate(xs[..n], i, x, f);
    }
  }

  lemma {:induction false} SumConcat<T>(xs: seq<T>, ys: seq<T>, f: T -> int)
    ensures Sum(xs + ys, f) == Sum(xs, f) + Sum(ys, f)
  {
    if ys == [] {
      assert xs + ys == xs;
    } else {
      var n := |ys| - 1;
      assert xs + ys == (xs + ys[..n]) + [ys[n]];
      SumConcat(xs, ys[..n], f);
      SumAppend(xs + ys[..n], ys[n], f);
    }
  }

  // A sequence cut around one of its elements.
  lemma CutAround<T>(xs: seq<T>, i: nat)
    requires i < |xs|
    ensures xs == (xs[..i] + [xs[i]]) + xs[i + 1..]
  {
  }

  lemma SumRemove<T>(xs: seq<T>, i: nat, f: T -> int)
    requires i < |xs|
    ensures Sum(xs[..i] + xs[i + 1..], f) == Sum(xs, f) - f(xs[i])
  {
    hide Sum;
    CutAround(xs, i);
    SumConcat(xs[..i], xs[i + 1..], f);
    SumAppend(xs[..i], xs[i], f);
    SumConcat(xs[..i] + [xs[i]], xs[i + 1..], f);
  }

  /** A sum of terms of one sign is zero exactly when every term is. */
  lemma {:induction false} SumZeroIff<T>(xs: seq<T>, f: T -> int)
    requires forall x | x in xs :: f(x) >= 0
    ensures Sum(xs, f) >= 0
    ensures Sum(xs, f) == 0 <==> forall x | x in xs :: f(x) == 0
  {
    if xs != [] {
      var n := |xs| - 1;
      SumZeroIff(xs[..n], f);
      assert xs == xs[..n] + [xs[n]];
    }
  }

  lemma {:induction false} SumEqual<T>(xs: seq<T>, f: T -> int, g: T -> int)
    requires forall x | x in xs :: f(x) == g(x)
    ensures Sum(xs, f) == Sum(xs, g)
  {
    if xs != [] {
      SumEqual(xs[..|xs| - 1], f, g);
    }
  }

  // --- real sums ----------------------------------------------------------

  ghost function SumReal<T>(xs: seq<T>, f: T -> real): real {
    if xs == [] then 0.0 else SumReal(xs[..|xs| - 1], f) + f(xs[|xs| - 1])
  }

  lemma SumRealAppend<T>(xs: seq<T>, x: T, f: T -> real)
    ensures SumReal(xs + [x], f) == SumReal(xs, f) + f(x)
  {
    assert (xs + [x])[..|xs|] == xs;
  }

  lemma {:induction false} SumRealUpdate<T>(xs: seq<T>, i: nat, x: T, f: T -> real)
    requires i < |xs|
    ensures SumReal(xs[i := x], f) == SumReal(xs, f) - f(xs[i]) + f(x)
  {
    var n := |xs| - 1;
    if i == n {
      assert xs[i := x][..n] == xs[..n];
    } else {
      assert xs[i := x][..n] == xs[..n][i := x];
      SumRealUpdate(xs[..n], i, x, f);
    }
  }

  lemma {:induction false} SumRealEqual<T>(xs: seq<T>, f: T -> real, g: T -> real)
    requires forall x | x in xs :: f(x) == g(x)
    ensures SumReal(xs, f) == SumReal(xs, g)
  {
    if xs != [] {
      SumRealEqual(xs[..|xs| - 1], f, g);
    }
  }
}
