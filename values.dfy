/**
 * Cell values as the pipeline's data frames hold them: a real number or a
 * missing one (pandas' NaN), with the skip-missing reductions (sum, mean,
 * minimum, maximum) and the forward and backward fills the pipeline uses.
 */
module Values {

  datatype Option<T> = None | Some(value: T)

  /** Sum of a sequence of reals. */
  function Sum(xs: seq<real>): real
  {
    if xs == [] then 0.0 else xs[0] + Sum(xs[1..])
  }

  lemma {:induction false} SumAppend(a: seq<real>, b: seq<real>)
    ensures Sum(a + b) == Sum(a) + Sum(b)
  {
    if a == [] {
      assert a + b == b;
    } else {
      assert (a + b)[1..] == a[1..] + b;
      SumAppend(a[1..], b);
    }
  }

  /** The values that are not missing, in order: what a skip-missing reduction sees. */
  function Present(xs: seq<Option<real>>): seq<real>
  {
    if xs == [] then [] else (if xs[0].Some? then [xs[0].value] else []) + Present(xs[1..])
  }

  lemma {:induction false} PresentAppend(a: seq<Option<real>>, b: seq<Option<real>>)
    ensures Present(a + b) == Present(a) + Present(b)
  {
    if a == [] {
      assert a + b == b;
    } else {
      var head := if a[0].Some? then [a[0].value] else [];
      assert (a + b)[0] == a[0];
      assert (a + b)[1..] == a[1..] + b;
      PresentAppend(a[1..], b);
      assert Present(a + b) == head + (Present(a[1..]) + Present(b));
      assert Present(a) == head + Present(a[1..]);
    }
  }

  /** A sequence in which no value is missing. */
  predicate AllPresent<T>(xs: seq<Option<T>>)
  {
    forall i :: 0 <= i < |xs| ==> xs[i].Some?
  }

  /** The values of a sequence that has none missing. */
  function Unwrap(xs: seq<Option<real>>): (r: seq<real>)
    requires AllPresent(xs)
    ensures |r| == |xs| && forall i :: 0 <= i < |xs| ==> xs[i] == Some(r[i])
  {
    seq(|xs|, i requires 0 <= i < |xs| => xs[i].value)
  }

  lemma {:induction false} PresentOfAllPresent(xs: seq<Option<real>>)
    requires AllPresent(xs)
    ensures Present(xs) == Unwrap(xs)
  {
    if xs != [] {
      PresentOfAllPresent(xs[1..]);
      assert Unwrap(xs) == [xs[0].value] + Unwrap(xs[1..]);
    }
  }

  /** pandas `sum()` with skipna: missing values count as nothing, an all-missing sum is 0. */
  function SumPresent(xs: seq<Option<real>>): real
  {
    Sum(Present(xs))
  }

  /** pandas `mean()` with skipna: missing when no value is present. */
  function MeanPresent(xs: seq<Option<real>>): (r: Option<real>)
    ensures r.None? <==> Present(xs) == []
  {
    var p := Present(xs);
    if |p| == 0 then None else Some(Sum(p) / |p| as real)
  }

  /** pandas `first()` in a groupby: the first value that is not missing. */
  function FirstPresent(xs: seq<Option<real>>): (r: Option<real>)
    ensures r.None? <==> Present(xs) == []
    ensures r.Some? ==> r.value == Present(xs)[0]
  {
    if xs == [] then None else if xs[0].Some? then xs[0] else FirstPresent(xs[1..])
  }

  /** Smallest element of a non-empty sequence. */
  function Min(xs: seq<real>): (m: real)
    requires xs != []
    ensures m in xs && forall x :: x in xs ==> m <= x
  {
    if |xs| == 1 then xs[0]
    else
      var t := Min(xs[1..]);
      assert xs == [xs[0]] + xs[1..];
      if xs[0] <= t then xs[0] else t
  }

  /** Largest element of a non-empty sequence. */
  function Max(xs: seq<real>): (m: real)
    requires xs != []
    ensures m in xs && forall x :: x in xs ==> x <= m
  {
    if |xs| == 1 then xs[0]
    else
      var t := Max(xs[1..]);
      assert xs == [xs[0]] + xs[1..];
      if xs[0] >= t then xs[0] else t
  }

  lemma {:induction false} PresentMembers(xs: seq<Option<real>>, i: int)
    requires 0 <= i < |xs| && xs[i].Some?
    ensures xs[i].value in Present(xs)
  {
    if i > 0 {
      PresentMembers(xs[1..], i - 1);
    }
  }

  /** Every value a skip-missing reduction sees is a present cell. */
  lemma {:induction false} PresentIndex(xs: seq<Option<real>>, x: real)
    requires x in Present(xs)
    ensures exists i :: 0 <= i < |xs| && xs[i] == Some(x)
  {
    if xs[0] == Some(x) {
    } else {
      assert x in Present(xs[1..]);
      PresentIndex(xs[1..], x);
      var i :| 0 <= i < |xs[1..]| && xs[1..][i] == Some(x);
      assert xs[i + 1] == Some(x);
    }
  }

  /** pandas `fillna(v)`: missing values become `v`, present ones are kept. */
  function FillMissing(xs: seq<Option<real>>, v: real): (r: seq<Option<real>>)
    ensures |r| == |xs|
    ensures forall i :: 0 <= i < |xs| ==> r[i] == if xs[i].Some? then xs[i] else Some(v)
    ensures AllPresent(r)
  {
    seq(|xs|, i requires 0 <= i < |xs| => if xs[i].Some? then xs[i] else Some(v))
  }

  /** pandas `fillna(other)` with a column: a missing value takes the value in the same row of `other`. */
  function FillFrom(xs: seq<Option<real>>, other: seq<Option<real>>): (r: seq<Option<real>>)
    requires |xs| == |other|
    ensures |r| == |xs|
    ensures forall i :: 0 <= i < |xs| && xs[i].Some? ==> r[i] == xs[i]
    ensures forall i :: 0 <= i < |xs| && xs[i].None? ==> r[i] == other[i]
    ensures forall i :: 0 <= i < |xs| ==> (r[i].None? <==> xs[i].None? && other[i].None?)
    ensures AllPresent(xs) ==> r == xs
    ensures AllPresent(other) ==> AllPresent(r)
  {
    seq(|xs|, i requires 0 <= i < |xs| => if xs[i].Some? then xs[i] else other[i])
  }

  /**
   * pandas `ffill()`: a missing value takes the nearest earlier present
   * value; it stays missing when no earlier value is present.
   */
  function FFill<T>(xs: seq<Option<T>>): (r: seq<Option<T>>)
    ensures |r| == |xs|
  {
    if xs == [] then []
    else
      var p := FFill(xs[..|xs| - 1]);
      p + [if xs[|xs| - 1].Some? || p == [] then xs[|xs| - 1] else p[|p| - 1]]
  }

  /** One step of the forward fill: each position depends on its own value and the filled one before it. */
  lemma {:induction false} FFillAt<T>(xs: seq<Option<T>>, i: int)
    requires 0 <= i < |xs|
    ensures FFill(xs)[i] == if xs[i].Some? || i == 0 then xs[i] else FFill(xs)[i - 1]
  {
    var init := xs[..|xs| - 1];
    if i < |xs| - 1 {
      FFillAt(init, i);
      assert init[i] == xs[i];
    }
  }

  /** Forward fill keeps every present value. */
  lemma {:induction false} FFillKeepsPresent<T>(xs: seq<Option<T>>, i: int)
    requires 0 <= i < |xs| && xs[i].Some?
    ensures FFill(xs)[i] == xs[i]
  {
    FFillAt(xs, i);
  }

  /** A missing value becomes the nearest earlier present value. */
  lemma {:induction false} FFillTakesNearestEarlier<T>(xs: seq<Option<T>>, j: int, i: int)
    requires 0 <= j < i < |xs|
    requires xs[j].Some?
    requires forall k :: j < k <= i ==> xs[k].None?
    ensures FFill(xs)[i] == xs[j]
  {
    FFillAt(xs, i);
    if i - 1 == j {
      FFillKeepsPresent(xs, j);
    } else {
      FFillTakesNearestEarlier(xs, j, i - 1);
    }
  }

  /** A value stays missing after the forward fill exactly when it and every earlier value are missing. */
  lemma {:induction false} FFillMissingIff<T>(xs: seq<Option<T>>, i: int)
    requires 0 <= i < |xs|
    ensures FFill(xs)[i].None? <==> forall k :: 0 <= k <= i ==> xs[k].None?
  {
    FFillAt(xs, i);
    if i > 0 {
      FFillMissingIff(xs, i - 1);
    }
  }

  /** Forward filling twice fills nothing more. */
  lemma {:induction false} FFillIdempotentAt<T>(xs: seq<Option<T>>, i: int)
    requires 0 <= i < |xs|
    ensures FFill(FFill(xs))[i] == FFill(xs)[i]
  {
    var ys := FFill(xs);
    FFillAt(ys, i);
    if i > 0 && ys[i].None? {
      FFillIdempotentAt(xs, i - 1);
      FFillMissingIff(xs, i);
      FFillMissingIff(xs, i - 1);
    }
  }

  lemma FFillIdempotent<T>(xs: seq<Option<T>>)
    ensures FFill(FFill(xs)) == FFill(xs)
  {
    forall i | 0 <= i < |xs| ensures FFill(FFill(xs))[i] == FFill(xs)[i] {
      FFillIdempotentAt(xs, i);
    }
  }

  /** When the first value is present, nothing is missing after the forward fill. */
  lemma FFillFromPresentStart<T>(xs: seq<Option<T>>)
    requires xs != [] && xs[0].Some?
    ensures AllPresent(FFill(xs))
  {
    forall i | 0 <= i < |xs| ensures FFill(xs)[i].Some? {
      FFillMissingIff(xs, i);
    }
  }

  /**
   * pandas `bfill()`: a missing value takes the nearest later present
   * value; it stays missing when no later value is present.
   */
  function BFill<T>(xs: seq<Option<T>>): (r: seq<Option<T>>)
    ensures |r| == |xs|
  {
    if xs == [] then []
    else
      var rest := BFill(xs[1..]);
      [if xs[0].Some? || rest == [] then xs[0] else rest[0]] + rest
  }

  /** One step of the backward fill. */
  lemma {:induction false} BFillAt<T>(xs: seq<Option<T>>, i: int)
    requires 0 <= i < |xs|
    ensures BFill(xs)[i] == if xs[i].Some? || i == |xs| - 1 then xs[i] else BFill(xs)[i + 1]
  {
    if i > 0 {
      BFillAt(xs[1..], i - 1);
    }
  }
}
