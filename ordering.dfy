/**
 * Orders on group keys. pandas' `groupby` visits its groups in ascending key
 * order and `LabelEncoder` numbers the sorted distinct labels; both rest on
 * the sorted list of distinct keys defined here. Strings compare as Python
 * compares them: code point by code point, a proper prefix first.
 */
module Ordering {

  /** Python's `<` on strings. */
  predicate StrLt(a: string, b: string)
  {
    if a == [] then b != []
    else if b == [] then false
    else a[0] < b[0] || (a[0] == b[0] && StrLt(a[1..], b[1..]))
  }

  lemma {:induction false} StrLtIrreflexive(a: string)
    ensures !StrLt(a, a)
  {
    if a != [] {
      StrLtIrreflexive(a[1..]);
    }
  }

  lemma {:induction false} StrLtTransitive(a: string, b: string, c: string)
    requires StrLt(a, b) && StrLt(b, c)
    ensures StrLt(a, c)
  {
    if a != [] && b != [] && c != [] && a[0] == b[0] && b[0] == c[0] {
      StrLtTransitive(a[1..], b[1..], c[1..]);
    }
  }

  lemma {:induction false} StrLtTotal(a: string, b: string)
    ensures a == b || StrLt(a, b) || StrLt(b, a)
  {
    if a != [] && b != [] && a[0] == b[0] {
      StrLtTotal(a[1..], b[1..]);
      if a[1..] == b[1..] {
        assert a == [a[0]] + a[1..] && b == [b[0]] + b[1..];
      }
    }
  }

  /** `lt` is irreflexive, transitive and total: a strict total order. */
  ghost predicate StrictTotalOrder<T(!new)>(lt: (T, T) -> bool)
  {
    && (forall a :: !lt(a, a))
    && (forall a, b, c :: lt(a, b) && lt(b, c) ==> lt(a, c))
    && (forall a, b :: a == b || lt(a, b) || lt(b, a))
  }

  lemma StrLtIsStrictTotalOrder()
    ensures StrictTotalOrder(StrLt)
  {
    forall a: string ensures !StrLt(a, a) {
      StrLtIrreflexive(a);
    }
    forall a: string, b: string, c: string | StrLt(a, b) && StrLt(b, c) ensures StrLt(a, c) {
      StrLtTransitive(a, b, c);
    }
    forall a: string, b: string ensures a == b || StrLt(a, b) || StrLt(b, a) {
      StrLtTotal(a, b);
    }
  }

  /** `<` on day numbers. */
  predicate IntLt(a: int, b: int)
  {
    a < b
  }

  lemma IntLtIsStrictTotalOrder()
    ensures StrictTotalOrder(IntLt)
  {
  }

  /** Strictly ascending: every element precedes every later one, so none repeats. */
  ghost predicate Increasing<T(!new)>(s: seq<T>, lt: (T, T) -> bool)
  {
    forall i, j :: 0 <= i < j < |s| ==> lt(s[i], s[j])
  }

  /** Puts `x` into its place in an ascending sequence, unless it is already there. */
  function Insert<T(==,!new)>(x: T, s: seq<T>, lt: (T, T) -> bool): (r: seq<T>)
    requires StrictTotalOrder(lt) && Increasing(s, lt)
    ensures Increasing(r, lt)
    ensures forall y :: y in r <==> y == x || y in s
  {
    if s == [] then [x]
    else if x == s[0] then s
    else if lt(x, s[0]) then
      assert forall j :: 0 <= j < |s| ==> lt(x, s[j]) by {
        forall j | 0 <= j < |s| ensures lt(x, s[j]) {
          if j > 0 { assert lt(s[0], s[j]); }
        }
      }
      [x] + s
    else
      assert lt(s[0], x);
      var rest := Insert(x, s[1..], lt);
      assert forall y :: y in s[1..] ==> lt(s[0], y) by {
        forall y | y in s[1..] ensures lt(s[0], y) {
          var j :| 0 <= j < |s[1..]| && s[1..][j] == y;
          assert s[j + 1] == y;
        }
      }
      assert s == [s[0]] + s[1..];
      [s[0]] + rest
  }

  /** The distinct elements of `xs` in ascending order. */
  function SortedDistinct<T(==,!new)>(xs: seq<T>, lt: (T, T) -> bool): (r: seq<T>)
    requires StrictTotalOrder(lt)
    ensures Increasing(r, lt)
    ensures forall y :: y in r <==> y in xs
  {
    if xs == [] then []
    else
      var init := xs[..|xs| - 1];
      assert xs == init + [xs[|xs| - 1]];
      Insert(xs[|xs| - 1], SortedDistinct(init, lt), lt)
  }

  /** Position of an element in a sequence in which it occurs. */
  function IndexOf<T(==)>(s: seq<T>, x: T): (k: nat)
    requires x in s
    ensures k < |s| && s[k] == x
    ensures forall j :: 0 <= j < k ==> s[j] != x
  {
    if s[0] == x then 0 else 1 + IndexOf(s[1..], x)
  }

  /** In an ascending sequence, positions follow the order of the elements. */
  lemma IndexOfIncreasing<T(!new)>(s: seq<T>, lt: (T, T) -> bool, x: T, y: T)
    requires StrictTotalOrder(lt) && Increasing(s, lt)
    requires x in s && y in s
    ensures lt(x, y) <==> IndexOf(s, x) < IndexOf(s, y)
  {
    var i, j := IndexOf(s, x), IndexOf(s, y);
    if i < j {
      assert lt(s[i], s[j]);
    } else if j < i {
      assert lt(s[j], s[i]);
    }
  }

  /** In an ascending sequence, the element at position m is found at position m. */
  lemma IndexOfAt<T(!new)>(s: seq<T>, lt: (T, T) -> bool, m: int)
    requires StrictTotalOrder(lt) && Increasing(s, lt)
    requires 0 <= m < |s|
    ensures IndexOf(s, s[m]) == m
  {
    var k := IndexOf(s, s[m]);
    assert !lt(s[m], s[m]);
    assert forall j :: 0 <= j < m ==> lt(s[j], s[m]);
  }
}
