/** Shared vocabulary of the model: optional values, the exception kinds the
    pipeline raises, and a result type that carries either a value or the
    exception that stopped the computation. */
module Common {

  /** A value that may be absent: Python's `None`, or pandas' NaN in a column of floats. */
  datatype Option<+T> = None | Some(value: T)

  /** The Python exception classes the modelled code raises. */
  datatype ErrorKind = KeyError | IndexError | ValueError | TypeError | ZeroDivisionError | RuntimeError

  /** Either the value a call returns or the exception it raises. */
  datatype Result<+T> = Ok(value: T) | Err(error: ErrorKind) {
    predicate IsFailure() { Err? }

    function PropagateFailure<U>(): Result<U>
      requires Err?
    {
      Err(error)
    }

    function Extract(): T
      requires Ok?
    {
      value
    }
  }

  /** The outcome of a call made only for its effect. */
  datatype Outcome = Done | Raised(error: ErrorKind)

  /** Calendar dates as day numbers (days since a fixed epoch). */
  type Date = int

  /** A pandas Series of floats; `None` stands for NaN. */
  type Series = seq<Option<real>>

  function Abs(x: real): (r: real)
    ensures r >= 0.0 && (r == x || r == -x)
  {
    if x < 0.0 then -x else x
  }

  /** The larger of two integers; dates and counts alike. */
  function MaxInt(a: int, b: int): (r: int)
    ensures r >= a && r >= b && (r == a || r == b)
  {
    if a >= b then a else b
  }

  function MinInt(a: int, b: int): (r: int)
    ensures r <= a && r <= b && (r == a || r == b)
  {
    if a <= b then a else b
  }

  /** No element of `s` occurs twice: the keys of a Python dict. */
  predicate Distinct<T(==)>(s: seq<T>) {
    forall i, j :: 0 <= i < j < |s| ==> s[i] != s[j]
  }

  /** The distinct elements of `s` in order of first occurrence: the keys of
      a dict built from `s`, or `list(dict.fromkeys(s))`. */
  /** `r` is `s` with some elements left out: the remaining ones keep their order. */
  predicate IsSubsequence<T(==)>(r: seq<T>, s: seq<T>)
    decreases |s|
  {
    if r == [] then true
    else if s == [] then false
    else (r[0] == s[0] && IsSubsequence(r[1..], s[1..])) || IsSubsequence(r, s[1..])
  }

  function Dedup<T(==, !new)>(s: seq<T>): (r: seq<T>)
    ensures Distinct(r)
    ensures forall x :: x in r <==> x in s
    ensures |r| <= |s|
  {
    if s == [] then []
    else
      var init := Dedup(s[..|s| - 1]);
      assert forall x :: x in s <==> x in s[..|s| - 1] || x == s[|s| - 1];
      if s[|s| - 1] in init then init else init + [s[|s| - 1]]
  }

  /** A new element appended keeps a sequence without repetitions. */
  lemma {:induction false} DistinctSnoc<T>(s: seq<T>, x: T, r: seq<T>)
    requires Distinct(s) && x !in s && r == s + [x]
    ensures Distinct(r)
  {
    forall i, j | 0 <= i < j < |r| ensures r[i] != r[j] {
      assert r[i] == s[i];
      if j == |s| {
        assert r[i] in s;
      } else {
        assert r[j] == s[j];
      }
    }
  }

  /** Inserting the head into a permutation of the tail permutes the whole. */
  lemma {:induction false} PermutesCons<T>(s: seq<T>, t: seq<T>, r: seq<T>)
    requires s != [] && multiset(t) == multiset(s[1..]) && multiset(r) == multiset(t) + multiset{s[0]}
    ensures multiset(r) == multiset(s)
  {
    assert s == [s[0]] + s[1..];
  }

  /** A prefix holds no element more often than the whole. */
  lemma {:induction false} PrefixMultiset<T>(s: seq<T>, n: nat)
    requires n <= |s|
    ensures multiset(s[..n]) <= multiset(s)
  {
    assert s == s[..n] + s[n..];
    assert multiset(s) == multiset(s[..n]) + multiset(s[n..]);
  }

  /** A sequence without repetitions is its own deduplication. */
  lemma {:induction false} DedupDistinct<T(!new)>(s: seq<T>)
    requires Distinct(s)
    ensures Dedup(s) == s
  {
    if s != [] {
      var n := |s|;
      DedupDistinct(s[..n - 1]);
      assert s[n - 1] !in s[..n - 1];
      assert s[..n - 1] + [s[n - 1]] == s;
    }
  }

  /** The sum of a sequence of reals, added left to right. */
  function Sum(xs: seq<real>): real {
    if xs == [] then 0.0 else Sum(xs[..|xs| - 1]) + xs[|xs| - 1]
  }

  /** Each element multiplied by `r`. */
  function Scaled(xs: seq<real>, r: real): (ys: seq<real>)
    ensures |ys| == |xs|
  {
    if xs == [] then [] else Scaled(xs[..|xs| - 1], r) + [xs[|xs| - 1] * r]
  }

  /** Scaling every term scales the sum. */
  lemma {:induction false} SumScaled(xs: seq<real>, r: real)
    ensures Sum(Scaled(xs, r)) == r * Sum(xs)
  {
    if xs != [] {
      var n := |xs|;
      SumScaled(xs[..n - 1], r);
      assert Scaled(xs, r)[..n - 1] == Scaled(xs[..n - 1], r);
      ScaleSum(r, Sum(xs[..n - 1]), xs[n - 1], Sum(xs));
    }
  }

  lemma {:induction false} SumScaledSnoc(xs: seq<real>, x: real, all: seq<real>, r: real)
    requires all == xs + [x]
    ensures Sum(Scaled(all, r)) == Sum(Scaled(xs, r)) + x * r
  {
    assert (xs + [x])[..|xs|] == xs;
    assert Scaled(xs + [x], r)[..|xs|] == Scaled(xs, r);
  }

  /** A sum of non-negative terms is non-negative. */
  lemma {:induction false} SumNonNegative(xs: seq<real>)
    requires forall i :: 0 <= i < |xs| ==> xs[i] >= 0.0
    ensures Sum(xs) >= 0.0
  {
    if xs != [] {
      SumNonNegative(xs[..|xs| - 1]);
    }
  }

  lemma {:induction false} ScaleSum(x: real, a: real, d: real, s: real)
    requires s == a + d
    ensures x * s == x * a + d * x
  {
  }

  /** Equal factors give equal products (stated once so that callers need not
      leave it to nonlinear arithmetic). */
  lemma {:induction false} SameProduct(x: real, y: real, r: real)
    requires x == y
    ensures x * r == y * r
  {
  }

  lemma {:induction false} PositiveProduct(x: real, y: real)
    requires x > 0.0 && y > 0.0
    ensures x * y > 0.0
  {
  }

  lemma {:induction false} NonNegativeProduct(x: real, y: real)
    requires x >= 0.0 && y >= 0.0
    ensures x * y >= 0.0
  {
  }
}
