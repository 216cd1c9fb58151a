/** The cross-sectional normalisers of engine/normalizer.py: percentile rank
    into [0, 1] or [-1, 1], the robust z-score (x - median) / MAD with its
    MAD = 0 fallback, and the magnitude normaliser (direction, quantile
    clipping, robust z-score, z clipping, tanh or sigmoid).

    A pandas Series of floats is a `Series`: `None` stands for NaN. The
    exponential is a parameter (any positive function; increasing where order
    matters), and tanh is written through it as 1 - 2 / (exp(2x) + 1). The
    quantile interpolation of pandas is a parameter as well. */
module Normalizer {
  import opened Common

  /** The positive reals: the range of the exponential. */
  type Positive = r: real | r > 0.0 witness 1.0

  // ------------------------------------------------------------------
  // Sorting and the median
  // ------------------------------------------------------------------

  predicate SortedReals(s: seq<real>) {
    forall i, j :: 0 <= i < j < |s| ==> s[i] <= s[j]
  }

  /** Inserts `x` into a sorted list; the result is sorted and holds exactly
      the values of `s` and `x`. */
  function Insert(x: real, s: seq<real>): (r: seq<real>)
    requires SortedReals(s)
    ensures SortedReals(r) && |r| == |s| + 1
    ensures forall k :: 0 <= k < |r| ==> r[k] == x || r[k] in s
  {
    if s == [] then [x]
    else if x <= s[0] then [x] + s
    else
      var t := Insert(x, s[1..]);
      assert forall k :: 0 <= k < |t| ==> s[0] <= t[k] by {
        forall k | 0 <= k < |t| ensures s[0] <= t[k] {
          if t[k] != x {
            var j :| 1 <= j < |s| && s[j] == t[k];
          }
        }
      }
      [s[0]] + t
  }

  /** The values in increasing order (insertion sort). */
  function Sort(s: seq<real>): (r: seq<real>)
    ensures SortedReals(r) && |r| == |s|
    ensures forall k :: 0 <= k < |r| ==> r[k] in s
  {
    if s == [] then [] else Insert(s[0], Sort(s[1..]))
  }

  lemma {:induction false} InsertPermutes(x: real, s: seq<real>)
    requires SortedReals(s)
    ensures multiset(Insert(x, s)) == multiset(s) + multiset{x}
  {
    if s != [] && x > s[0] {
      InsertPermutes(x, s[1..]);
      assert s == [s[0]] + s[1..];
    }
  }

  /** The sorted list is a permutation of the input. */
  lemma {:induction false} SortPermutes(s: seq<real>)
    ensures multiset(Sort(s)) == multiset(s)
  {
    if s != [] {
      SortPermutes(s[1..]);
      InsertPermutes(s[0], Sort(s[1..]));
      PermutesCons(s, Sort(s[1..]), Sort(s));
    }
  }

  /** The middle value of a sorted non-empty list, or the mean of the two
      middle values. */
  function Middle(s: seq<real>): real
    requires s != []
  {
    var n := |s|;
    if n % 2 == 1 then s[n / 2] else (s[n / 2 - 1] + s[n / 2]) / 2.0
  }

  /** The median of a list of numbers; none for an empty list. */
  function Median(vs: seq<real>): Option<real> {
    if vs == [] then None else Some(Middle(Sort(vs)))
  }

  /** The median lies between the smallest and the largest value. */
  lemma {:induction false} MedianBetween(vs: seq<real>, lo: real, hi: real)
    requires vs != [] && forall k :: 0 <= k < |vs| ==> lo <= vs[k] <= hi
    ensures lo <= Median(vs).value <= hi
  {
    var s := Sort(vs);
    assert s[|s| / 2] in vs;
    if |s| % 2 == 0 {
      assert s[|s| / 2 - 1] in vs;
    }
  }

  /** The median of a list whose values all equal `c` is `c`. */
  lemma {:induction false} MedianOfConstant(vs: seq<real>, c: real)
    requires vs != [] && forall k :: 0 <= k < |vs| ==> vs[k] == c
    ensures Median(vs) == Some(c)
  {
    MedianBetween(vs, c, c);
  }

  /** The non-NaN values of a series, in order. */
  function Present(xs: Series): (vs: seq<real>)
    ensures |vs| <= |xs|
  {
    if xs == [] then []
    else if xs[|xs| - 1].Some? then Present(xs[..|xs| - 1]) + [xs[|xs| - 1].value]
    else Present(xs[..|xs| - 1])
  }

  /** Every present value comes from a present entry of the series... */
  lemma {:induction false} PresentFrom(xs: Series, k: nat)
    requires k < |Present(xs)|
    ensures exists i :: 0 <= i < |xs| && xs[i] == Some(Present(xs)[k])
  {
    var n := |xs|;
    var init := xs[..n - 1];
    if k < |Present(init)| {
      PresentFrom(init, k);
      var i :| 0 <= i < |init| && init[i] == Some(Present(init)[k]);
      assert xs[i] == init[i];
    } else {
      assert xs[n - 1] == Some(Present(xs)[k]);
    }
  }

  /** ... and every present entry is among the present values. */
  lemma {:induction false} PresentHas(xs: Series, i: nat)
    requires i < |xs| && xs[i].Some?
    ensures xs[i].value in Present(xs)
  {
    var n := |xs|;
    if i < n - 1 {
      assert xs[..n - 1][i] == xs[i];
      PresentHas(xs[..n - 1], i);
    }
  }

  /** `Series.median()`: NaNs are skipped; NaN when no value is present. */
  function MedianOf(xs: Series): Option<real> {
    Median(Present(xs))
  }

  /** The median of a series is NaN exactly when it has no present value. */
  lemma {:induction false} MedianOfPresent(xs: Series)
    ensures MedianOf(xs).Some? <==> exists i :: 0 <= i < |xs| && xs[i].Some?
  {
    if exists i :: 0 <= i < |xs| && xs[i].Some? {
      var i :| 0 <= i < |xs| && xs[i].Some?;
      PresentHas(xs, i);
    } else if Present(xs) != [] {
      PresentFrom(xs, 0);
    }
  }

  /** A series whose present values all lie in [lo, hi] has its median there. */
  lemma {:induction false} MedianOfBetween(xs: Series, lo: real, hi: real)
    requires MedianOf(xs).Some?
    requires forall i :: 0 <= i < |xs| && xs[i].Some? ==> lo <= xs[i].value <= hi
    ensures lo <= MedianOf(xs).value <= hi
  {
    var vs := Present(xs);
    forall k | 0 <= k < |vs| ensures lo <= vs[k] <= hi {
      PresentFrom(xs, k);
    }
    MedianBetween(vs, lo, hi);
  }

  // ------------------------------------------------------------------
  // Robust z-score
  // ------------------------------------------------------------------

  /** `(values - median).abs()`. */
  function Deviations(xs: Series, m: real): (d: Series)
    ensures |d| == |xs|
    ensures forall i :: 0 <= i < |xs| ==> d[i] == if xs[i].Some? then Some(Abs(xs[i].value - m)) else None
  {
    seq(|xs|, i requires 0 <= i < |xs| => if xs[i].Some? then Some(Abs(xs[i].value - m)) else None)
  }

  /** The median absolute deviation; NaN when the series has no value. */
  function Mad(xs: Series): Option<real> {
    match MedianOf(xs)
    case None => None
    case Some(m) => MedianOf(Deviations(xs, m))
  }

  /** `robust_zscore`: a MAD of 0 or NaN makes every index 0.0, NaN positions
      included; otherwise (x - median) / MAD, NaN staying NaN. */
  function RobustZscore(xs: Series): (z: Series)
    ensures |z| == |xs|
  {
    var m := MedianOf(xs);
    var mad := Mad(xs);
    if m.Some? && mad.Some? && mad.value != 0.0 then
      seq(|xs|, i requires 0 <= i < |xs| => if xs[i].Some? then Some((xs[i].value - m.value) / mad.value) else None)
    else seq(|xs|, i => Some(0.0))
  }

  /** The MAD is NaN exactly when the series has no value, and never negative. */
  lemma {:induction false} MadSpec(xs: Series)
    ensures Mad(xs).Some? <==> exists i :: 0 <= i < |xs| && xs[i].Some?
    ensures Mad(xs).Some? ==> MedianOf(xs).Some? && Mad(xs).value >= 0.0
  {
    MedianOfPresent(xs);
    if MedianOf(xs).Some? {
      var d := Deviations(xs, MedianOf(xs).value);
      MedianOfPresent(d);
      if exists i :: 0 <= i < |xs| && xs[i].Some? {
        var i :| 0 <= i < |xs| && xs[i].Some?;
        assert d[i].Some?;
        MadNonNegative(d);
      }
    }
  }

  /** A series of non-negative values has a non-negative median. */
  lemma {:induction false} MadNonNegative(d: Series)
    requires MedianOf(d).Some?
    requires forall i :: 0 <= i < |d| && d[i].Some? ==> d[i].value >= 0.0
    ensures MedianOf(d).value >= 0.0
  {
    var vs := Present(d);
    var s := Sort(vs);
    assert s[|s| / 2] in vs;
    if |s| % 2 == 0 {
      assert s[|s| / 2 - 1] in vs;
    }
    forall k | 0 <= k < |vs| ensures vs[k] >= 0.0 {
      PresentFrom(d, k);
    }
  }

  /** The z-score of every present value is (x - median) / MAD when the MAD is
      a non-zero number; otherwise every index, NaN or not, gets 0. */
  lemma {:induction false} RobustZscoreSpec(xs: Series)
    ensures var z := RobustZscore(xs);
      var mad := Mad(xs);
      (mad.None? || mad.value == 0.0 ==> forall i :: 0 <= i < |xs| ==> z[i] == Some(0.0))
      && (mad.Some? && mad.value != 0.0 ==>
            MedianOf(xs).Some?
            && forall i :: 0 <= i < |xs| ==>
                 z[i] == if xs[i].Some? then Some((xs[i].value - MedianOf(xs).value) / mad.value) else None)
  {
    if Mad(xs).Some? && Mad(xs).value != 0.0 {
      ScaledScores(xs);
    } else {
      ZeroScores(xs);
    }
  }

  /** The scores when the MAD is a non-zero number. */
  lemma {:induction false} ScaledScores(xs: Series)
    requires Mad(xs).Some? && Mad(xs).value != 0.0
    ensures MedianOf(xs).Some?
    ensures forall i :: 0 <= i < |xs| ==>
      RobustZscore(xs)[i] == if xs[i].Some? then Some((xs[i].value - MedianOf(xs).value) / Mad(xs).value) else None
  {
  }

  /** The scores when the MAD is 0 or NaN. */
  lemma {:induction false} ZeroScores(xs: Series)
    requires Mad(xs).None? || Mad(xs).value == 0.0
    ensures forall i :: 0 <= i < |xs| ==> RobustZscore(xs)[i] == Some(0.0)
  {
  }

  /** A constant series scores 0 everywhere. */
  lemma {:induction false} ConstantSeriesIsZero(xs: Series, c: real)
    requires xs != [] && forall i :: 0 <= i < |xs| ==> xs[i] == Some(c)
    ensures forall i :: 0 <= i < |xs| ==> RobustZscore(xs)[i] == Some(0.0)
  {
    MedianOfPresent(xs);
    MedianOfBetween(xs, c, c);
    var d := Deviations(xs, c);
    MedianOfPresent(d);
    assert d[0].Some?;
    MedianOfBetween(d, 0.0, 0.0);
  }

  /** A present value equal to the median scores exactly 0. */
  lemma {:induction false} MedianScoresZero(xs: Series, i: nat)
    requires i < |xs| && MedianOf(xs).Some? && xs[i] == Some(MedianOf(xs).value)
    ensures RobustZscore(xs)[i] == Some(0.0)
  {
    RobustZscoreSpec(xs);
  }

  lemma {:induction false} SortOneTwoThree()
    ensures Sort([1.0, 2.0, 3.0]) == [1.0, 2.0, 3.0]
  {
    assert [1.0, 2.0, 3.0][1..] == [2.0, 3.0];
    assert [2.0, 3.0][1..] == [3.0];
    assert Sort([3.0]) == [3.0] by {
      assert [3.0][1..] == [];
    }
    assert Sort([2.0, 3.0]) == Insert(2.0, [3.0]) == [2.0, 3.0];
  }

  lemma {:induction false} PresentOneTwoThree(xs: Series)
    requires xs == [Some(1.0), Some(2.0), Some(3.0)]
    ensures Present(xs) == [1.0, 2.0, 3.0]
  {
    var a, b := xs[..2], xs[..1];
    assert a == [Some(1.0), Some(2.0)] && a[..1] == b && b[..0] == [];
    assert Present(b) == [1.0];
    assert Present(a) == [1.0, 2.0];
  }

  /** The series [1, 2, 3] has median 2, so its middle element scores 0. */
  lemma {:induction false} MiddleOfThreeIsZero()
    ensures RobustZscore([Some(1.0), Some(2.0), Some(3.0)])[1] == Some(0.0)
  {
    var xs: Series := [Some(1.0), Some(2.0), Some(3.0)];
    PresentOneTwoThree(xs);
    SortOneTwoThree();
    assert Middle([1.0, 2.0, 3.0]) == 2.0;
    MedianScoresZero(xs, 1);
  }

  // ------------------------------------------------------------------
  // Percentile rank (`rank_normalize`)
  // ------------------------------------------------------------------

  /** The number of present values. */
  function Count(xs: Series): nat {
    if xs == [] then 0 else Count(xs[..|xs| - 1]) + (if xs[|xs| - 1].Some? then 1 else 0)
  }

  /** The number of present values below, equal to and above `x`. */
  function Below(xs: Series, x: real): nat {
    if xs == [] then 0
    else Below(xs[..|xs| - 1], x) + (if xs[|xs| - 1].Some? && xs[|xs| - 1].value < x then 1 else 0)
  }

  function Same(xs: Series, x: real): nat {
    if xs == [] then 0
    else Same(xs[..|xs| - 1], x) + (if xs[|xs| - 1] == Some(x) then 1 else 0)
  }

  function Above(xs: Series, x: real): nat {
    if xs == [] then 0
    else Above(xs[..|xs| - 1], x) + (if xs[|xs| - 1].Some? && xs[|xs| - 1].value > x then 1 else 0)
  }

  lemma {:induction false} CountSplits(xs: Series, x: real)
    ensures Below(xs, x) + Same(xs, x) + Above(xs, x) == Count(xs)
  {
    if xs != [] {
      CountSplits(xs[..|xs| - 1], x);
    }
  }

  lemma {:induction false} SameIncludesSelf(xs: Series, i: nat)
    requires i < |xs| && xs[i].Some?
    ensures Same(xs, xs[i].value) >= 1
  {
    var n := |xs|;
    if i < n - 1 {
      assert xs[..n - 1][i] == xs[i];
      SameIncludesSelf(xs[..n - 1], i);
    }
  }

  /** A larger value has every smaller-or-equal value of a smaller one below it. */
  lemma {:induction false} BelowGrows(xs: Series, x: real, y: real)
    requires x < y
    ensures Below(xs, y) >= Below(xs, x) + Same(xs, x)
    ensures Above(xs, x) >= Above(xs, y) + Same(xs, y)
  {
    if xs != [] {
      BelowGrows(xs[..|xs| - 1], x, y);
    }
  }

  /** The average rank of `x`, ties sharing the mean of their positions:
      counted from the smallest value when ascending, from the largest
      otherwise. */
  function AverageRank(xs: Series, x: real, ascending: bool): real {
    (if ascending then Below(xs, x) else Above(xs, x)) as real + (Same(xs, x) as real + 1.0) / 2.0
  }

  /** `values.rank(pct=True, ascending=...)`: the average rank divided by the
      number of present values; NaN stays NaN. */
  function PctRank(xs: Series, ascending: bool): (r: Series)
    ensures |r| == |xs|
  {
    seq(|xs|, i requires 0 <= i < |xs| =>
      if xs[i].None? || Count(xs) == 0 then None else Some(AverageRank(xs, xs[i].value, ascending) / Count(xs) as real))
  }

  /** `rank_normalize`: "0_1" returns the percentile rank, "minus1_1" the
      rank mapped to 2 * pct - 1, anything else raises ValueError. */
  function RankNormalize(xs: Series, ascending: bool, toRange: string): Result<Series> {
    var pct := PctRank(xs, ascending);
    if toRange == "0_1" then Ok(pct)
    else if toRange == "minus1_1" then
      Ok(seq(|pct|, i requires 0 <= i < |pct| => if pct[i].Some? then Some(2.0 * pct[i].value - 1.0) else None))
    else Err(ValueError)
  }

  lemma {:induction false} RankBounds(xs: Series, i: nat, ascending: bool)
    requires i < |xs| && xs[i].Some?
    ensures Count(xs) > 0
    ensures 1.0 <= AverageRank(xs, xs[i].value, ascending) <= Count(xs) as real
  {
    SameIncludesSelf(xs, i);
    CountSplits(xs, xs[i].value);
  }

  /** Percentile ranks lie in (0, 1]; NaN positions are exactly the NaN inputs. */
  lemma {:induction false} PctRankBounds(xs: Series, ascending: bool)
    ensures forall i :: 0 <= i < |xs| ==> (PctRank(xs, ascending)[i].Some? <==> xs[i].Some?)
    ensures forall i :: 0 <= i < |xs| && xs[i].Some? ==>
      0.0 < PctRank(xs, ascending)[i].value <= 1.0
  {
    forall i | 0 <= i < |xs| && xs[i].Some?
      ensures PctRank(xs, ascending)[i].Some? && 0.0 < PctRank(xs, ascending)[i].value <= 1.0
    {
      RankBounds(xs, i, ascending);
      var n := Count(xs) as real;
      var r := AverageRank(xs, xs[i].value, ascending);
      DivideBounds(r, n);
    }
  }

  lemma {:induction false} DivideBounds(r: real, n: real)
    requires n > 0.0 && 1.0 <= r <= n
    ensures 0.0 < r / n <= 1.0
  {
    assert r / n * n == r;
  }

  /** `rank_normalize` raises ValueError exactly for an unknown range; "0_1"
      values lie in (0, 1] and "minus1_1" values in (-1, 1], NaN staying NaN. */
  lemma {:induction false} RankNormalizeSpec(xs: Series, ascending: bool, toRange: string)
    ensures RankNormalize(xs, ascending, toRange).Err? <==> toRange != "0_1" && toRange != "minus1_1"
    ensures RankNormalize(xs, ascending, toRange).Err? ==> RankNormalize(xs, ascending, toRange).error == ValueError
    ensures RankNormalize(xs, ascending, toRange).Ok? ==>
      var r := RankNormalize(xs, ascending, toRange).value;
      |r| == |xs|
      && (forall i :: 0 <= i < |xs| ==> (r[i].Some? <==> xs[i].Some?))
      && (toRange == "0_1" ==> forall i :: 0 <= i < |xs| && xs[i].Some? ==> 0.0 < r[i].value <= 1.0)
      && (toRange == "minus1_1" ==> forall i :: 0 <= i < |xs| && xs[i].Some? ==>
            r[i] == Some(2.0 * PctRank(xs, ascending)[i].value - 1.0) && -1.0 < r[i].value <= 1.0)
  {
    PctRankBounds(xs, ascending);
  }

  /** A strictly larger value gets a strictly larger rank when ascending and a
      strictly smaller one when not, whatever the ties elsewhere. */
  lemma {:induction false} RankStrictlyMonotone(xs: Series, i: nat, j: nat, ascending: bool)
    requires i < |xs| && j < |xs| && xs[i].Some? && xs[j].Some? && xs[i].value < xs[j].value
    ensures var p := PctRank(xs, ascending);
      p[i].Some? && p[j].Some?
      && (ascending ==> p[i].value < p[j].value)
      && (!ascending ==> p[i].value > p[j].value)
  {
    var a, b := xs[i].value, xs[j].value;
    BelowGrows(xs, a, b);
    SameIncludesSelf(xs, i);
    SameIncludesSelf(xs, j);
    RankBounds(xs, i, ascending);
    var n := Count(xs) as real;
    var ra := AverageRank(xs, a, ascending);
    var rb := AverageRank(xs, b, ascending);
    if ascending {
      assert ra < rb;
      DivideStrict(ra, rb, n);
    } else {
      assert rb < ra;
      DivideStrict(rb, ra, n);
    }
  }

  lemma {:induction false} DivideStrict(a: real, b: real, n: real)
    requires n > 0.0 && a < b
    ensures a / n < b / n
  {
    assert a / n * n == a && b / n * n == b;
  }

  // ------------------------------------------------------------------
  // Magnitude normalisation
  // ------------------------------------------------------------------

  /** `-x`. */
  function Negated(xs: Series): (r: Series)
    ensures |r| == |xs|
    ensures forall i :: 0 <= i < |xs| ==> r[i] == if xs[i].Some? then Some(-xs[i].value) else None
  {
    seq(|xs|, i requires 0 <= i < |xs| => if xs[i].Some? then Some(-xs[i].value) else None)
  }

  /** `clip(lo, hi)` on one value: a NaN bound does not clip. */
  function ClipTo(v: real, lo: Option<real>, hi: Option<real>): real {
    var raised := if lo.Some? && v < lo.value then lo.value else v;
    if hi.Some? && raised > hi.value then hi.value else raised
  }

  function Clipped(xs: Series, lo: Option<real>, hi: Option<real>): (r: Series)
    ensures |r| == |xs|
    ensures forall i :: 0 <= i < |xs| ==> r[i] == if xs[i].Some? then Some(ClipTo(xs[i].value, lo, hi)) else None
  {
    seq(|xs|, i requires 0 <= i < |xs| => if xs[i].Some? then Some(ClipTo(xs[i].value, lo, hi)) else None)
  }

  lemma {:induction false} ClipMonotone(a: real, b: real, lo: Option<real>, hi: Option<real>)
    requires a <= b
    ensures ClipTo(a, lo, hi) <= ClipTo(b, lo, hi)
  {
  }

  function Sigmoid(exp: real -> Positive, x: real): real {
    1.0 / (1.0 + exp(-x))
  }

  /** tanh(x) = 1 - 2 / (exp(2x) + 1). */
  function Tanh(exp: real -> Positive, x: real): real {
    1.0 - 2.0 / (exp(2.0 * x) + 1.0)
  }

  function Activation(exp: real -> Positive, tanh: bool, x: real): real {
    if tanh then Tanh(exp, x) else Sigmoid(exp, x)
  }

  /** tanh lies in (-1, 1) and sigmoid in (0, 1). */
  lemma {:induction false} ActivationRange(exp: real -> Positive, tanh: bool, x: real)
    ensures tanh ==> -1.0 < Activation(exp, tanh, x) < 1.0
    ensures !tanh ==> 0.0 < Activation(exp, tanh, x) < 1.0
  {
    var e := exp(-x);
    assert 1.0 / (1.0 + e) * (1.0 + e) == 1.0;
    var f := exp(2.0 * x);
    assert 2.0 / (f + 1.0) * (f + 1.0) == 2.0;
  }

  /** The exponential is increasing. */
  ghost predicate Increasing(exp: real -> Positive) {
    forall x, y :: x < y ==> exp(x) < exp(y)
  }

  lemma {:induction false} ReciprocalStrict(p: real, q: real)
    requires 0.0 < p < q
    ensures 1.0 / q < 1.0 / p
  {
    assert 1.0 / p * p == 1.0 && 1.0 / q * q == 1.0;
  }

  /** Both activations are increasing with an increasing exponential. */
  lemma {:induction false} ActivationMonotone(exp: real -> Positive, tanh: bool, a: real, b: real)
    requires Increasing(exp) && a <= b
    ensures Activation(exp, tanh, a) <= Activation(exp, tanh, b)
    ensures a < b ==> Activation(exp, tanh, a) < Activation(exp, tanh, b)
  {
    if a < b {
      if tanh {
        assert exp(2.0 * a) < exp(2.0 * b);
        ReciprocalStrict(exp(2.0 * a) + 1.0, exp(2.0 * b) + 1.0);
      } else {
        assert exp(-b) < exp(-a);
        ReciprocalStrict(1.0 + exp(-b), 1.0 + exp(-a));
      }
    }
  }

  function Activated(zs: Series, tanh: bool, exp: real -> Positive): (r: Series)
    ensures |r| == |zs|
    ensures forall i :: 0 <= i < |zs| ==> r[i] == if zs[i].Some? then Some(Activation(exp, tanh, zs[i].value)) else None
  {
    seq(|zs|, i requires 0 <= i < |zs| => if zs[i].Some? then Some(Activation(exp, tanh, zs[i].value)) else None)
  }

  /** The direction-adjusted series: larger is always better. */
  function Directed(xs: Series, ascending: bool): Series {
    if ascending then xs else Negated(xs)
  }

  /** The series after the optional quantile clip (the quantile function is
      a parameter: `quantile(x, q)`, NaN when the series has no value). */
  function QuantileClipped(x: Series, clipQuantile: Option<real>, quantile: (Series, real) -> Option<real>): Series {
    if clipQuantile.Some? then Clipped(x, quantile(x, clipQuantile.value), quantile(x, 1.0 - clipQuantile.value)) else x
  }

  /** The robust z-score clipped to [-zClip, zClip], then activated. */
  function Squashed(x: Series, zClip: real, tanh: bool, exp: real -> Positive): (r: Series)
    ensures |r| == |x|
  {
    Activated(Clipped(RobustZscore(x), Some(-zClip), Some(zClip)), tanh, exp)
  }

  /** `magnitude_normalize`. The checks raise ValueError in source order: the
      clip quantile outside (0, 0.5), then z_clip <= 0, then an unknown
      activation. */
  function MagnitudeNormalize(values: Series, ascending: bool, clipQuantile: Option<real>, activation: string,
                              zClip: real, quantile: (Series, real) -> Option<real>, exp: real -> Positive): Result<Series>
  {
    if clipQuantile.Some? && !(0.0 < clipQuantile.value < 0.5) then Err(ValueError)
    else if zClip <= 0.0 then Err(ValueError)
    else if activation != "tanh" && activation != "sigmoid" then Err(ValueError)
    else Ok(Squashed(QuantileClipped(Directed(values, ascending), clipQuantile, quantile), zClip, activation == "tanh", exp))
  }

  /** The failures of `magnitude_normalize` are exactly its three checks, all
      ValueError. */
  lemma {:induction false} MagnitudeErrors(values: Series, ascending: bool, clipQuantile: Option<real>, activation: string,
                                          zClip: real, quantile: (Series, real) -> Option<real>, exp: real -> Positive)
    ensures var r := MagnitudeNormalize(values, ascending, clipQuantile, activation, zClip, quantile, exp);
      (r.Err? <==> (clipQuantile.Some? && !(0.0 < clipQuantile.value < 0.5)) || zClip <= 0.0
                   || (activation != "tanh" && activation != "sigmoid"))
      && (r.Err? ==> r.error == ValueError)
  {
  }

  /** The value a present input is mapped to, given the median and a non-zero
      MAD of its series. */
  function Score(v: real, m: real, mad: real, zClip: real, tanh: bool, exp: real -> Positive): real
    requires mad != 0.0
  {
    Activation(exp, tanh, ClipTo((v - m) / mad, Some(-zClip), Some(zClip)))
  }

  /** With a non-zero MAD every present value gets its score and NaN stays
      NaN; with a MAD of 0 or NaN every index, NaN included, gets the score of
      a z-score of 0. */
  lemma {:induction false} SquashedSpec(x: Series, zClip: real, tanh: bool, exp: real -> Positive)
    ensures var r := Squashed(x, zClip, tanh, exp);
      var mad := Mad(x);
      (mad.Some? && mad.value != 0.0 ==>
         MedianOf(x).Some?
         && forall i :: 0 <= i < |x| ==>
              r[i] == if x[i].Some? then Some(Score(x[i].value, MedianOf(x).value, mad.value, zClip, tanh, exp)) else None)
      && (mad.None? || mad.value == 0.0 ==>
            forall i :: 0 <= i < |x| ==> r[i] == Some(Activation(exp, tanh, ClipTo(0.0, Some(-zClip), Some(zClip)))))
  {
    RobustZscoreSpec(x);
  }

  /** The output lies strictly inside (-1, 1) for tanh and (0, 1) for sigmoid. */
  lemma {:induction false} MagnitudeRange(values: Series, ascending: bool, clipQuantile: Option<real>, activation: string,
                                         zClip: real, quantile: (Series, real) -> Option<real>, exp: real -> Positive)
    requires MagnitudeNormalize(values, ascending, clipQuantile, activation, zClip, quantile, exp).Ok?
    ensures var r := MagnitudeNormalize(values, ascending, clipQuantile, activation, zClip, quantile, exp).value;
      |r| == |values|
      && forall i :: 0 <= i < |r| && r[i].Some? ==>
           (activation == "tanh" ==> -1.0 < r[i].value < 1.0)
           && (activation == "sigmoid" ==> 0.0 < r[i].value < 1.0)
  {
    var x := QuantileClipped(Directed(values, ascending), clipQuantile, quantile);
    var tanh := activation == "tanh";
    var zc := Clipped(RobustZscore(x), Some(-zClip), Some(zClip));
    var r := Squashed(x, zClip, tanh, exp);
    assert |x| == |values|;
    forall i | 0 <= i < |r| && r[i].Some?
      ensures (tanh ==> -1.0 < r[i].value < 1.0) && (!tanh ==> 0.0 < r[i].value < 1.0)
    {
      ActivationRange(exp, tanh, zc[i].value);
    }
  }

  /** `ascending=False` is the ascending normaliser applied to `-values`. */
  lemma {:induction false} MagnitudeDirection(values: Series, clipQuantile: Option<real>, activation: string,
                                             zClip: real, quantile: (Series, real) -> Option<real>, exp: real -> Positive)
    ensures MagnitudeNormalize(values, false, clipQuantile, activation, zClip, quantile, exp)
         == MagnitudeNormalize(Negated(values), true, clipQuantile, activation, zClip, quantile, exp)
  {
  }

  /** NaN inputs stay NaN and present inputs stay present when the MAD of the
      clipped series is a non-zero number; with a MAD of 0 or NaN every index,
      NaN or not, maps to the activation of 0. */
  lemma {:induction false} MagnitudeNaNs(values: Series, ascending: bool, clipQuantile: Option<real>, activation: string,
                                        zClip: real, quantile: (Series, real) -> Option<real>, exp: real -> Positive)
    requires MagnitudeNormalize(values, ascending, clipQuantile, activation, zClip, quantile, exp).Ok?
    ensures var r := MagnitudeNormalize(values, ascending, clipQuantile, activation, zClip, quantile, exp).value;
      var mad := Mad(QuantileClipped(Directed(values, ascending), clipQuantile, quantile));
      |r| == |values|
      && (mad.Some? && mad.value != 0.0 ==> forall i :: 0 <= i < |values| ==> (r[i].Some? <==> values[i].Some?))
      && (mad.None? || mad.value == 0.0 ==> forall i :: 0 <= i < |values| ==>
            r[i] == Some(Activation(exp, activation == "tanh", ClipTo(0.0, Some(-zClip), Some(zClip)))))
  {
    var d := Directed(values, ascending);
    var x := QuantileClipped(d, clipQuantile, quantile);
    assert |d| == |values| && |x| == |values|;
    assert forall i :: 0 <= i < |values| ==> (x[i].Some? <==> values[i].Some?);
    SquashedSpec(x, zClip, activation == "tanh", exp);
  }

  lemma {:induction false} DivideMonotone(a: real, b: real, n: real)
    requires n > 0.0 && a <= b
    ensures a / n <= b / n
  {
    assert a / n * n == a && b / n * n == b;
  }

  /** The score keeps the order of the values (the MAD is positive). */
  lemma {:induction false} ScoreMonotone(a: real, b: real, m: real, mad: real, zClip: real, tanh: bool,
                                         exp: real -> Positive)
    requires a <= b && mad > 0.0 && Increasing(exp)
    ensures Score(a, m, mad, zClip, tanh, exp) <= Score(b, m, mad, zClip, tanh, exp)
  {
    DivideMonotone(a - m, b - m, mad);
    ClipMonotone((a - m) / mad, (b - m) / mad, Some(-zClip), Some(zClip));
    ActivationMonotone(exp, tanh, ClipTo((a - m) / mad, Some(-zClip), Some(zClip)),
                       ClipTo((b - m) / mad, Some(-zClip), Some(zClip)));
  }

  lemma {:induction false} SquashedMonotone(x: Series, zClip: real, tanh: bool, exp: real -> Positive, i: nat, j: nat)
    requires Increasing(exp)
    requires i < |x| && j < |x| && x[i].Some? && x[j].Some? && x[i].value <= x[j].value
    ensures var r := Squashed(x, zClip, tanh, exp);
      r[i].Some? && r[j].Some? && r[i].value <= r[j].value
  {
    SquashedSpec(x, zClip, tanh, exp);
    MadSpec(x);
    var mad := Mad(x);
    if mad.Some? && mad.value != 0.0 {
      ScoreMonotone(x[i].value, x[j].value, MedianOf(x).value, mad.value, zClip, tanh, exp);
    }
  }

  /** The output keeps the order of the direction-adjusted input: a present
      value no larger than another never scores higher. */
  lemma {:induction false} MagnitudeMonotone(values: Series, ascending: bool, clipQuantile: Option<real>, activation: string,
                                            zClip: real, quantile: (Series, real) -> Option<real>, exp: real -> Positive,
                                            i: nat, j: nat)
    requires Increasing(exp)
    requires MagnitudeNormalize(values, ascending, clipQuantile, activation, zClip, quantile, exp).Ok?
    requires i < |values| && j < |values|
    requires Directed(values, ascending)[i].Some? && Directed(values, ascending)[j].Some?
    requires Directed(values, ascending)[i].value <= Directed(values, ascending)[j].value
    ensures var r := MagnitudeNormalize(values, ascending, clipQuantile, activation, zClip, quantile, exp).value;
      r[i].Some? && r[j].Some? && r[i].value <= r[j].value
  {
    var d := Directed(values, ascending);
    var x := QuantileClipped(d, clipQuantile, quantile);
    if clipQuantile.Some? {
      ClipMonotone(d[i].value, d[j].value, quantile(d, clipQuantile.value), quantile(d, 1.0 - clipQuantile.value));
    }
    SquashedMonotone(x, zClip, activation == "tanh", exp, i, j);
  }

  /** Without quantile clipping, with a non-zero MAD and both z-scores inside
      the z clip, a strictly larger direction-adjusted value scores strictly
      higher. */
  lemma {:induction false} MagnitudeStrictlyMonotone(values: Series, ascending: bool, activation: string, zClip: real,
                                                    quantile: (Series, real) -> Option<real>, exp: real -> Positive,
                                                    i: nat, j: nat)
    requires Increasing(exp)
    requires MagnitudeNormalize(values, ascending, None, activation, zClip, quantile, exp).Ok?
    requires i < |values| && j < |values|
    requires Directed(values, ascending)[i].Some? && Directed(values, ascending)[j].Some?
    requires Directed(values, ascending)[i].value < Directed(values, ascending)[j].value
    requires Mad(Directed(values, ascending)).Some? && Mad(Directed(values, ascending)).value != 0.0
    requires var z := RobustZscore(Directed(values, ascending));
      z[i].Some? && z[j].Some? && -zClip <= z[i].value <= zClip && -zClip <= z[j].value <= zClip
    ensures var r := MagnitudeNormalize(values, ascending, None, activation, zClip, quantile, exp).value;
      r[i].Some? && r[j].Some? && r[i].value < r[j].value
  {
    var d := Directed(values, ascending);
    SquashedStrict(d, zClip, activation == "tanh", exp, i, j);
  }

  lemma {:induction false} SquashedStrict(x: Series, zClip: real, tanh: bool, exp: real -> Positive, i: nat, j: nat)
    requires Increasing(exp)
    requires i < |x| && j < |x| && x[i].Some? && x[j].Some? && x[i].value < x[j].value
    requires Mad(x).Some? && Mad(x).value != 0.0
    requires var z := RobustZscore(x);
      z[i].Some? && z[j].Some? && -zClip <= z[i].value <= zClip && -zClip <= z[j].value <= zClip
    ensures var r := Squashed(x, zClip, tanh, exp);
      r[i].Some? && r[j].Some? && r[i].value < r[j].value
  {
    ScoresStrict(x, i, j);
    var z := RobustZscore(x);
    var c := Clipped(z, Some(-zClip), Some(zClip));
    assert c[i] == Some(ClipTo(z[i].value, Some(-zClip), Some(zClip)));
    assert c[j] == Some(ClipTo(z[j].value, Some(-zClip), Some(zClip)));
    assert c[i] == z[i] && c[j] == z[j];
    ActivationMonotone(exp, tanh, z[i].value, z[j].value);
    var r := Activated(c, tanh, exp);
    assert r[i] == Some(Activation(exp, tanh, z[i].value));
    assert r[j] == Some(Activation(exp, tanh, z[j].value));
  }

  /** With a non-zero MAD, a strictly larger value has a strictly larger z-score. */
  lemma {:induction false} ScoresStrict(x: Series, i: nat, j: nat)
    requires i < |x| && j < |x| && x[i].Some? && x[j].Some? && x[i].value < x[j].value
    requires Mad(x).Some? && Mad(x).value != 0.0
    ensures var z := RobustZscore(x); z[i].Some? && z[j].Some? && z[i].value < z[j].value
  {
    ScaledScores(x);
    MadSpec(x);
    var m := MedianOf(x).value;
    DivideStrict(x[i].value - m, x[j].value - m, Mad(x).value);
  }
}
