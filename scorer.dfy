/** engine/scorers/linear.py: the linear scorer. A row's score is the bias
    plus the weighted sum of its term columns (NaN when any of them is NaN),
    optionally passed through tanh, sigmoid or a cross-sectional rank. */
module LinearScoring {
  import opened Common
  import opened Frames
  import N = Normalizer

  /** `LinearTerm`: a signal column and its weight. */
  datatype LinearTerm = LinearTerm(col: string, weight: real)

  /** `LinearScorer`: its terms, output column, bias and optional transform. */
  datatype LinearScorer = LinearScorer(terms: seq<LinearTerm>, outCol: string, bias: real,
                                       postTransform: Option<string>)

  /** `ScoreResult`: the frame with the score column and that column's name. */
  datatype ScoreResult = ScoreResult(signals: Frame, scoreCol: string)

  /** The dataclass defaults: output `_score`, no bias, no transform. */
  function DefaultScorer(terms: seq<LinearTerm>): (s: LinearScorer)
    ensures s.terms == terms && s.outCol == "_score" && s.bias == 0.0 && s.postTransform == None
  {
    LinearScorer(terms, "_score", 0.0, None)
  }

  /** Every term column is among `cols`. */
  predicate TermsIn(terms: seq<LinearTerm>, cols: seq<string>) {
    forall k :: 0 <= k < |terms| ==> terms[k].col in cols
  }

  predicate HasTerms(row: Row, terms: seq<LinearTerm>) {
    forall k :: 0 <= k < |terms| ==> terms[k].col in row
  }

  /** Float addition and scaling, NaN absorbing. */
  function Plus(a: Option<real>, b: Option<real>): Option<real> {
    if a.Some? && b.Some? then Some(a.value + b.value) else None
  }

  function Times(w: real, v: Option<real>): Option<real> {
    if v.Some? then Some(w * v.value) else None
  }

  lemma {:induction false} TimesSome(row: Row, t: LinearTerm)
    requires t.col in row && row[t.col].Some?
    ensures Times(t.weight, row[t.col]) == Some(Contribution(row, t))
  {
    assert Times(t.weight, row[t.col]).Some?;
    assert Times(t.weight, row[t.col]).value == Contribution(row, t);
  }

  lemma {:induction false} PlusSome(x: real, y: real)
    ensures Plus(Some(x), Some(y)) == Some(x + y)
  {
  }

  /** The row's score after the terms have been added to the bias, in term
      order (the accumulation `s = s + w * df[col]`). */
  function Linear(row: Row, terms: seq<LinearTerm>, bias: real): Option<real>
    requires HasTerms(row, terms)
    decreases |terms|
  {
    if terms == [] then Some(bias)
    else
      var t := terms[|terms| - 1];
      Plus(Linear(row, terms[..|terms| - 1], bias), Times(t.weight, row[t.col]))
  }

  /** Every term value of the row is present. */
  predicate AllPresent(row: Row, terms: seq<LinearTerm>)
    requires HasTerms(row, terms)
  {
    forall k :: 0 <= k < |terms| ==> row[terms[k].col].Some?
  }

  /** One term's part of the score, `w * df[col]` on a present value. */
  function Contribution(row: Row, t: LinearTerm): real
    requires t.col in row && row[t.col].Some?
  {
    t.weight * row[t.col].value
  }

  /** The reference sum: Σ w_i × col_i, summed from the first term. */
  function WeightedSum(row: Row, terms: seq<LinearTerm>): real
    requires HasTerms(row, terms) && AllPresent(row, terms)
    decreases |terms|
  {
    if terms == [] then 0.0
    else Contribution(row, terms[0]) + WeightedSum(row, terms[1..])
  }

  lemma {:induction false} WeightedSumSnoc(row: Row, terms: seq<LinearTerm>)
    requires terms != [] && HasTerms(row, terms) && AllPresent(row, terms)
    ensures WeightedSum(row, terms)
         == WeightedSum(row, terms[..|terms| - 1]) + Contribution(row, terms[|terms| - 1])
    decreases |terms|
  {
    if |terms| > 1 {
      var n := |terms|;
      assert terms[1..][..n - 2] == terms[..n - 1][1..];
      assert terms[1..][n - 2] == terms[n - 1];
      WeightedSumSnoc(row, terms[1..]);
    }
  }

  /** The accumulated score is present exactly when every term value is, and
      is then bias + Σ w_i × col_i. */
  lemma {:induction false} LinearSpec(row: Row, terms: seq<LinearTerm>, bias: real)
    requires HasTerms(row, terms)
    ensures Linear(row, terms, bias).Some? <==> AllPresent(row, terms)
    ensures AllPresent(row, terms) ==> Linear(row, terms, bias).value == bias + WeightedSum(row, terms)
  {
    LinearPresent(row, terms, bias);
    if AllPresent(row, terms) {
      LinearValue(row, terms, bias);
    }
  }

  lemma {:induction false} LinearPresent(row: Row, terms: seq<LinearTerm>, bias: real)
    requires HasTerms(row, terms)
    ensures Linear(row, terms, bias).Some? <==> AllPresent(row, terms)
    decreases |terms|
  {
    if terms != [] {
      var n := |terms|;
      var init := terms[..n - 1];
      assert forall k :: 0 <= k < n - 1 ==> init[k] == terms[k];
      LinearPresent(row, init, bias);
    }
  }

  lemma {:induction false} LinearValue(row: Row, terms: seq<LinearTerm>, bias: real)
    requires HasTerms(row, terms) && AllPresent(row, terms)
    ensures Linear(row, terms, bias) == Some(bias + WeightedSum(row, terms))
    decreases |terms|
  {
    if terms != [] {
      var init := terms[..|terms| - 1];
      assert forall k :: 0 <= k < |terms| - 1 ==> init[k] == terms[k];
      LinearValue(row, init, bias);
      WeightedSumSnoc(row, terms);
      assert row[terms[|terms| - 1].col].Some?;
      assert Linear(row, init, bias) == Some(bias + WeightedSum(row, init));
      assert WeightedSum(row, terms) == WeightedSum(row, init) + Contribution(row, terms[|terms| - 1]);
      assert Linear(row, terms, bias)
          == Plus(Linear(row, terms[..|terms| - 1], bias), Times(terms[|terms| - 1].weight, row[terms[|terms| - 1].col]));
      TimesSome(row, terms[|terms| - 1]);
      PlusSome(bias + WeightedSum(row, init), Contribution(row, terms[|terms| - 1]));
    } else {
      assert WeightedSum(row, terms) == 0.0;
    }
  }

  /** The raw scores of the frame's rows. */
  function Raw(df: Frame, terms: seq<LinearTerm>, bias: real): (s: Series)
    requires WellFormed(df) && TermsIn(terms, df.columns)
    ensures |s| == |df.rows|
  {
    seq(|df.rows|, i requires 0 <= i < |df.rows| => Linear(df.rows[i], terms, bias))
  }

  /** The accumulation loop: the bias series, then one weighted column per term. */
  method ScoreSeries(df: Frame, terms: seq<LinearTerm>, bias: real) returns (s: Series)
    requires WellFormed(df) && TermsIn(terms, df.columns)
    ensures s == Raw(df, terms, bias)
  {
    s := seq(|df.rows|, i requires 0 <= i < |df.rows| => Some(bias));
    var j := 0;
    while j < |terms|
      invariant 0 <= j <= |terms| && |s| == |df.rows|
      invariant forall i :: 0 <= i < |df.rows| ==> s[i] == Linear(df.rows[i], terms[..j], bias)
    {
      var t := terms[j];
      var col := Column(df, t.col);
      s := seq(|df.rows|, i requires 0 <= i < |df.rows| => Plus(s[i], Times(t.weight, col[i])));
      assert terms[..j + 1][..j] == terms[..j] && terms[..j + 1][j] == t;
      j := j + 1;
    }
    assert terms[..j] == terms;
  }

  /** The post transforms: none, tanh, sigmoid, or the ascending percentile
      rank mapped to 2 * pct - 1; anything else raises ValueError. NaN stays
      NaN under each. */
  function Transform(s: Series, postTransform: Option<string>, exp: real -> N.Positive): (r: Result<Series>)
    ensures r.Ok? ==> |r.value| == |s|
  {
    if postTransform.None? then Ok(s)
    else if postTransform.value == "tanh" then Ok(N.Activated(s, true, exp))
    else if postTransform.value == "sigmoid" then Ok(N.Activated(s, false, exp))
    else if postTransform.value == "rank" then
      N.RankNormalizeSpec(s, true, "minus1_1");
      N.RankNormalize(s, true, "minus1_1")
    else Err(ValueError)
  }

  predicate KnownTransform(postTransform: Option<string>) {
    postTransform.None? || postTransform.value in ["tanh", "sigmoid", "rank"]
  }

  /** `LinearScorer.score`: KeyError without `instrument_id`, then ValueError
      for no terms, then KeyError for a missing term column, then ValueError
      for an unknown transform; otherwise the frame with the score column. */
  function Score(df: Frame, scorer: LinearScorer, exp: real -> N.Positive): Result<ScoreResult>
    requires WellFormed(df)
  {
    if "instrument_id" !in df.columns then Err(KeyError)
    else if |scorer.terms| == 0 then Err(ValueError)
    else if !TermsIn(scorer.terms, df.columns) then Err(KeyError)
    else
      var t := Transform(Raw(df, scorer.terms, scorer.bias), scorer.postTransform, exp);
      if t.Err? then Err(t.error)
      else Ok(ScoreResult(Assign(df, scorer.outCol, t.value), scorer.outCol))
  }

  /** `LinearScorer.score` with its column-check loop. */
  method ScoreSignals(df: Frame, scorer: LinearScorer, exp: real -> N.Positive) returns (r: Result<ScoreResult>)
    requires WellFormed(df)
    ensures r == Score(df, scorer, exp)
  {
    if "instrument_id" !in df.columns {
      return Err(KeyError);
    }
    if |scorer.terms| == 0 {
      return Err(ValueError);
    }
    var k := 0;
    while k < |scorer.terms|
      invariant 0 <= k <= |scorer.terms|
      invariant forall a :: 0 <= a < k ==> scorer.terms[a].col in df.columns
    {
      if scorer.terms[k].col !in df.columns {
        return Err(KeyError);
      }
      k := k + 1;
    }
    var s := ScoreSeries(df, scorer.terms, scorer.bias);
    var t := Transform(s, scorer.postTransform, exp);
    if t.Err? {
      return Err(t.error);
    }
    return Ok(ScoreResult(Assign(df, scorer.outCol, t.value), scorer.outCol));
  }

  /** The error cases in the order the scorer checks them, and success
      exactly when none applies. */
  lemma {:induction false} ScoreErrors(df: Frame, scorer: LinearScorer, exp: real -> N.Positive)
    requires WellFormed(df)
    ensures "instrument_id" !in df.columns ==> Score(df, scorer, exp) == Err(KeyError)
    ensures "instrument_id" in df.columns && scorer.terms == [] ==> Score(df, scorer, exp) == Err(ValueError)
    ensures "instrument_id" in df.columns && scorer.terms != [] && !TermsIn(scorer.terms, df.columns) ==>
      Score(df, scorer, exp) == Err(KeyError)
    ensures ("instrument_id" in df.columns && scorer.terms != [] && TermsIn(scorer.terms, df.columns)
             && !KnownTransform(scorer.postTransform)) ==> Score(df, scorer, exp) == Err(ValueError)
    ensures Score(df, scorer, exp).Ok? <==>
      "instrument_id" in df.columns && scorer.terms != [] && TermsIn(scorer.terms, df.columns)
      && KnownTransform(scorer.postTransform)
  {
    if "instrument_id" in df.columns && scorer.terms != [] && TermsIn(scorer.terms, df.columns) {
      TransformSpec(Raw(df, scorer.terms, scorer.bias), scorer.postTransform, exp);
    }
  }

  /** A known transform keeps the length and the NaN positions; no transform
      is the identity, tanh lands in (-1, 1), sigmoid in (0, 1) and rank in
      (-1, 1]. */
  lemma {:induction false} TransformSpec(s: Series, postTransform: Option<string>, exp: real -> N.Positive)
    ensures Transform(s, postTransform, exp).Ok? <==> KnownTransform(postTransform)
    ensures Transform(s, postTransform, exp).Err? ==> Transform(s, postTransform, exp).error == ValueError
    ensures Transform(s, postTransform, exp).Ok? ==>
      var r := Transform(s, postTransform, exp).value;
      (forall i :: 0 <= i < |s| ==> (r[i].Some? <==> s[i].Some?))
      && (postTransform.None? ==> r == s)
      && (postTransform == Some("tanh") ==> forall i :: 0 <= i < |s| && s[i].Some? ==> -1.0 < r[i].value < 1.0)
      && (postTransform == Some("sigmoid") ==> forall i :: 0 <= i < |s| && s[i].Some? ==> 0.0 < r[i].value < 1.0)
      && (postTransform == Some("rank") ==> forall i :: 0 <= i < |s| && s[i].Some? ==> -1.0 < r[i].value <= 1.0)
  {
    N.RankNormalizeSpec(s, true, "minus1_1");
    if postTransform.Some? && postTransform.value in ["tanh", "sigmoid"] {
      var tanh := postTransform.value == "tanh";
      forall i | 0 <= i < |s| && s[i].Some?
        ensures tanh ==> -1.0 < N.Activation(exp, tanh, s[i].value) < 1.0
        ensures !tanh ==> 0.0 < N.Activation(exp, tanh, s[i].value) < 1.0
      {
        N.ActivationRange(exp, tanh, s[i].value);
      }
    }
  }

  /** Every known transform is strictly increasing on present scores (tanh and
      sigmoid given an increasing exponential). */
  lemma {:induction false} TransformStrict(s: Series, postTransform: Option<string>, exp: real -> N.Positive,
                                           i: nat, j: nat)
    requires N.Increasing(exp) && KnownTransform(postTransform)
    requires i < |s| && j < |s| && s[i].Some? && s[j].Some? && s[i].value < s[j].value
    ensures Transform(s, postTransform, exp).Ok?
    ensures var r := Transform(s, postTransform, exp).value;
      r[i].Some? && r[j].Some? && r[i].value < r[j].value
  {
    TransformSpec(s, postTransform, exp);
    if postTransform.Some? && postTransform.value == "rank" {
      N.RankStrictlyMonotone(s, i, j, true);
      var p := N.PctRank(s, true);
      assert p[i].value < p[j].value;
    } else if postTransform.Some? {
      N.ActivationMonotone(exp, postTransform.value == "tanh", s[i].value, s[j].value);
    }
  }

  /** A successful score keeps every input column, adds or overwrites the
      output column and names it as the score column; a row's score is NaN
      exactly when one of its term values is, and without a transform it is
      bias + Σ w_i × col_i. */
  lemma {:induction false} ScoreSpec(df: Frame, scorer: LinearScorer, exp: real -> N.Positive)
    requires WellFormed(df) && Score(df, scorer, exp).Ok?
    ensures var res := Score(df, scorer, exp).value;
      res.scoreCol == scorer.outCol
      && WellFormed(res.signals) && |res.signals.rows| == |df.rows|
      && scorer.outCol in res.signals.columns
      && (forall c :: c in df.columns && c != scorer.outCol ==>
            c in res.signals.columns && Column(res.signals, c) == Column(df, c))
      && forall i :: 0 <= i < |df.rows| ==>
           HasTerms(df.rows[i], scorer.terms)
           && (res.signals.rows[i][scorer.outCol].Some? <==> AllPresent(df.rows[i], scorer.terms))
           && ((scorer.postTransform.None? && AllPresent(df.rows[i], scorer.terms)) ==>
                 res.signals.rows[i][scorer.outCol].value == scorer.bias + WeightedSum(df.rows[i], scorer.terms))
  {
    var raw := Raw(df, scorer.terms, scorer.bias);
    var t := Transform(raw, scorer.postTransform, exp).value;
    TransformSpec(raw, scorer.postTransform, exp);
    AssignSpec(df, scorer.outCol, t);
    var out := Assign(df, scorer.outCol, t);
    forall i | 0 <= i < |df.rows|
      ensures HasTerms(df.rows[i], scorer.terms)
      ensures out.rows[i][scorer.outCol].Some? <==> AllPresent(df.rows[i], scorer.terms)
      ensures (scorer.postTransform.None? && AllPresent(df.rows[i], scorer.terms)) ==>
        out.rows[i][scorer.outCol].value == scorer.bias + WeightedSum(df.rows[i], scorer.terms)
    {
      LinearSpec(df.rows[i], scorer.terms, scorer.bias);
      assert Column(out, scorer.outCol)[i] == out.rows[i][scorer.outCol];
    }
  }

  /** Of two rows with all terms present, the one with the smaller linear
      score gets the smaller output score, whatever the transform. */
  lemma {:induction false} ScoreOrder(df: Frame, scorer: LinearScorer, exp: real -> N.Positive, i: nat, j: nat)
    requires WellFormed(df) && N.Increasing(exp) && Score(df, scorer, exp).Ok?
    requires i < |df.rows| && j < |df.rows| && TermsIn(scorer.terms, df.columns)
    requires HasTerms(df.rows[i], scorer.terms) && HasTerms(df.rows[j], scorer.terms)
    requires AllPresent(df.rows[i], scorer.terms) && AllPresent(df.rows[j], scorer.terms)
    requires WeightedSum(df.rows[i], scorer.terms) < WeightedSum(df.rows[j], scorer.terms)
    ensures var out := Score(df, scorer, exp).value.signals;
      scorer.outCol in out.rows[i] && scorer.outCol in out.rows[j]
      && out.rows[i][scorer.outCol].Some? && out.rows[j][scorer.outCol].Some?
      && out.rows[i][scorer.outCol].value < out.rows[j][scorer.outCol].value
  {
    var raw := Raw(df, scorer.terms, scorer.bias);
    LinearSpec(df.rows[i], scorer.terms, scorer.bias);
    LinearSpec(df.rows[j], scorer.terms, scorer.bias);
    ScoreErrors(df, scorer, exp);
    TransformStrict(raw, scorer.postTransform, exp, i, j);
    var t := Transform(raw, scorer.postTransform, exp).value;
    AssignSpec(df, scorer.outCol, t);
    var out := Assign(df, scorer.outCol, t);
    assert Column(out, scorer.outCol)[i] == out.rows[i][scorer.outCol];
    assert Column(out, scorer.outCol)[j] == out.rows[j][scorer.outCol];
  }

  /** The example: 0.6 × mom_rank − 0.4 × vol_rank on the row (1, −1) is 1. */
  lemma {:induction false} LinearExample()
    ensures var row: Row := map["instrument_id" := Some(1.0), "mom_rank" := Some(1.0), "vol_rank" := Some(-1.0)];
      Linear(row, [LinearTerm("mom_rank", 0.6), LinearTerm("vol_rank", -0.4)], 0.0) == Some(1.0)
  {
    var row: Row := map["instrument_id" := Some(1.0), "mom_rank" := Some(1.0), "vol_rank" := Some(-1.0)];
    var terms := [LinearTerm("mom_rank", 0.6), LinearTerm("vol_rank", -0.4)];
    assert terms[..1][..0] == [];
    assert Linear(row, terms[..1], 0.0) == Some(0.6);
    assert terms[..1] == terms[..|terms| - 1];
  }

  /** The example: the rank transform maps 10, 20, 30 to −1/3, 1/3, 1. */
  lemma {:induction false} RankExample(exp: real -> N.Positive)
    ensures Transform([Some(10.0), Some(20.0), Some(30.0)], Some("rank"), exp)
         == Ok([Some(-1.0 / 3.0), Some(1.0 / 3.0), Some(1.0)])
  {
    var s: Series := [Some(10.0), Some(20.0), Some(30.0)];
    var s2 := s[..2];
    var s1 := s[..1];
    assert s2[..1] == s1 && s1[..0] == [];
    assert N.Count(s1) == 1 && N.Count(s2) == 2 && N.Count(s) == 3;
    assert N.Below(s1, 10.0) == 0 && N.Below(s2, 10.0) == 0 && N.Below(s, 10.0) == 0;
    assert N.Same(s1, 10.0) == 1 && N.Same(s2, 10.0) == 1 && N.Same(s, 10.0) == 1;
    assert N.Below(s1, 20.0) == 1 && N.Below(s2, 20.0) == 1 && N.Below(s, 20.0) == 1;
    assert N.Same(s1, 20.0) == 0 && N.Same(s2, 20.0) == 1 && N.Same(s, 20.0) == 1;
    assert N.Below(s1, 30.0) == 1 && N.Below(s2, 30.0) == 2 && N.Below(s, 30.0) == 2;
    assert N.Same(s1, 30.0) == 0 && N.Same(s2, 30.0) == 0 && N.Same(s, 30.0) == 1;
    var p := N.PctRank(s, true);
    assert p == [Some(1.0 / 3.0), Some(2.0 / 3.0), Some(1.0)];
    var r := N.RankNormalize(s, true, "minus1_1").value;
    assert r[0] == Some(2.0 * (1.0 / 3.0) - 1.0) && r[1] == Some(2.0 * (2.0 / 3.0) - 1.0) && r[2] == Some(2.0 * 1.0 - 1.0);
    assert r == [Some(-1.0 / 3.0), Some(1.0 / 3.0), Some(1.0)];
  }
}
