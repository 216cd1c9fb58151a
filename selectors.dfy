/** engine/selectors/topk.py and engine/selectors/rules.py: filter the signal
    frame by (column, operator, threshold) conditions, then keep the first k
    rows by a ranking column (the top-k selector) or by the row-wise mean or
    sum of some rank columns (the rule selector). */
module Selectors {
  import opened Common
  import opened Frames

  /** A `(col, op, thr)` filter of the top-k selector, or a `Rule`. */
  datatype Condition = Condition(col: string, op: string, thr: real)

  /** `TopKSelector`. */
  datatype TopKSelector = TopKSelector(k: int, sortBy: string, sortAscending: bool, filters: seq<Condition>)

  /** `RuleSelector`. */
  datatype RuleSelector = RuleSelector(k: int, rules: seq<Condition>, rankCols: seq<string>, agg: string,
                                       sortAscending: bool)

  /** `SelectionResult`: the selected rows and the column they were ranked by. */
  datatype SelectionResult = SelectionResult(selected: Frame, rankingCol: Option<string>)

  /** The dataclass defaults. */
  function DefaultTopK(k: int, sortBy: string): (s: TopKSelector)
    ensures s.k == k && s.sortBy == sortBy && !s.sortAscending && s.filters == []
  {
    TopKSelector(k, sortBy, false, [])
  }

  function DefaultRules(k: int, rules: seq<Condition>, rankCols: seq<string>): (s: RuleSelector)
    ensures s.k == k && s.rules == rules && s.rankCols == rankCols && s.agg == "mean" && !s.sortAscending
  {
    RuleSelector(k, rules, rankCols, "mean", false)
  }

  // ------------------------------------------------------------------
  // The filter loop shared by both selectors
  // ------------------------------------------------------------------

  /** The conditions in order; each one needs its column (KeyError) and a
      known operator (ValueError) when it is reached. */
  function ApplyFilters(f: Frame, conds: seq<Condition>): (r: Result<Frame>)
    requires WellFormed(f)
    ensures r.Ok? ==> WellFormed(r.value) && r.value.columns == f.columns
    decreases |conds|
  {
    if conds == [] then Ok(f)
    else if conds[0].col !in f.columns then Err(KeyError)
    else
      match ParseOp(conds[0].op)
      case None => Err(ValueError)
      case Some(op) => ApplyFilters(Filtered(f, conds[0].col, op, conds[0].thr), conds[1..])
  }

  /** `for col, op, thr in filters: ... df = df[df[col] <op> thr]`. */
  method FilterLoop(f: Frame, conds: seq<Condition>) returns (r: Result<Frame>)
    requires WellFormed(f)
    ensures r == ApplyFilters(f, conds)
  {
    var df := f;
    var i := 0;
    while i < |conds|
      invariant 0 <= i <= |conds| && WellFormed(df)
      invariant ApplyFilters(df, conds[i..]) == ApplyFilters(f, conds)
    {
      var c := conds[i];
      assert conds[i..][0] == c && conds[i..][1..] == conds[i + 1..];
      if c.col !in df.columns {
        return Err(KeyError);
      }
      var op := ParseOp(c.op);
      if op.None? {
        return Err(ValueError);
      }
      df := Filtered(df, c.col, op.value, c.thr);
      i := i + 1;
    }
    return Ok(df);
  }

  predicate ColumnsKnown(conds: seq<Condition>, cols: seq<string>) {
    forall k :: 0 <= k < |conds| ==> conds[k].col in cols
  }

  predicate OperatorsKnown(conds: seq<Condition>) {
    forall k :: 0 <= k < |conds| ==> ParseOp(conds[k].op).Some?
  }

  /** The row satisfies every condition. */
  predicate Passes(row: Row, conds: seq<Condition>) {
    forall k :: 0 <= k < |conds| ==>
      conds[k].col in row && ParseOp(conds[k].op).Some?
      && Holds(row[conds[k].col], ParseOp(conds[k].op).value, conds[k].thr)
  }

  /** Filtering fails exactly when a condition names a missing column or an
      unknown operator, with the kind of the first such condition. */
  lemma {:induction false} ApplyFiltersErrors(f: Frame, conds: seq<Condition>)
    requires WellFormed(f)
    ensures ApplyFilters(f, conds).Ok? <==> ColumnsKnown(conds, f.columns) && OperatorsKnown(conds)
    ensures ApplyFilters(f, conds).Err? ==> ApplyFilters(f, conds).error in {KeyError, ValueError}
    ensures OperatorsKnown(conds) && !ColumnsKnown(conds, f.columns) ==> ApplyFilters(f, conds) == Err(KeyError)
    ensures ColumnsKnown(conds, f.columns) && !OperatorsKnown(conds) ==> ApplyFilters(f, conds) == Err(ValueError)
    ensures conds != [] && conds[0].col !in f.columns ==> ApplyFilters(f, conds) == Err(KeyError)
    ensures conds != [] && conds[0].col in f.columns && ParseOp(conds[0].op).None? ==>
      ApplyFilters(f, conds) == Err(ValueError)
    decreases |conds|
  {
    if conds != [] && conds[0].col in f.columns && ParseOp(conds[0].op).Some? {
      var g := Filtered(f, conds[0].col, ParseOp(conds[0].op).value, conds[0].thr);
      ApplyFiltersErrors(g, conds[1..]);
      assert forall k :: 0 <= k < |conds| - 1 ==> conds[1..][k] == conds[k + 1];
      assert ColumnsKnown(conds, f.columns) <==> ColumnsKnown(conds[1..], f.columns);
      assert OperatorsKnown(conds) <==> OperatorsKnown(conds[1..]);
    }
  }

  /** Every kept row satisfies every condition, and no row is kept more often
      than it occurs. */
  lemma {:induction false} ApplyFiltersSound(f: Frame, conds: seq<Condition>)
    requires WellFormed(f) && ApplyFilters(f, conds).Ok?
    ensures multiset(ApplyFilters(f, conds).value.rows) <= multiset(f.rows)
    ensures forall j :: 0 <= j < |ApplyFilters(f, conds).value.rows| ==>
      Passes(ApplyFilters(f, conds).value.rows[j], conds)
    decreases |conds|
  {
    if conds != [] {
      var c := conds[0];
      var op := ParseOp(c.op).value;
      var g := Filtered(f, c.col, op, c.thr);
      WhereSpec(f.rows, c.col, op, c.thr);
      ApplyFiltersSound(g, conds[1..]);
      var out := ApplyFilters(f, conds).value.rows;
      assert out == ApplyFilters(g, conds[1..]).value.rows;
      forall j | 0 <= j < |out| ensures Passes(out[j], conds) {
        assert out[j] in multiset(g.rows);
        var a :| 0 <= a < |g.rows| && g.rows[a] == out[j];
        assert Passes(out[j], conds[1..]);
        forall k | 0 <= k < |conds|
          ensures conds[k].col in out[j] && ParseOp(conds[k].op).Some?
            && Holds(out[j][conds[k].col], ParseOp(conds[k].op).value, conds[k].thr)
        {
          if k > 0 {
            assert conds[k] == conds[1..][k - 1];
          }
        }
      }
    }
  }

  /** Every row satisfying all conditions is kept. */
  lemma {:induction false} ApplyFiltersComplete(f: Frame, conds: seq<Condition>)
    requires WellFormed(f) && ApplyFilters(f, conds).Ok?
    ensures forall i :: 0 <= i < |f.rows| && Passes(f.rows[i], conds) ==> f.rows[i] in ApplyFilters(f, conds).value.rows
    decreases |conds|
  {
    if conds != [] {
      var c := conds[0];
      var op := ParseOp(c.op).value;
      var g := Filtered(f, c.col, op, c.thr);
      WhereSpec(f.rows, c.col, op, c.thr);
      ApplyFiltersComplete(g, conds[1..]);
      forall i | 0 <= i < |f.rows| && Passes(f.rows[i], conds)
        ensures f.rows[i] in ApplyFilters(f, conds).value.rows
      {
        assert Holds(f.rows[i][c.col], op, c.thr);
        var a :| 0 <= a < |g.rows| && g.rows[a] == f.rows[i];
        assert Passes(g.rows[a], conds[1..]) by {
          assert forall k :: 0 <= k < |conds| - 1 ==> conds[1..][k] == conds[k + 1];
        }
      }
    }
  }

  // ------------------------------------------------------------------
  // `TopKSelector.select`
  // ------------------------------------------------------------------

  /** ValueError for k <= 0, KeyError for a missing `instrument_id` or
      ranking column, then the filters; the result is the first k filtered
      rows by the ranking column. */
  function SelectTopK(signals: Frame, sel: TopKSelector): Result<SelectionResult>
    requires WellFormed(signals)
  {
    if sel.k <= 0 then Err(ValueError)
    else if "instrument_id" !in signals.columns then Err(KeyError)
    else if sel.sortBy !in signals.columns then Err(KeyError)
    else
      var g := ApplyFilters(signals, sel.filters);
      if g.Err? then Err(g.error)
      else Ok(SelectionResult(TopRows(g.value, sel.sortBy, sel.sortAscending, sel.k), Some(sel.sortBy)))
  }

  method TopKSelect(signals: Frame, sel: TopKSelector) returns (r: Result<SelectionResult>)
    requires WellFormed(signals)
    ensures r == SelectTopK(signals, sel)
  {
    if sel.k <= 0 {
      return Err(ValueError);
    }
    if "instrument_id" !in signals.columns || sel.sortBy !in signals.columns {
      return Err(KeyError);
    }
    var g := FilterLoop(signals, sel.filters);
    if g.Err? {
      return Err(g.error);
    }
    return Ok(SelectionResult(TopRows(g.value, sel.sortBy, sel.sortAscending, sel.k), Some(sel.sortBy)));
  }

  /** The checks in order, and success exactly when all pass. */
  lemma {:induction false} TopKErrors(signals: Frame, sel: TopKSelector)
    requires WellFormed(signals)
    ensures sel.k <= 0 ==> SelectTopK(signals, sel) == Err(ValueError)
    ensures sel.k > 0 && "instrument_id" !in signals.columns ==> SelectTopK(signals, sel) == Err(KeyError)
    ensures sel.k > 0 && sel.sortBy !in signals.columns ==> SelectTopK(signals, sel) == Err(KeyError)
    ensures SelectTopK(signals, sel).Ok? <==>
      sel.k > 0 && "instrument_id" in signals.columns && sel.sortBy in signals.columns
      && ColumnsKnown(sel.filters, signals.columns) && OperatorsKnown(sel.filters)
  {
    ApplyFiltersErrors(signals, sel.filters);
  }

  /** The selection holds min(k, filtered) rows, all satisfying every filter,
      none more often than in the input, sorted by the ranking column, and
      none ranking after a filtered row left out; the ranking column is
      `sort_by`. */
  lemma {:induction false} TopKSpec(signals: Frame, sel: TopKSelector)
    requires WellFormed(signals) && SelectTopK(signals, sel).Ok?
    ensures var res := SelectTopK(signals, sel).value;
      var filtered := ApplyFilters(signals, sel.filters).value;
      res.rankingCol == Some(sel.sortBy)
      && res.selected.columns == signals.columns
      && |res.selected.rows| == MinInt(sel.k, |filtered.rows|)
      && (forall j :: 0 <= j < |res.selected.rows| ==> Passes(res.selected.rows[j], sel.filters))
      && multiset(res.selected.rows) <= multiset(signals.rows)
      && SortedBy(res.selected.rows, sel.sortBy, sel.sortAscending)
      && var sorted := SortRows(filtered.rows, sel.sortBy, sel.sortAscending);
         forall i, j :: 0 <= i < |res.selected.rows| <= j < |sorted| ==>
           Precedes(res.selected.rows[i][sel.sortBy], sorted[j][sel.sortBy], sel.sortAscending)
  {
    TopKIs(signals, sel);
    var filtered := ApplyFilters(signals, sel.filters).value;
    ApplyFiltersSound(signals, sel.filters);
    TopRowsSpec(filtered, sel.sortBy, sel.sortAscending, sel.k);
    var top := TopRows(filtered, sel.sortBy, sel.sortAscending, sel.k).rows;
    forall j | 0 <= j < |top| ensures Passes(top[j], sel.filters) {
      assert top[j] in multiset(filtered.rows);
      var a :| 0 <= a < |filtered.rows| && filtered.rows[a] == top[j];
    }
    PrefixPrecedes(SortRows(filtered.rows, sel.sortBy, sel.sortAscending), |top|, sel.sortBy, sel.sortAscending);
  }

  /** A successful top-k selection is the head of the filtered frame. */
  lemma {:induction false} TopKIs(signals: Frame, sel: TopKSelector)
    requires WellFormed(signals) && SelectTopK(signals, sel).Ok?
    ensures ApplyFilters(signals, sel.filters).Ok? && sel.sortBy in ApplyFilters(signals, sel.filters).value.columns
    ensures ApplyFilters(signals, sel.filters).value.columns == signals.columns
    ensures SelectTopK(signals, sel).value
      == SelectionResult(TopRows(ApplyFilters(signals, sel.filters).value, sel.sortBy, sel.sortAscending, sel.k), Some(sel.sortBy))
  {
  }

  /** Every row of a sorted prefix may precede every row after it. */
  lemma {:induction false} PrefixPrecedes(sorted: seq<Row>, n: nat, col: string, ascending: bool)
    requires AllHave(sorted, col) && SortedBy(sorted, col, ascending) && n <= |sorted|
    ensures forall i, j :: 0 <= i < n <= j < |sorted| ==> Precedes(sorted[..n][i][col], sorted[j][col], ascending)
  {
  }

  // ------------------------------------------------------------------
  // `RuleSelector.select`
  // ------------------------------------------------------------------

  const ScoreColumn: string := "_selector_score"

  /** The sum and the number of the present values among `cols` (NaN skipped). */
  function PresentSum(row: Row, cols: seq<string>): real
    requires forall k :: 0 <= k < |cols| ==> cols[k] in row
    decreases |cols|
  {
    if cols == [] then 0.0
    else (if row[cols[0]].Some? then row[cols[0]].value else 0.0) + PresentSum(row, cols[1..])
  }

  function PresentCount(row: Row, cols: seq<string>): nat
    requires forall k :: 0 <= k < |cols| ==> cols[k] in row
    decreases |cols|
  {
    if cols == [] then 0
    else (if row[cols[0]].Some? then 1 else 0) + PresentCount(row, cols[1..])
  }

  /** `df[cols].mean(axis=1)` (NaN when no value is present) and
      `df[cols].sum(axis=1)` (0 when none is). */
  function Aggregate(row: Row, cols: seq<string>, mean: bool): Option<real>
    requires forall k :: 0 <= k < |cols| ==> cols[k] in row
  {
    if !mean then Some(PresentSum(row, cols))
    else if PresentCount(row, cols) == 0 then None
    else Some(PresentSum(row, cols) / PresentCount(row, cols) as real)
  }

  /** With the present values between `lo` and `hi`, the sum lies between
      count × lo and count × hi. */
  lemma {:induction false} PresentSumBounds(row: Row, cols: seq<string>, lo: real, hi: real)
    requires forall k :: 0 <= k < |cols| ==> cols[k] in row
    requires forall k :: 0 <= k < |cols| && row[cols[k]].Some? ==> lo <= row[cols[k]].value <= hi
    ensures PresentCount(row, cols) as real * lo <= PresentSum(row, cols) <= PresentCount(row, cols) as real * hi
  {
    PresentSumBetween(row, cols, lo, hi);
    PresentBoundIsCount(row, cols, lo);
    PresentBoundIsCount(row, cols, hi);
  }

  /** `v` once for every present value. */
  function PresentBound(row: Row, cols: seq<string>, v: real): real
    requires forall k :: 0 <= k < |cols| ==> cols[k] in row
    decreases |cols|
  {
    if cols == [] then 0.0
    else (if row[cols[0]].Some? then v else 0.0) + PresentBound(row, cols[1..], v)
  }

  /** The sum lies between the bounds counted once per present value. */
  lemma {:induction false} PresentSumBetween(row: Row, cols: seq<string>, lo: real, hi: real)
    requires forall k :: 0 <= k < |cols| ==> cols[k] in row
    requires forall k :: 0 <= k < |cols| && row[cols[k]].Some? ==> lo <= row[cols[k]].value <= hi
    ensures PresentBound(row, cols, lo) <= PresentSum(row, cols) <= PresentBound(row, cols, hi)
    decreases |cols|
  {
    if cols != [] {
      assert forall k :: 0 <= k < |cols| - 1 ==> cols[1..][k] == cols[k + 1];
      PresentSumBetween(row, cols[1..], lo, hi);
    }
  }

  /** Counting `v` per present value is the count times `v`. */
  lemma {:induction false} PresentBoundIsCount(row: Row, cols: seq<string>, v: real)
    requires forall k :: 0 <= k < |cols| ==> cols[k] in row
    ensures PresentBound(row, cols, v) == PresentCount(row, cols) as real * v
    decreases |cols|
  {
    if cols != [] {
      assert forall k :: 0 <= k < |cols| - 1 ==> cols[1..][k] == cols[k + 1];
      PresentBoundIsCount(row, cols[1..], v);
    }
  }

  /** A mean is NaN exactly when no value is present, and otherwise lies
      between the bounds of the present values; a sum is never NaN. */
  lemma {:induction false} AggregateSpec(row: Row, cols: seq<string>, lo: real, hi: real)
    requires forall k :: 0 <= k < |cols| ==> cols[k] in row
    requires forall k :: 0 <= k < |cols| && row[cols[k]].Some? ==> lo <= row[cols[k]].value <= hi
    ensures Aggregate(row, cols, false).Some?
    ensures Aggregate(row, cols, true).Some? <==> PresentCount(row, cols) > 0
    ensures Aggregate(row, cols, true).Some? ==> lo <= Aggregate(row, cols, true).value <= hi
  {
    PresentSumBounds(row, cols, lo, hi);
    if PresentCount(row, cols) > 0 {
      var n := PresentCount(row, cols) as real;
      var s := PresentSum(row, cols);
      DivideBetween(s, n, lo, hi);
    }
  }

  lemma {:induction false} DivideBetween(s: real, n: real, lo: real, hi: real)
    requires n > 0.0 && n * lo <= s <= n * hi
    ensures lo <= s / n <= hi
  {
    assert s / n * n == s;
    assert (n * lo) / n == lo && (n * hi) / n == hi;
  }

  /** Giving a row a value under a column that is not aggregated leaves its
      aggregate alone. */
  lemma {:induction false} AggregateIgnores(row: Row, cols: seq<string>, mean: bool, c: string, v: Option<real>)
    requires forall k :: 0 <= k < |cols| ==> cols[k] in row && cols[k] != c
    ensures Aggregate(row[c := v], cols, mean) == Aggregate(row, cols, mean)
  {
    PresentIgnores(row, cols, c, v);
  }

  lemma {:induction false} PresentIgnores(row: Row, cols: seq<string>, c: string, v: Option<real>)
    requires forall k :: 0 <= k < |cols| ==> cols[k] in row && cols[k] != c
    ensures PresentSum(row[c := v], cols) == PresentSum(row, cols)
    ensures PresentCount(row[c := v], cols) == PresentCount(row, cols)
    decreases |cols|
  {
    if cols != [] {
      assert forall k :: 0 <= k < |cols| - 1 ==> cols[1..][k] == cols[k + 1];
      PresentIgnores(row, cols[1..], c, v);
    }
  }

  /** The aggregate score of every row of a frame. */
  function Scores(f: Frame, cols: seq<string>, mean: bool): (s: Series)
    requires WellFormed(f) && forall k :: 0 <= k < |cols| ==> cols[k] in f.columns
    ensures |s| == |f.rows|
  {
    seq(|f.rows|, i requires 0 <= i < |f.rows| => Aggregate(f.rows[i], cols, mean))
  }

  /** ValueError for k <= 0, KeyError without `instrument_id`, then the
      rules, then ValueError for no rank columns, KeyError for a missing one
      and ValueError for an unknown aggregate; the result is the first k
      filtered rows by `_selector_score`. */
  function SelectByRules(signals: Frame, sel: RuleSelector): Result<SelectionResult>
    requires WellFormed(signals)
  {
    if sel.k <= 0 then Err(ValueError)
    else if "instrument_id" !in signals.columns then Err(KeyError)
    else
      var g := ApplyFilters(signals, sel.rules);
      if g.Err? then Err(g.error)
      else if |sel.rankCols| == 0 then Err(ValueError)
      else if exists k :: 0 <= k < |sel.rankCols| && sel.rankCols[k] !in g.value.columns then Err(KeyError)
      else if sel.agg != "mean" && sel.agg != "sum" then Err(ValueError)
      else
        var scored := Assign(g.value, ScoreColumn, Scores(g.value, sel.rankCols, sel.agg == "mean"));
        AssignSpec(g.value, ScoreColumn, Scores(g.value, sel.rankCols, sel.agg == "mean"));
        Ok(SelectionResult(TopRows(scored, ScoreColumn, sel.sortAscending, sel.k), Some(ScoreColumn)))
  }

  method RuleSelect(signals: Frame, sel: RuleSelector) returns (r: Result<SelectionResult>)
    requires WellFormed(signals)
    ensures r == SelectByRules(signals, sel)
  {
    if sel.k <= 0 {
      return Err(ValueError);
    }
    if "instrument_id" !in signals.columns {
      return Err(KeyError);
    }
    var g := FilterLoop(signals, sel.rules);
    if g.Err? {
      return Err(g.error);
    }
    var df := g.value;
    if |sel.rankCols| == 0 {
      return Err(ValueError);
    }
    var i := 0;
    while i < |sel.rankCols|
      invariant 0 <= i <= |sel.rankCols|
      invariant forall k :: 0 <= k < i ==> sel.rankCols[k] in df.columns
    {
      if sel.rankCols[i] !in df.columns {
        return Err(KeyError);
      }
      i := i + 1;
    }
    if sel.agg != "mean" && sel.agg != "sum" {
      return Err(ValueError);
    }
    var scored := Assign(df, ScoreColumn, Scores(df, sel.rankCols, sel.agg == "mean"));
    AssignSpec(df, ScoreColumn, Scores(df, sel.rankCols, sel.agg == "mean"));
    return Ok(SelectionResult(TopRows(scored, ScoreColumn, sel.sortAscending, sel.k), Some(ScoreColumn)));
  }

  /** The checks in order: k, `instrument_id`, the rules, the rank columns
      (empty, then missing), the aggregate; success exactly when all pass. */
  lemma {:induction false} RulesErrors(signals: Frame, sel: RuleSelector)
    requires WellFormed(signals)
    ensures sel.k <= 0 ==> SelectByRules(signals, sel) == Err(ValueError)
    ensures sel.k > 0 && "instrument_id" !in signals.columns ==> SelectByRules(signals, sel) == Err(KeyError)
    ensures (sel.k > 0 && "instrument_id" in signals.columns && ColumnsKnown(sel.rules, signals.columns)
             && OperatorsKnown(sel.rules) && sel.rankCols == []) ==> SelectByRules(signals, sel) == Err(ValueError)
    ensures SelectByRules(signals, sel).Ok? <==>
      sel.k > 0 && "instrument_id" in signals.columns
      && ColumnsKnown(sel.rules, signals.columns) && OperatorsKnown(sel.rules)
      && sel.rankCols != [] && (forall k :: 0 <= k < |sel.rankCols| ==> sel.rankCols[k] in signals.columns)
      && sel.agg in ["mean", "sum"]
  {
    ApplyFiltersErrors(signals, sel.rules);
  }

  /** What the rule selector promises of a selected row: every rule on a
      column other than `_selector_score` holds, and unless `_selector_score`
      is itself a rank column, the row's score is the mean or sum of its rank
      columns. */
  predicate RuleRow(row: Row, sel: RuleSelector) {
    (forall k :: 0 <= k < |sel.rules| && sel.rules[k].col != ScoreColumn ==>
       sel.rules[k].col in row && ParseOp(sel.rules[k].op).Some?
       && Holds(row[sel.rules[k].col], ParseOp(sel.rules[k].op).value, sel.rules[k].thr))
    && (ScoreColumn !in sel.rankCols ==>
          ScoreColumn in row && (forall k :: 0 <= k < |sel.rankCols| ==> sel.rankCols[k] in row)
          && row[ScoreColumn] == Aggregate(row, sel.rankCols, sel.agg == "mean"))
  }

  /** Every row of the scored frame is a selectable row. */
  lemma {:induction false} ScoredRows(g: Frame, sel: RuleSelector)
    requires WellFormed(g) && forall k :: 0 <= k < |sel.rankCols| ==> sel.rankCols[k] in g.columns
    requires forall a :: 0 <= a < |g.rows| ==> Passes(g.rows[a], sel.rules)
    ensures var scored := Assign(g, ScoreColumn, Scores(g, sel.rankCols, sel.agg == "mean"));
      forall a :: 0 <= a < |scored.rows| ==> RuleRow(scored.rows[a], sel)
  {
    var mean := sel.agg == "mean";
    var s := Scores(g, sel.rankCols, mean);
    var scored := Assign(g, ScoreColumn, s);
    forall a | 0 <= a < |scored.rows| ensures RuleRow(scored.rows[a], sel) {
      assert scored.rows[a] == g.rows[a][ScoreColumn := s[a]];
      if ScoreColumn !in sel.rankCols {
        AggregateIgnores(g.rows[a], sel.rankCols, mean, ScoreColumn, s[a]);
      }
    }
  }

  /** The selection holds min(k, filtered) rows sorted by `_selector_score`,
      the ranking column; every selected row is a `RuleRow`, comes from the
      filtered and scored frame no more often than it occurs there, and
      ranks no later than any scored row left out. */
  lemma {:induction false} RulesSpec(signals: Frame, sel: RuleSelector)
    requires WellFormed(signals) && SelectByRules(signals, sel).Ok?
    ensures var res := SelectByRules(signals, sel).value;
      res.rankingCol == Some(ScoreColumn)
      && |res.selected.rows| == MinInt(sel.k, |ApplyFilters(signals, sel.rules).value.rows|)
      && ScoreColumn in res.selected.columns
      && SortedBy(res.selected.rows, ScoreColumn, sel.sortAscending)
      && forall j :: 0 <= j < |res.selected.rows| ==> RuleRow(res.selected.rows[j], sel)
    ensures var res := SelectByRules(signals, sel).value;
      var g := ApplyFilters(signals, sel.rules).value;
      var scored := Assign(g, ScoreColumn, Scores(g, sel.rankCols, sel.agg == "mean"));
      multiset(res.selected.rows) <= multiset(scored.rows)
      && var sorted := SortRows(scored.rows, ScoreColumn, sel.sortAscending);
         forall i, j :: 0 <= i < |res.selected.rows| <= j < |sorted| ==>
           Precedes(res.selected.rows[i][ScoreColumn], sorted[j][ScoreColumn], sel.sortAscending)
  {
    var g := ApplyFilters(signals, sel.rules).value;
    ApplyFiltersSound(signals, sel.rules);
    var s := Scores(g, sel.rankCols, sel.agg == "mean");
    AssignSpec(g, ScoreColumn, s);
    var scored := Assign(g, ScoreColumn, s);
    ScoredRows(g, sel);
    TopRowsSpec(scored, ScoreColumn, sel.sortAscending, sel.k);
    TopRuleRows(scored, sel);
    var top := TopRows(scored, ScoreColumn, sel.sortAscending, sel.k).rows;
    PrefixPrecedes(SortRows(scored.rows, ScoreColumn, sel.sortAscending), |top|, ScoreColumn, sel.sortAscending);
  }

  /** The top rows of a frame of selectable rows are selectable. */
  lemma {:induction false} TopRuleRows(scored: Frame, sel: RuleSelector)
    requires WellFormed(scored) && ScoreColumn in scored.columns && sel.k > 0
    requires forall a :: 0 <= a < |scored.rows| ==> RuleRow(scored.rows[a], sel)
    ensures var top := TopRows(scored, ScoreColumn, sel.sortAscending, sel.k).rows;
      forall j :: 0 <= j < |top| ==> RuleRow(top[j], sel)
  {
    TopRowsSpec(scored, ScoreColumn, sel.sortAscending, sel.k);
    var top := TopRows(scored, ScoreColumn, sel.sortAscending, sel.k).rows;
    forall j | 0 <= j < |top| ensures RuleRow(top[j], sel) {
      assert top[j] in multiset(scored.rows);
      var a :| 0 <= a < |scored.rows| && scored.rows[a] == top[j];
    }
  }
}
