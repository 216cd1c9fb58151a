/** engine/signals.py: the per-factor signal columns of a cross section
    (`{name}_rank` and `{name}_mag`), the long-to-wide pivot of factor rows,
    and the argument checks and clause list of the factor query. */
module Signals {
  import opened Common
  import opened Text
  import opened Frames
  import N = Normalizer

  /** `FactorSpec`: the factor column, its direction and the signals to build. */
  datatype FactorSpec = FactorSpec(factorName: string, ascending: bool, methods: seq<string>,
                                   magActivation: string, magClipQuantile: Option<real>, magZClip: real)

  /** The dataclass defaults. */
  function DefaultSpec(name: string): (s: FactorSpec)
    ensures s.factorName == name && s.ascending && s.methods == ["rank", "mag"]
    ensures s.magActivation == "tanh" && s.magClipQuantile == Some(0.01) && s.magZClip == 6.0
  {
    FactorSpec(name, true, ["rank", "mag"], "tanh", Some(0.01), 6.0)
  }

  /** The column a method writes: `{name}_rank` or `{name}_mag`. */
  function SignalColumn(name: string, methodName: string): string {
    name + "_" + methodName
  }

  /** A signal column name never equals the factor column it is built from. */
  lemma {:induction false} SignalColumnIsNew(name: string, methodName: string)
    ensures SignalColumn(name, methodName) != name
  {
    assert |SignalColumn(name, methodName)| > |name|;
  }

  /** Different methods write different columns. */
  lemma {:induction false} SignalColumnInjective(name: string, m1: string, m2: string)
    requires SignalColumn(name, m1) == SignalColumn(name, m2)
    ensures m1 == m2
  {
    var n := |name| + 1;
    assert SignalColumn(name, m1)[n..] == m1;
    assert SignalColumn(name, m2)[n..] == m2;
  }

  /** The signal one method computes from the factor column: the rank mapped
      into [-1, 1], the magnitude score with the spec's parameters, or
      ValueError for an unknown method. */
  function Signal(x: Series, spec: FactorSpec, methodName: string,
                  quantile: (Series, real) -> Option<real>, exp: real -> N.Positive): (r: Result<Series>)
    ensures r.Ok? ==> |r.value| == |x|
  {
    if methodName == "rank" then
      N.RankNormalizeSpec(x, spec.ascending, "minus1_1");
      N.RankNormalize(x, spec.ascending, "minus1_1")
    else if methodName == "mag" then
      var s := N.MagnitudeNormalize(x, spec.ascending, spec.magClipQuantile, spec.magActivation, spec.magZClip,
                                    quantile, exp);
      if s.Ok? then
        N.MagnitudeRange(x, spec.ascending, spec.magClipQuantile, spec.magActivation, spec.magZClip, quantile, exp);
        s
      else s
    else Err(ValueError)
  }

  /** A method fails only with ValueError: an unknown method, or a magnitude
      parameter the normaliser rejects; "rank" never fails. */
  lemma {:induction false} SignalErrors(x: Series, spec: FactorSpec, methodName: string,
                                        quantile: (Series, real) -> Option<real>, exp: real -> N.Positive)
    ensures var r := Signal(x, spec, methodName, quantile, exp);
      (r.Err? ==> r.error == ValueError)
      && (methodName == "rank" ==> r.Ok?)
      && (methodName != "rank" && methodName != "mag" ==> r.Err?)
  {
    N.MagnitudeErrors(x, spec.ascending, spec.magClipQuantile, spec.magActivation, spec.magZClip, quantile, exp);
    N.RankNormalizeSpec(x, spec.ascending, "minus1_1");
  }

  /** One method of one spec: its signal written to `{name}_{method}`. */
  function Step(f: Frame, spec: FactorSpec, methodName: string,
                quantile: (Series, real) -> Option<real>, exp: real -> N.Positive): (r: Result<Frame>)
    requires WellFormed(f) && spec.factorName in f.columns
    ensures r.Ok? ==> WellFormed(r.value) && |r.value.rows| == |f.rows|
    ensures r.Ok? ==> forall c :: c in f.columns ==> c in r.value.columns
  {
    var s := Signal(Column(f, spec.factorName), spec, methodName, quantile, exp);
    if s.Err? then Err(s.error)
    else
      AssignSpec(f, SignalColumn(spec.factorName, methodName), s.value);
      Ok(Assign(f, SignalColumn(spec.factorName, methodName), s.value))
  }

  /** A step fails exactly when its signal does; it writes the signal to its
      column and leaves every other column as it was. */
  lemma {:induction false} StepSpec(f: Frame, spec: FactorSpec, methodName: string,
                                    quantile: (Series, real) -> Option<real>, exp: real -> N.Positive)
    requires WellFormed(f) && spec.factorName in f.columns
    ensures var s := Signal(Column(f, spec.factorName), spec, methodName, quantile, exp);
      var r := Step(f, spec, methodName, quantile, exp);
      var col := SignalColumn(spec.factorName, methodName);
      (r.Err? <==> s.Err?) && (r.Err? ==> r.error == s.error)
      && (r.Ok? ==>
            col in r.value.columns && Column(r.value, col) == s.value
            && forall c :: c in f.columns && c != col ==> c in r.value.columns && Column(r.value, c) == Column(f, c))
  {
    var s := Signal(Column(f, spec.factorName), spec, methodName, quantile, exp);
    if s.Ok? {
      AssignSpec(f, SignalColumn(spec.factorName, methodName), s.value);
    }
  }

  /** The methods of one spec, in order, on the frame built so far. */
  function SpecMethods(f: Frame, spec: FactorSpec, methods: seq<string>,
                       quantile: (Series, real) -> Option<real>, exp: real -> N.Positive): (r: Result<Frame>)
    requires WellFormed(f) && spec.factorName in f.columns
    ensures r.Ok? ==> WellFormed(r.value) && |r.value.rows| == |f.rows|
    ensures r.Ok? ==> forall c :: c in f.columns ==> c in r.value.columns
    decreases |methods|
  {
    if methods == [] then Ok(f)
    else
      var g := Step(f, spec, methods[0], quantile, exp);
      if g.Err? then Err(g.error) else SpecMethods(g.value, spec, methods[1..], quantile, exp)
  }

  /** The specs in order; a factor column missing when its spec is reached
      raises KeyError. */
  function Specs(f: Frame, specs: seq<FactorSpec>, quantile: (Series, real) -> Option<real>,
                 exp: real -> N.Positive): (r: Result<Frame>)
    requires WellFormed(f)
    ensures r.Ok? ==> WellFormed(r.value) && |r.value.rows| == |f.rows|
    ensures r.Ok? ==> forall c :: c in f.columns ==> c in r.value.columns
    decreases |specs|
  {
    if specs == [] then Ok(f)
    else if specs[0].factorName !in f.columns then Err(KeyError)
    else
      var g := SpecMethods(f, specs[0], specs[0].methods, quantile, exp);
      if g.Err? then Err(g.error) else Specs(g.value, specs[1..], quantile, exp)
  }

  /** `normalize_cross_section`: a missing id column raises KeyError before
      any spec is looked at. */
  function CrossSection(df: Frame, specs: seq<FactorSpec>, idCol: string,
                        quantile: (Series, real) -> Option<real>, exp: real -> N.Positive): Result<Frame>
    requires WellFormed(df)
  {
    if idCol !in df.columns then Err(KeyError) else Specs(df, specs, quantile, exp)
  }

  /** The inner loop of `normalize_cross_section` over one spec's methods. */
  method ApplyMethods(f: Frame, spec: FactorSpec, quantile: (Series, real) -> Option<real>, exp: real -> N.Positive)
    returns (r: Result<Frame>)
    requires WellFormed(f) && spec.factorName in f.columns
    ensures r == SpecMethods(f, spec, spec.methods, quantile, exp)
  {
    var out := f;
    var j := 0;
    while j < |spec.methods|
      invariant 0 <= j <= |spec.methods|
      invariant WellFormed(out) && spec.factorName in out.columns
      invariant SpecMethods(out, spec, spec.methods[j..], quantile, exp) == SpecMethods(f, spec, spec.methods, quantile, exp)
    {
      assert spec.methods[j..][0] == spec.methods[j] && spec.methods[j..][1..] == spec.methods[j + 1..];
      var g := Step(out, spec, spec.methods[j], quantile, exp);
      if g.Err? {
        return Err(g.error);
      }
      out := g.value;
      j := j + 1;
    }
    return Ok(out);
  }

  /** `normalize_cross_section`: the spec loop on a copy of the frame. */
  method NormalizeCrossSection(df: Frame, specs: seq<FactorSpec>, idCol: string,
                               quantile: (Series, real) -> Option<real>, exp: real -> N.Positive)
    returns (r: Result<Frame>)
    requires WellFormed(df)
    ensures r == CrossSection(df, specs, idCol, quantile, exp)
  {
    if idCol !in df.columns {
      return Err(KeyError);
    }
    var out := df;
    var i := 0;
    while i < |specs|
      invariant 0 <= i <= |specs|
      invariant WellFormed(out)
      invariant Specs(out, specs[i..], quantile, exp) == Specs(df, specs, quantile, exp)
    {
      var spec := specs[i];
      assert specs[i..][0] == spec && specs[i..][1..] == specs[i + 1..];
      if spec.factorName !in out.columns {
        return Err(KeyError);
      }
      var g := ApplyMethods(out, spec, quantile, exp);
      if g.Err? {
        return Err(g.error);
      }
      out := g.value;
      i := i + 1;
    }
    return Ok(out);
  }

  /** The failures: a missing id column or a missing first factor column is a
      KeyError; every failure is a KeyError (missing column) or a ValueError
      (unknown method or a rejected magnitude parameter). */
  lemma {:induction false} CrossSectionErrors(df: Frame, specs: seq<FactorSpec>, idCol: string,
                                             quantile: (Series, real) -> Option<real>, exp: real -> N.Positive)
    requires WellFormed(df)
    ensures idCol !in df.columns ==> CrossSection(df, specs, idCol, quantile, exp) == Err(KeyError)
    ensures idCol in df.columns && specs != [] && specs[0].factorName !in df.columns ==>
      CrossSection(df, specs, idCol, quantile, exp) == Err(KeyError)
    ensures CrossSection(df, specs, idCol, quantile, exp).Err? ==>
      CrossSection(df, specs, idCol, quantile, exp).error in {KeyError, ValueError}
  {
    if idCol in df.columns {
      SpecsErrors(df, specs, quantile, exp);
    }
  }

  lemma {:induction false} SpecMethodsErrors(f: Frame, spec: FactorSpec, methods: seq<string>,
                                            quantile: (Series, real) -> Option<real>, exp: real -> N.Positive)
    requires WellFormed(f) && spec.factorName in f.columns
    ensures SpecMethods(f, spec, methods, quantile, exp).Err? ==>
      SpecMethods(f, spec, methods, quantile, exp).error == ValueError
    decreases |methods|
  {
    if methods != [] {
      StepSpec(f, spec, methods[0], quantile, exp);
      SignalErrors(Column(f, spec.factorName), spec, methods[0], quantile, exp);
      var g := Step(f, spec, methods[0], quantile, exp);
      if g.Ok? {
        SpecMethodsErrors(g.value, spec, methods[1..], quantile, exp);
      }
    }
  }

  lemma {:induction false} SpecsErrors(f: Frame, specs: seq<FactorSpec>, quantile: (Series, real) -> Option<real>,
                                      exp: real -> N.Positive)
    requires WellFormed(f)
    ensures Specs(f, specs, quantile, exp).Err? ==> Specs(f, specs, quantile, exp).error in {KeyError, ValueError}
    decreases |specs|
  {
    if specs != [] && specs[0].factorName in f.columns {
      var g := SpecMethods(f, specs[0], specs[0].methods, quantile, exp);
      SpecMethodsErrors(f, specs[0], specs[0].methods, quantile, exp);
      if g.Ok? {
        SpecsErrors(g.value, specs[1..], quantile, exp);
      }
    }
  }

  /** Every original column is kept, and every spec's signal columns are
      present in the result. */
  lemma {:induction false} CrossSectionColumns(df: Frame, specs: seq<FactorSpec>, idCol: string,
                                              quantile: (Series, real) -> Option<real>, exp: real -> N.Positive)
    requires WellFormed(df) && CrossSection(df, specs, idCol, quantile, exp).Ok?
    ensures var out := CrossSection(df, specs, idCol, quantile, exp).value;
      |out.rows| == |df.rows|
      && (forall c :: c in df.columns ==> c in out.columns)
      && forall k, m :: 0 <= k < |specs| && m in specs[k].methods ==> SignalColumn(specs[k].factorName, m) in out.columns
  {
    SpecsColumns(df, specs, quantile, exp);
  }

  lemma {:induction false} SpecMethodsColumns(f: Frame, spec: FactorSpec, methods: seq<string>,
                                             quantile: (Series, real) -> Option<real>, exp: real -> N.Positive)
    requires WellFormed(f) && spec.factorName in f.columns
    requires SpecMethods(f, spec, methods, quantile, exp).Ok?
    ensures forall m :: m in methods ==>
      SignalColumn(spec.factorName, m) in SpecMethods(f, spec, methods, quantile, exp).value.columns
    decreases |methods|
  {
    if methods != [] {
      StepSpec(f, spec, methods[0], quantile, exp);
      var g := Step(f, spec, methods[0], quantile, exp).value;
      SpecMethodsColumns(g, spec, methods[1..], quantile, exp);
      assert forall m :: m in methods ==> m == methods[0] || m in methods[1..];
    }
  }

  lemma {:induction false} SpecsColumns(f: Frame, specs: seq<FactorSpec>, quantile: (Series, real) -> Option<real>,
                                       exp: real -> N.Positive)
    requires WellFormed(f) && Specs(f, specs, quantile, exp).Ok?
    ensures forall k, m :: 0 <= k < |specs| && m in specs[k].methods ==>
      SignalColumn(specs[k].factorName, m) in Specs(f, specs, quantile, exp).value.columns
    decreases |specs|
  {
    if specs != [] {
      var g := SpecMethods(f, specs[0], specs[0].methods, quantile, exp).value;
      SpecMethodsColumns(f, specs[0], specs[0].methods, quantile, exp);
      SpecsColumns(g, specs[1..], quantile, exp);
      forall k, m | 0 <= k < |specs| && m in specs[k].methods
        ensures SignalColumn(specs[k].factorName, m) in Specs(f, specs, quantile, exp).value.columns
      {
        if k > 0 {
          assert specs[k] == specs[1..][k - 1];
        }
      }
    }
  }

  /** A column that none of the methods writes keeps its values. */
  lemma {:induction false} SpecMethodsPreserves(f: Frame, spec: FactorSpec, methods: seq<string>,
                                               quantile: (Series, real) -> Option<real>, exp: real -> N.Positive,
                                               c: string)
    requires WellFormed(f) && spec.factorName in f.columns && c in f.columns
    requires SpecMethods(f, spec, methods, quantile, exp).Ok?
    requires forall m :: m in methods ==> SignalColumn(spec.factorName, m) != c
    ensures c in SpecMethods(f, spec, methods, quantile, exp).value.columns
    ensures Column(SpecMethods(f, spec, methods, quantile, exp).value, c) == Column(f, c)
    decreases |methods|
  {
    if methods != [] {
      StepSpec(f, spec, methods[0], quantile, exp);
      var g := Step(f, spec, methods[0], quantile, exp).value;
      SpecMethodsPreserves(g, spec, methods[1..], quantile, exp, c);
    }
  }

  /** After a spec's methods, `{name}_{method}` holds the method's signal of the
      factor column, which itself is unchanged. */
  lemma {:induction false} SpecMethodsValue(f: Frame, spec: FactorSpec, methods: seq<string>,
                                           quantile: (Series, real) -> Option<real>, exp: real -> N.Positive,
                                           m: string)
    requires WellFormed(f) && spec.factorName in f.columns && m in methods
    requires SpecMethods(f, spec, methods, quantile, exp).Ok?
    ensures Signal(Column(f, spec.factorName), spec, m, quantile, exp).Ok?
    ensures SignalColumn(spec.factorName, m) in SpecMethods(f, spec, methods, quantile, exp).value.columns
    ensures Column(SpecMethods(f, spec, methods, quantile, exp).value, SignalColumn(spec.factorName, m))
         == Signal(Column(f, spec.factorName), spec, m, quantile, exp).value
    decreases |methods|
  {
    var name := spec.factorName;
    StepSpec(f, spec, methods[0], quantile, exp);
    var g := Step(f, spec, methods[0], quantile, exp).value;
    SignalColumnIsNew(name, methods[0]);
    assert Column(g, name) == Column(f, name);
    if m in methods[1..] {
      SpecMethodsValue(g, spec, methods[1..], quantile, exp, m);
    } else {
      assert m == methods[0];
      forall m' | m' in methods[1..] ensures SignalColumn(name, m') != SignalColumn(name, m) {
        if SignalColumn(name, m') == SignalColumn(name, m) {
          SignalColumnInjective(name, m', m);
        }
      }
      SpecMethodsPreserves(g, spec, methods[1..], quantile, exp, SignalColumn(name, m));
    }
  }

  /** With a single spec, every method's column holds its signal of the
      factor column. */
  lemma {:induction false} CrossSectionSingleSpec(df: Frame, spec: FactorSpec, idCol: string,
                                                 quantile: (Series, real) -> Option<real>, exp: real -> N.Positive,
                                                 m: string)
    requires WellFormed(df) && m in spec.methods
    requires CrossSection(df, [spec], idCol, quantile, exp).Ok?
    ensures spec.factorName in df.columns
    ensures Signal(Column(df, spec.factorName), spec, m, quantile, exp).Ok?
    ensures SignalColumn(spec.factorName, m) in CrossSection(df, [spec], idCol, quantile, exp).value.columns
    ensures Column(CrossSection(df, [spec], idCol, quantile, exp).value, SignalColumn(spec.factorName, m))
         == Signal(Column(df, spec.factorName), spec, m, quantile, exp).value
  {
    assert idCol in df.columns;
    assert Specs(df, [spec], quantile, exp).Ok?;
    assert spec.factorName in df.columns;
    var g := SpecMethods(df, spec, spec.methods, quantile, exp);
    assert [spec][1..] == [];
    assert g.Ok?;
    assert Specs(df, [spec], quantile, exp) == Specs(g.value, [], quantile, exp);
    SpecMethodsValue(df, spec, spec.methods, quantile, exp, m);
  }

  /** A descending spec reverses the rank order: of two present values, the
      smaller gets the higher `{name}_rank`; an ascending spec keeps it. */
  lemma {:induction false} CrossSectionDirection(df: Frame, spec: FactorSpec, idCol: string,
                                                quantile: (Series, real) -> Option<real>, exp: real -> N.Positive,
                                                i: nat, j: nat)
    requires WellFormed(df) && "rank" in spec.methods
    requires CrossSection(df, [spec], idCol, quantile, exp).Ok?
    requires i < |df.rows| && j < |df.rows| && spec.factorName in df.rows[i] && spec.factorName in df.rows[j]
    requires df.rows[i][spec.factorName].Some? && df.rows[j][spec.factorName].Some?
    requires df.rows[i][spec.factorName].value < df.rows[j][spec.factorName].value
    ensures var out := CrossSection(df, [spec], idCol, quantile, exp).value;
      var col := SignalColumn(spec.factorName, "rank");
      col in out.columns && i < |out.rows| && j < |out.rows|
      && out.rows[i][col].Some? && out.rows[j][col].Some?
      && (spec.ascending ==> out.rows[i][col].value < out.rows[j][col].value)
      && (!spec.ascending ==> out.rows[i][col].value > out.rows[j][col].value)
  {
    CrossSectionSingleSpec(df, spec, idCol, quantile, exp, "rank");
    var out := CrossSection(df, [spec], idCol, quantile, exp).value;
    var x := Column(df, spec.factorName);
    var col := SignalColumn(spec.factorName, "rank");
    var rk := Column(out, col);
    N.RankStrictlyMonotone(x, i, j, spec.ascending);
    N.RankNormalizeSpec(x, spec.ascending, "minus1_1");
    assert rk[i] == out.rows[i][col] && rk[j] == out.rows[j][col];
  }

  // ------------------------------------------------------------------
  // `pivot_factors_long_to_wide`
  // ------------------------------------------------------------------

  /** One row of the long factor table. */
  datatype LongRow = LongRow(id: int, factor: string, value: Option<real>)

  /** The long table and the column names it has. */
  datatype LongFrame = LongFrame(columns: seq<string>, rows: seq<LongRow>)

  predicate IncreasingInts(s: seq<int>) {
    forall i, j :: 0 <= i < j < |s| ==> s[i] < s[j]
  }

  function InsertInt(x: int, s: seq<int>): (r: seq<int>)
    requires IncreasingInts(s)
    ensures IncreasingInts(r)
    ensures forall y :: y in r <==> y == x || y in s
  {
    if s == [] then [x]
    else if x < s[0] then [x] + s
    else if x == s[0] then s
    else
      assert forall y :: y in s <==> y == s[0] || y in s[1..] by {
        assert s == [s[0]] + s[1..];
      }
      var t := InsertInt(x, s[1..]);
      assert forall k :: 0 <= k < |t| ==> s[0] < t[k] by {
        forall k | 0 <= k < |t| ensures s[0] < t[k] {
          if t[k] != x {
            assert t[k] in s[1..];
            var j :| 0 <= j < |s[1..]| && s[1..][j] == t[k];
            assert s[j + 1] == t[k];
          }
        }
      }
      [s[0]] + t
  }

  /** The distinct values in increasing order (the pivot's sorted index). */
  function SortedInts(s: seq<int>): (r: seq<int>)
    ensures IncreasingInts(r)
    ensures forall y :: y in r <==> y in s
  {
    if s == [] then []
    else
      assert forall y :: y in s <==> y == s[0] || y in s[1..] by {
        assert s == [s[0]] + s[1..];
      }
      InsertInt(s[0], SortedInts(s[1..]))
  }

  predicate IncreasingNames(s: seq<string>) {
    forall i, j :: 0 <= i < j < |s| ==> Less(s[i], s[j])
  }

  lemma {:induction false} IncreasingNamesDistinct(s: seq<string>)
    requires IncreasingNames(s)
    ensures Distinct(s)
  {
    forall i, j | 0 <= i < j < |s| ensures s[i] != s[j] {
      LessIrreflexive(s[i]);
    }
  }

  function InsertName(x: string, s: seq<string>): (r: seq<string>)
    requires IncreasingNames(s)
    ensures IncreasingNames(r)
    ensures forall y :: y in r <==> y == x || y in s
  {
    if s == [] then [x]
    else if Less(x, s[0]) then
      assert forall j :: 0 <= j < |s| ==> Less(x, s[j]) by {
        forall j | 0 <= j < |s| ensures Less(x, s[j]) {
          if j > 0 {
            LessTransitive(x, s[0], s[j]);
          }
        }
      }
      [x] + s
    else if x == s[0] then s
    else
      LessTrichotomy(x, s[0]);
      assert forall y :: y in s <==> y == s[0] || y in s[1..] by {
        assert s == [s[0]] + s[1..];
      }
      var t := InsertName(x, s[1..]);
      assert forall k :: 0 <= k < |t| ==> Less(s[0], t[k]) by {
        forall k | 0 <= k < |t| ensures Less(s[0], t[k]) {
          if t[k] != x {
            assert t[k] in s[1..];
            var j :| 0 <= j < |s[1..]| && s[1..][j] == t[k];
            assert s[j + 1] == t[k];
          }
        }
      }
      [s[0]] + t
  }

  /** The distinct names in increasing string order (the pivot's sorted
      columns). */
  function SortedNames(s: seq<string>): (r: seq<string>)
    ensures IncreasingNames(r)
    ensures forall y :: y in r <==> y in s
  {
    if s == [] then []
    else
      assert forall y :: y in s <==> y == s[0] || y in s[1..] by {
        assert s == [s[0]] + s[1..];
      }
      InsertName(s[0], SortedNames(s[1..]))
  }

  function Ids(rows: seq<LongRow>): (r: seq<int>)
    ensures |r| == |rows| && forall i :: 0 <= i < |rows| ==> r[i] == rows[i].id
  {
    seq(|rows|, i requires 0 <= i < |rows| => rows[i].id)
  }

  function Factors(rows: seq<LongRow>): (r: seq<string>)
    ensures |r| == |rows| && forall i :: 0 <= i < |rows| ==> r[i] == rows[i].factor
  {
    seq(|rows|, i requires 0 <= i < |rows| => rows[i].factor)
  }

  /** Two long rows for the same (instrument, factor) cell. */
  predicate HasDuplicateCell(rows: seq<LongRow>) {
    exists i, j :: 0 <= i < j < |rows| && rows[i].id == rows[j].id && rows[i].factor == rows[j].factor
  }

  /** The value of the cell (id, factor): NaN when no row gives one. */
  function Cell(rows: seq<LongRow>, id: int, factor: string): Option<real> {
    if rows == [] then None
    else if rows[0].id == id && rows[0].factor == factor then rows[0].value
    else Cell(rows[1..], id, factor)
  }

  /** A row of the wide table. */
  function WideRow(rows: seq<LongRow>, id: int, names: seq<string>, idCol: string): Row {
    map c | c in {idCol} + (set f | f in names) :: if c == idCol then Some(id as real) else Cell(rows, id, c)
  }

  /** `pivot_factors_long_to_wide`: KeyError for a missing column (checked in
      the order id, factor, value); pandas raises ValueError for a repeated
      (instrument, factor) cell and when a factor is named like the id column;
      otherwise one row per distinct instrument in increasing id order and one
      column per distinct factor name in increasing name order, after the id
      column. */
  function Pivot(df: LongFrame, idCol: string, factorCol: string, valueCol: string): Result<Frame> {
    if idCol !in df.columns || factorCol !in df.columns || valueCol !in df.columns then Err(KeyError)
    else if HasDuplicateCell(df.rows) then Err(ValueError)
    else
      var names := SortedNames(Factors(df.rows));
      if idCol in names then Err(ValueError)
      else
        var ids := SortedInts(Ids(df.rows));
        Ok(Frame([idCol] + names, seq(|ids|, k requires 0 <= k < |ids| => WideRow(df.rows, ids[k], names, idCol))))
  }

  lemma {:induction false} CellFound(rows: seq<LongRow>, i: nat)
    requires i < |rows| && !HasDuplicateCell(rows)
    ensures Cell(rows, rows[i].id, rows[i].factor) == rows[i].value
  {
    if i > 0 {
      assert !(rows[0].id == rows[i].id && rows[0].factor == rows[i].factor);
      assert forall a :: 0 <= a < |rows| - 1 ==> rows[1..][a] == rows[a + 1];
      assert !HasDuplicateCell(rows[1..]);
      CellFound(rows[1..], i - 1);
    }
  }

  lemma {:induction false} CellMissing(rows: seq<LongRow>, id: int, factor: string)
    requires forall i :: 0 <= i < |rows| ==> !(rows[i].id == id && rows[i].factor == factor)
    ensures Cell(rows, id, factor) == None
  {
    if rows != [] {
      assert forall a :: 0 <= a < |rows| - 1 ==> rows[1..][a] == rows[a + 1];
      CellMissing(rows[1..], id, factor);
    }
  }

  /** The pivot's row index and its columns. */
  function PivotIds(df: LongFrame): seq<int> {
    SortedInts(Ids(df.rows))
  }

  function PivotNames(df: LongFrame): seq<string> {
    SortedNames(Factors(df.rows))
  }

  /** A missing column is exactly the KeyError case; the other failures are
      ValueErrors: a repeated cell, or a factor named like the id column. */
  lemma {:induction false} PivotErrors(df: LongFrame, idCol: string, factorCol: string, valueCol: string)
    ensures var r := Pivot(df, idCol, factorCol, valueCol);
      (r == Err(KeyError) <==> idCol !in df.columns || factorCol !in df.columns || valueCol !in df.columns)
      && (r == Err(ValueError) <==>
            idCol in df.columns && factorCol in df.columns && valueCol in df.columns
            && (HasDuplicateCell(df.rows) || idCol in Factors(df.rows)))
      && (r.Err? ==> r.error in {KeyError, ValueError})
  {
  }

  /** The id column first, then the distinct factor names in increasing
      order; the result is a well-formed frame. */
  lemma {:induction false} PivotColumns(df: LongFrame, idCol: string, factorCol: string, valueCol: string)
    requires Pivot(df, idCol, factorCol, valueCol).Ok?
    ensures var w := Pivot(df, idCol, factorCol, valueCol).value;
      WellFormed(w)
      && w.columns == [idCol] + PivotNames(df)
      && IncreasingNames(PivotNames(df))
      && forall f :: f in PivotNames(df) <==> f in Factors(df.rows)
  {
    var names := PivotNames(df);
    var w := Pivot(df, idCol, factorCol, valueCol).value;
    IncreasingNamesDistinct(names);
    forall a, b | 0 <= a < b < |w.columns| ensures w.columns[a] != w.columns[b] {
      if a > 0 {
        assert w.columns[a] == names[a - 1] && w.columns[b] == names[b - 1];
      } else {
        assert w.columns[b] in names;
      }
    }
  }

  /** One row per distinct instrument id, ids increasing, each row's id cell
      holding its id. */
  lemma {:induction false} PivotRows(df: LongFrame, idCol: string, factorCol: string, valueCol: string)
    requires Pivot(df, idCol, factorCol, valueCol).Ok?
    ensures var w := Pivot(df, idCol, factorCol, valueCol).value;
      |w.rows| == |PivotIds(df)|
      && IncreasingInts(PivotIds(df))
      && (forall x :: x in PivotIds(df) <==> x in Ids(df.rows))
      && forall k :: 0 <= k < |w.rows| ==> idCol in w.rows[k] && w.rows[k][idCol] == Some(PivotIds(df)[k] as real)
  {
  }

  /** Each factor cell holds the value of the long row for that instrument and
      factor, NaN when there is none. */
  lemma {:induction false} PivotCells(df: LongFrame, idCol: string, factorCol: string, valueCol: string)
    requires Pivot(df, idCol, factorCol, valueCol).Ok?
    ensures var w := Pivot(df, idCol, factorCol, valueCol).value;
      |w.rows| == |PivotIds(df)|
      && (forall k, f :: 0 <= k < |w.rows| && f in PivotNames(df) ==>
            f in w.rows[k] && w.rows[k][f] == Cell(df.rows, PivotIds(df)[k], f))
      && forall k, i :: 0 <= k < |w.rows| && 0 <= i < |df.rows| && PivotIds(df)[k] == df.rows[i].id ==>
            df.rows[i].factor in w.rows[k] && w.rows[k][df.rows[i].factor] == df.rows[i].value
  {
    var w := Pivot(df, idCol, factorCol, valueCol).value;
    var names := PivotNames(df);
    assert idCol !in names;
    forall k, i | 0 <= k < |w.rows| && 0 <= i < |df.rows| && PivotIds(df)[k] == df.rows[i].id
      ensures df.rows[i].factor in w.rows[k] && w.rows[k][df.rows[i].factor] == df.rows[i].value
    {
      assert Factors(df.rows)[i] == df.rows[i].factor;
      assert df.rows[i].factor in names;
      CellFound(df.rows, i);
    }
  }

  // ------------------------------------------------------------------
  // `fetch_factors_long_for_date`: argument checks and the WHERE clause
  // ------------------------------------------------------------------

  /** A bound query parameter. */
  datatype Param = Text(s: string) | Names(names: seq<string>) | InstrumentIds(ids: seq<int>)

  datatype Query = Query(clauses: seq<string>, params: map<string, Param>)

  const DateClause := "date = %(asof_date)s"
  const NamesClause := "factor_name = ANY(%(factor_names)s)"
  const VersionClause := "factor_version = %(factor_version)s"
  const UniverseClause := "instrument_id = ANY(%(universe_ids)s)"
  const DateKey := "asof_date"
  const NamesKey := "factor_names"
  const VersionKey := "factor_version"
  const UniverseKey := "universe_ids"

  /** The clauses are four different strings, and so are the parameter names. */
  lemma LiteralsDistinct()
    ensures VersionClause !in [DateClause, NamesClause]
    ensures UniverseClause !in [DateClause, NamesClause, VersionClause]
    ensures VersionKey != DateKey && VersionKey != NamesKey && NamesKey != DateKey
    ensures UniverseKey != DateKey && UniverseKey != NamesKey && UniverseKey != VersionKey
  {
    assert VersionClause[7] != NamesClause[7];
    assert NamesKey[0] != UniverseKey[0];
  }

  /** The clauses and named parameters of the factor query; ValueError for an
      empty factor list and for a universe that is given but empty. */
  function FetchQuery(asofDate: string, factorNames: seq<string>, factorVersion: Option<string>,
                      universeIds: Option<seq<int>>): Result<Query> {
    if |factorNames| == 0 then Err(ValueError)
    else
      var base := Query([DateClause, NamesClause], map[DateKey := Text(asofDate), NamesKey := Names(factorNames)]);
      var versioned := if factorVersion.Some? then
          Query(base.clauses + [VersionClause], base.params[VersionKey := Text(factorVersion.value)])
        else base;
      if universeIds.Some? && |universeIds.value| == 0 then Err(ValueError)
      else if universeIds.Some? then
        Ok(Query(versioned.clauses + [UniverseClause], versioned.params[UniverseKey := InstrumentIds(universeIds.value)]))
      else Ok(versioned)
  }

  /** The query fails exactly on an empty factor list or an empty given
      universe; otherwise it filters on the date and the factor list, on the
      version only when one is given and on instruments only when a universe
      is given (no universe: no instrument filter). */
  lemma {:induction false} FetchQuerySpec(asofDate: string, factorNames: seq<string>, factorVersion: Option<string>,
                                          universeIds: Option<seq<int>>)
    ensures var q := FetchQuery(asofDate, factorNames, factorVersion, universeIds);
      (q.Err? <==> |factorNames| == 0 || universeIds == Some([]))
      && (q.Err? ==> q.error == ValueError)
      && (q.Ok? ==>
            q.value.clauses[..2] == [DateClause, NamesClause]
            && q.value.params[DateKey] == Text(asofDate)
            && q.value.params[NamesKey] == Names(factorNames)
            && (VersionClause in q.value.clauses <==> factorVersion.Some?)
            && (VersionKey in q.value.params <==> factorVersion.Some?)
            && (UniverseClause in q.value.clauses <==> universeIds.Some?)
            && (UniverseKey in q.value.params <==> universeIds.Some?)
            && (universeIds.Some? ==> q.value.params[UniverseKey] == InstrumentIds(universeIds.value))
            && |q.value.clauses| == |q.value.params.Keys|)
  {
    LiteralsDistinct();
  }

  // ------------------------------------------------------------------
  // `build_signals_for_date`
  // ------------------------------------------------------------------

  /** The names of the specs' factors, in spec order. */
  function SpecNames(specs: seq<FactorSpec>): (r: seq<string>)
    ensures |r| == |specs| && forall k :: 0 <= k < |specs| ==> r[k] == specs[k].factorName
  {
    seq(|specs|, k requires 0 <= k < |specs| => specs[k].factorName)
  }

  /** Query, pivot, normalise; `fetched` stands for the rows the database
      returns for the query. */
  function BuildSignals(asofDate: string, specs: seq<FactorSpec>, factorVersion: Option<string>,
                        universeIds: Option<seq<int>>, fetched: LongFrame,
                        quantile: (Series, real) -> Option<real>, exp: real -> N.Positive): Result<Frame>
  {
    var q := FetchQuery(asofDate, SpecNames(specs), factorVersion, universeIds);
    if q.Err? then Err(q.error)
    else
      var wide := Pivot(fetched, "instrument_id", "factor_name", "value");
      if wide.Err? then Err(wide.error)
      else
        PivotColumns(fetched, "instrument_id", "factor_name", "value");
        CrossSection(wide.value, specs, "instrument_id", quantile, exp)
  }

  /** No specs, or an empty given universe, is a ValueError before any query;
      a successful result has the id column and every spec's signal columns. */
  lemma {:induction false} BuildSignalsSpec(asofDate: string, specs: seq<FactorSpec>, factorVersion: Option<string>,
                                            universeIds: Option<seq<int>>, fetched: LongFrame,
                                            quantile: (Series, real) -> Option<real>, exp: real -> N.Positive)
    ensures specs == [] || universeIds == Some([]) ==>
      BuildSignals(asofDate, specs, factorVersion, universeIds, fetched, quantile, exp) == Err(ValueError)
    ensures var r := BuildSignals(asofDate, specs, factorVersion, universeIds, fetched, quantile, exp);
      r.Ok? ==>
        "instrument_id" in r.value.columns
        && forall k, m :: 0 <= k < |specs| && m in specs[k].methods ==>
             SignalColumn(specs[k].factorName, m) in r.value.columns
  {
    FetchQuerySpec(asofDate, SpecNames(specs), factorVersion, universeIds);
    var r := BuildSignals(asofDate, specs, factorVersion, universeIds, fetched, quantile, exp);
    if r.Ok? {
      PivotColumns(fetched, "instrument_id", "factor_name", "value");
      var wide := Pivot(fetched, "instrument_id", "factor_name", "value").value;
      CrossSectionColumns(wide, specs, "instrument_id", quantile, exp);
    }
  }
}
