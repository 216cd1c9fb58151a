/** The per-instrument factor kernels of factors/momentum.py,
    factors/jump_risk.py and factors/dollar_volume.py. Each loads a price
    history that starts a buffer before the requested range, computes a value
    per row by row shifts or rolling windows, keeps the rows that are inside
    the range and have a value, and writes them in one batch; it returns the
    number of rows written.

    The price store is the parameter `load` (instrument, first day, last day)
    and returns the rows in date order, as its query orders them; whether the
    batch write commits is the parameter `writeOk`. `log` is the parameter
    `ln`. */
module FactorKernels {
  import opened Common
  import opened Text
  import opened FactorStore

  /** One price row after the column selection and numeric coercion; `None`
      is a missing or unparsable number. */
  datatype Bar = Bar(date: Date, close: Option<real>, volume: Option<real>)

  /** What the load produced: `get_prices` raised, or a table with its column
      names whose date column parsed (`parsed`) or not. */
  datatype Prices = LoadFailed | Table(columns: set<string>, bars: seq<Bar>, parsed: bool)

  type Load = (int, Date, Date) -> Prices

  /** A kernel call: the range it asked the store for (none when it returned
      before loading), the number it returns, and the rows that were committed. */
  datatype KernelResult = KernelResult(requested: Option<(Date, Date)>, count: nat, committed: seq<FactorRow>)

  /** `str(i)` for any integer. */
  function IntText(i: int): string {
    if i < 0 then "-" + Decimal(-i) else Decimal(i)
  }

  predicate Positive(v: Option<real>) {
    v.Some? && v.value > 0.0
  }

  /** A loaded table the kernel goes on with: not empty, with the required
      columns, and parsed. */
  predicate Usable(p: Prices, required: set<string>) {
    p.Table? && p.bars != [] && required <= p.columns && p.parsed
  }

  /** The end of every kernel: nothing to write returns 0; a failed write is
      rolled back and returns 0; otherwise the batch is committed. */
  function Commit(req: (Date, Date), rows: seq<FactorRow>, writeOk: bool): (r: KernelResult)
    ensures r.requested == Some(req) && r.count == |r.committed|
    ensures r.committed == (if writeOk then rows else [])
  {
    if rows == [] || !writeOk then KernelResult(Some(req), 0, []) else KernelResult(Some(req), |rows|, rows)
  }

  // ------------------------------------------------------------------
  // Keeping the rows in range that have a value
  // ------------------------------------------------------------------

  /** Row `t` is written: it has a value and its date is in the range. */
  predicate Keep(bars: seq<Bar>, vals: seq<Option<real>>, startDate: Date, endDate: Date, t: nat)
    requires |vals| == |bars| && t < |bars|
  {
    vals[t].Some? && startDate <= bars[t].date <= endDate
  }

  /** The indices of the kept rows among the first `n`, in order. */
  function Kept(bars: seq<Bar>, vals: seq<Option<real>>, startDate: Date, endDate: Date, n: nat): (ks: seq<nat>)
    requires |vals| == |bars| && n <= |bars|
    ensures forall i :: 0 <= i < |ks| ==> ks[i] < n && Keep(bars, vals, startDate, endDate, ks[i])
    ensures forall i, j :: 0 <= i < j < |ks| ==> ks[i] < ks[j]
    ensures forall t :: 0 <= t < n && Keep(bars, vals, startDate, endDate, t) ==> t in ks
  {
    if n == 0 then []
    else Kept(bars, vals, startDate, endDate, n - 1) + (if Keep(bars, vals, startDate, endDate, n - 1) then [n - 1] else [])
  }

  /** The written record of row `t`. */
  function ValueRow(id: int, bars: seq<Bar>, vals: seq<Option<real>>, t: nat, name: string, version: string, args: Json): FactorRow
    requires |vals| == |bars| && t < |bars| && vals[t].Some?
  {
    FactorRow(id, bars[t].date, name, vals[t].value, version, args, [], "internal")
  }

  /** The batch of a one-factor kernel over the first `n` rows: the record of
      each kept row, in row order, each with the factor name, version and
      arguments, an empty config and the source "internal". */
  function Emit(id: int, bars: seq<Bar>, vals: seq<Option<real>>, startDate: Date, endDate: Date,
                name: string, version: string, args: Json, n: nat): (rows: seq<FactorRow>)
    requires |vals| == |bars| && n <= |bars|
    ensures |rows| == |Kept(bars, vals, startDate, endDate, n)|
    ensures forall i :: 0 <= i < |rows| ==>
      rows[i] == ValueRow(id, bars, vals, Kept(bars, vals, startDate, endDate, n)[i], name, version, args)
    ensures forall i :: 0 <= i < |rows| ==>
      (rows[i].instrumentId == id && rows[i].name == name && rows[i].version == version && rows[i].args == args
      && rows[i].config == [] && rows[i].dataSource == "internal" && startDate <= rows[i].date <= endDate)
  {
    if n == 0 then []
    else
      var init := Emit(id, bars, vals, startDate, endDate, name, version, args, n - 1);
      var ks := Kept(bars, vals, startDate, endDate, n - 1);
      if Keep(bars, vals, startDate, endDate, n - 1) then
        var rows := init + [ValueRow(id, bars, vals, n - 1, name, version, args)];
        assert Kept(bars, vals, startDate, endDate, n) == ks + [n - 1];
        assert forall i :: 0 <= i < |init| ==> rows[i] == init[i];
        rows
      else
        assert Kept(bars, vals, startDate, endDate, n) == ks;
        init
  }

  // ------------------------------------------------------------------
  // Momentum
  // ------------------------------------------------------------------

  /** `mom_{lookback}d_skip{skip}`, or `mom_{lookback}d` without a skip. */
  function MomentumName(lookback: int, skip: int): string {
    if skip > 0 then "mom_" + IntText(lookback) + "d_skip" + IntText(skip) else "mom_" + IntText(lookback) + "d"
  }

  function MomentumArgs(lookback: int, skip: int): Json {
    [("lookback", JInt(lookback)), ("skip", JInt(skip))]
  }

  /** The first day loaded: `(lookback + skip + 10) * 2` calendar days early. */
  function MomentumLoadStart(startDate: Date, lookback: int, skip: int): Date {
    startDate - (lookback + skip + 10) * 2
  }

  /** With a lookback and skip that are not very negative the load starts
      strictly before the requested range. */
  lemma {:induction false} MomentumLoadsHistory(startDate: Date, lookback: int, skip: int)
    requires lookback + skip + 10 > 0
    ensures MomentumLoadStart(startDate, lookback, skip) < startDate
  {
  }

  const MomentumColumns: set<string> := {"instrument_id", "date", "adj_close"}

  /** `price.shift(k)` at row `t`: the price `k` rows earlier, NaN outside. */
  function Shifted(bars: seq<Bar>, t: int, k: int): Option<real> {
    if 0 <= t - k < |bars| then bars[t - k].close else None
  }

  /** The momentum of row `t`, when both anchor prices are positive. */
  function MomentumAt(bars: seq<Bar>, t: int, lookback: int, skip: int): Option<real> {
    var p0 := Shifted(bars, t, skip);
    var p1 := Shifted(bars, t, skip + lookback);
    if Positive(p0) && Positive(p1) then Some(p0.value / p1.value - 1.0) else None
  }

  function MomentumValues(bars: seq<Bar>, lookback: int, skip: int): (vals: seq<Option<real>>)
    ensures |vals| == |bars|
    ensures forall t :: 0 <= t < |bars| ==> vals[t] == MomentumAt(bars, t, lookback, skip)
  {
    seq(|bars|, t requires 0 <= t < |bars| => MomentumAt(bars, t, lookback, skip))
  }

  /** A momentum value exists iff both anchors, `skip` and `skip + lookback`
      rows back, exist and are positive; it is then above -1, and positive or
      zero exactly when the later anchor is above or equal to the earlier. */
  lemma {:induction false} MomentumMeaning(bars: seq<Bar>, t: int, lookback: int, skip: int)
    ensures MomentumAt(bars, t, lookback, skip).Some? <==>
      (0 <= t - skip < |bars| && 0 <= t - skip - lookback < |bars|
      && Positive(bars[t - skip].close) && Positive(bars[t - skip - lookback].close))
    ensures MomentumAt(bars, t, lookback, skip).Some? ==>
      (MomentumAt(bars, t, lookback, skip).value == bars[t - skip].close.value / bars[t - skip - lookback].close.value - 1.0
      && MomentumAt(bars, t, lookback, skip).value > -1.0
      && (MomentumAt(bars, t, lookback, skip).value > 0.0 <==> bars[t - skip].close.value > bars[t - skip - lookback].close.value)
      && (MomentumAt(bars, t, lookback, skip).value == 0.0 <==> bars[t - skip].close.value == bars[t - skip - lookback].close.value))
  {
    if MomentumAt(bars, t, lookback, skip).Some? {
      RatioSign(bars[t - skip].close.value, bars[t - skip - lookback].close.value);
    }
  }

  lemma {:induction false} RatioSign(p0: real, p1: real)
    requires p0 > 0.0 && p1 > 0.0
    ensures p0 / p1 > 0.0
    ensures p0 / p1 > 1.0 <==> p0 > p1
    ensures p0 / p1 == 1.0 <==> p0 == p1
  {
    var q := p0 / p1;
    var d := p0 - p1;
    assert q * p1 == p0;
    assert d == (q - 1.0) * p1;
    if q > 1.0 {
      PositiveProduct(q - 1.0, p1);
    } else if q < 1.0 {
      PositiveProduct(1.0 - q, p1);
      assert d == -((1.0 - q) * p1);
    }
  }

  /** The batch of a momentum call on the loaded rows `bars`: one record
      per row in range that has a momentum, for the instrument and the factor
      `MomentumName`. */
  function MomentumRows(id: int, bars: seq<Bar>, startDate: Date, endDate: Date, lookback: int, skip: int,
                        version: string): (rows: seq<FactorRow>)
    ensures forall i :: 0 <= i < |rows| ==>
      (rows[i].instrumentId == id && rows[i].name == MomentumName(lookback, skip)
      && rows[i].version == version && rows[i].args == MomentumArgs(lookback, skip)
      && startDate <= rows[i].date <= endDate)
  {
    Emit(id, bars, MomentumValues(bars, lookback, skip), startDate, endDate, MomentumName(lookback, skip), version,
         MomentumArgs(lookback, skip), |bars|)
  }

  /** Record `r` holds row `t`'s day and its value in `vals`. */
  predicate RecordFor(r: FactorRow, bars: seq<Bar>, vals: seq<Option<real>>, t: int) {
    0 <= t < |bars| && t < |vals| && vals[t].Some? && r.date == bars[t].date && r.value == vals[t].value
  }

  /** Record `r` holds the day and value of some row that has a value. */
  predicate FromSomeRow(r: FactorRow, bars: seq<Bar>, vals: seq<Option<real>>) {
    exists t :: 0 <= t < |bars| && RecordFor(r, bars, vals, t)
  }

  /** Some record of `rows` holds row `t`'s day and value. */
  predicate Recorded(rows: seq<FactorRow>, bars: seq<Bar>, vals: seq<Option<real>>, t: int) {
    exists i :: 0 <= i < |rows| && RecordFor(rows[i], bars, vals, t)
  }

  /** Every record of `Emit` holds the value of a row that has one. */
  lemma {:induction false} EmitSound(id: int, bars: seq<Bar>, vals: seq<Option<real>>, startDate: Date, endDate: Date,
                                     name: string, version: string, args: Json)
    requires |vals| == |bars|
    ensures forall i :: 0 <= i < |Emit(id, bars, vals, startDate, endDate, name, version, args, |bars|)| ==>
      FromSomeRow(Emit(id, bars, vals, startDate, endDate, name, version, args, |bars|)[i], bars, vals)
  {
    var rows := Emit(id, bars, vals, startDate, endDate, name, version, args, |bars|);
    var ks := Kept(bars, vals, startDate, endDate, |bars|);
    forall i | 0 <= i < |rows| ensures FromSomeRow(rows[i], bars, vals) {
      assert Keep(bars, vals, startDate, endDate, ks[i]);
      assert RecordFor(rows[i], bars, vals, ks[i]);
    }
  }

  /** Every row in range with a value has its record in `Emit`. */
  lemma {:induction false} EmitComplete(id: int, bars: seq<Bar>, vals: seq<Option<real>>, startDate: Date, endDate: Date,
                                        name: string, version: string, args: Json)
    requires |vals| == |bars|
    ensures var rows := Emit(id, bars, vals, startDate, endDate, name, version, args, |bars|);
      forall t :: 0 <= t < |bars| && Keep(bars, vals, startDate, endDate, t) ==>
        Recorded(rows, bars, vals, t)
  {
    var rows := Emit(id, bars, vals, startDate, endDate, name, version, args, |bars|);
    var ks := Kept(bars, vals, startDate, endDate, |bars|);
    forall t | 0 <= t < |bars| && Keep(bars, vals, startDate, endDate, t)
      ensures Recorded(rows, bars, vals, t)
    {
      var i :| 0 <= i < |ks| && ks[i] == t;
      assert RecordFor(rows[i], bars, vals, t);
    }
  }

  /** The records of `MomentumRows` are exactly the momentum values of the
      rows in range that have one. */
  lemma {:induction false} MomentumRowsMeaning(id: int, bars: seq<Bar>, startDate: Date, endDate: Date, lookback: int, skip: int,
                                               version: string)
    ensures var rows := MomentumRows(id, bars, startDate, endDate, lookback, skip, version);
      (forall i :: 0 <= i < |rows| ==> FromSomeRow(rows[i], bars, MomentumValues(bars, lookback, skip)))
      && (forall t :: 0 <= t < |bars| && MomentumAt(bars, t, lookback, skip).Some? && startDate <= bars[t].date <= endDate ==>
        Recorded(rows, bars, MomentumValues(bars, lookback, skip), t))
  {
    var vals := MomentumValues(bars, lookback, skip);
    var name, args := MomentumName(lookback, skip), MomentumArgs(lookback, skip);
    assert MomentumRows(id, bars, startDate, endDate, lookback, skip, version)
      == Emit(id, bars, vals, startDate, endDate, name, version, args, |bars|);
    EmitSound(id, bars, vals, startDate, endDate, name, version, args);
    EmitComplete(id, bars, vals, startDate, endDate, name, version, args);
    forall t | 0 <= t < |bars| && MomentumAt(bars, t, lookback, skip).Some? && startDate <= bars[t].date <= endDate
      ensures Keep(bars, vals, startDate, endDate, t)
    {
    }
  }

  /** `calc_single_instrument_momentum`: nothing is loaded when the range is
      empty; otherwise the history from `MomentumLoadStart` is loaded, and
      the batch `MomentumRows` is committed only for a usable table and a
      write that succeeds; the call returns the number of records committed. */
  function Momentum(id: int, startDate: Date, endDate: Date, lookback: int, skip: int, version: string,
                    load: Load, writeOk: bool): (r: KernelResult)
    ensures startDate > endDate ==> r == KernelResult(None, 0, [])
    ensures startDate <= endDate ==> r.requested == Some((MomentumLoadStart(startDate, lookback, skip), endDate))
    ensures r.count == |r.committed|
    ensures r.committed ==
      (if startDate <= endDate && writeOk && Usable(load(id, MomentumLoadStart(startDate, lookback, skip), endDate), MomentumColumns)
       then MomentumRows(id, load(id, MomentumLoadStart(startDate, lookback, skip), endDate).bars, startDate, endDate, lookback, skip, version)
       else [])
  {
    if startDate > endDate then KernelResult(None, 0, [])
    else
      var req := (MomentumLoadStart(startDate, lookback, skip), endDate);
      var p := load(id, req.0, req.1);
      if !Usable(p, MomentumColumns) then Commit(req, [], writeOk)
      else Commit(req, MomentumRows(id, p.bars, startDate, endDate, lookback, skip, version), writeOk)
  }

  // ------------------------------------------------------------------
  // Jump risk
  // ------------------------------------------------------------------

  /** `jump_{w}d_max` and `jump_{w}d_cnt`: two distinct factors. */
  function JumpNames(window: nat): (names: (string, string))
    ensures names.0 != names.1
  {
    var p := "jump_" + Decimal(window) + "d_";
    var mx := p + "max";
    var cn := p + "cnt";
    assert mx[|p|] == 'm' && cn[|p|] == 'c';
    (mx, cn)
  }

  function JumpArgs(window: nat, threshold: real, limit: real): Json {
    [("window", JInt(window)), ("jump_threshold", JReal(threshold)), ("jump_ratio_limit", JReal(limit))]
  }

  /** The first day loaded: `(window + 5) * 2` calendar days early. */
  function JumpLoadStart(startDate: Date, window: nat): (d: Date)
    ensures d < startDate
  {
    startDate - (window + 5) * 2
  }

  const JumpColumns: set<string> := {"instrument_id", "date", "adj_close"}

  /** `|p_t / p_{t-1} - 1|` when it is a finite number: NaN on the first row
      or next to a missing price, and infinite or NaN after a zero price. */
  function Gap(bars: seq<Bar>, t: nat): Option<real>
    requires t < |bars|
  {
    if t >= 1 && bars[t].close.Some? && bars[t - 1].close.Some? && bars[t - 1].close.value != 0.0
    then Some(Abs(bars[t].close.value / bars[t - 1].close.value - 1.0))
    else None
  }

  /** Day `t` is a jump: threshold <= gap <= limit (false on NaN). */
  predicate IsJump(bars: seq<Bar>, t: nat, threshold: real, limit: real)
    requires t < |bars|
  {
    Gap(bars, t).Some? && threshold <= Gap(bars, t).value <= limit
  }

  /** `gap.where(is_jump, 0.0)`. */
  function JumpValue(bars: seq<Bar>, t: nat, threshold: real, limit: real): real
    requires t < |bars|
  {
    if IsJump(bars, t, threshold, limit) then Gap(bars, t).value else 0.0
  }

  /** The largest jump value on rows `lo .. hi-1`. */
  function WindowMax(bars: seq<Bar>, lo: nat, hi: nat, threshold: real, limit: real): (m: real)
    requires lo < hi <= |bars|
    ensures forall i :: lo <= i < hi ==> JumpValue(bars, i, threshold, limit) <= m
    ensures exists i :: lo <= i < hi && JumpValue(bars, i, threshold, limit) == m
    decreases hi - lo
  {
    var v := JumpValue(bars, hi - 1, threshold, limit);
    if hi - 1 == lo then v
    else
      var m := WindowMax(bars, lo, hi - 1, threshold, limit);
      if v > m then v else m
  }

  /** The number of jump days on rows `lo .. hi-1`. */
  function WindowCount(bars: seq<Bar>, lo: nat, hi: nat, threshold: real, limit: real): (c: nat)
    requires lo <= hi <= |bars|
    ensures c <= hi - lo
    decreases hi - lo
  {
    if lo == hi then 0
    else WindowCount(bars, lo, hi - 1, threshold, limit) + (if IsJump(bars, hi - 1, threshold, limit) then 1 else 0)
  }

  /** `rolling(window)` has `window` rows ending at row `t`. */
  predicate FullWindow(t: nat, window: nat) {
    window >= 1 && t + 1 >= window
  }

  /** `jump_max` at row `t`; NaN until the window is full. */
  function JumpMax(bars: seq<Bar>, t: nat, window: nat, threshold: real, limit: real): Option<real>
    requires t < |bars|
  {
    if FullWindow(t, window) then Some(WindowMax(bars, t + 1 - window, t + 1, threshold, limit)) else None
  }

  /** `jump_cnt` at row `t`; NaN until the window is full. */
  function JumpCount(bars: seq<Bar>, t: nat, window: nat, threshold: real, limit: real): Option<nat>
    requires t < |bars|
  {
    if FullWindow(t, window) then Some(WindowCount(bars, t + 1 - window, t + 1, threshold, limit)) else None
  }

  /** A window's jump count is positive iff some day in it is a jump. */
  lemma {:induction false} WindowCountPositive(bars: seq<Bar>, lo: nat, hi: nat, threshold: real, limit: real)
    requires lo <= hi <= |bars|
    ensures WindowCount(bars, lo, hi, threshold, limit) > 0 <==> exists i :: lo <= i < hi && IsJump(bars, i, threshold, limit)
    decreases hi - lo
  {
    if lo < hi {
      WindowCountPositive(bars, lo, hi - 1, threshold, limit);
      if exists i :: lo <= i < hi && IsJump(bars, i, threshold, limit) {
        var i :| lo <= i < hi && IsJump(bars, i, threshold, limit);
        if i < hi - 1 {
          assert exists j :: lo <= j < hi - 1 && IsJump(bars, j, threshold, limit);
        }
      }
    }
  }

  /** The jump statistics are defined exactly on full windows; there the
      count is at most the window length, the maximum is 0 or a gap within
      [threshold, limit], and with a positive threshold the maximum is
      positive iff the count is. */
  lemma {:induction false} JumpBounds(bars: seq<Bar>, t: nat, window: nat, threshold: real, limit: real)
    requires t < |bars|
    ensures JumpMax(bars, t, window, threshold, limit).Some? <==> FullWindow(t, window)
    ensures JumpCount(bars, t, window, threshold, limit).Some? <==> FullWindow(t, window)
    ensures FullWindow(t, window) ==> JumpCount(bars, t, window, threshold, limit).value <= window
    ensures FullWindow(t, window) ==>
      (JumpMax(bars, t, window, threshold, limit).value == 0.0
      || threshold <= JumpMax(bars, t, window, threshold, limit).value <= limit)
    ensures FullWindow(t, window) && threshold > 0.0 ==>
      (JumpMax(bars, t, window, threshold, limit).value > 0.0 <==> JumpCount(bars, t, window, threshold, limit).value > 0)
  {
    if FullWindow(t, window) {
      var lo := t + 1 - window;
      var m := WindowMax(bars, lo, t + 1, threshold, limit);
      WindowCountPositive(bars, lo, t + 1, threshold, limit);
      var i :| lo <= i < t + 1 && JumpValue(bars, i, threshold, limit) == m;
      if threshold > 0.0 && exists j :: lo <= j < t + 1 && IsJump(bars, j, threshold, limit) {
        var j :| lo <= j < t + 1 && IsJump(bars, j, threshold, limit);
        assert JumpValue(bars, j, threshold, limit) <= m;
      }
    }
  }

  function JumpMaxValues(bars: seq<Bar>, window: nat, threshold: real, limit: real): (vals: seq<Option<real>>)
    ensures |vals| == |bars|
    ensures forall t :: 0 <= t < |bars| ==> vals[t] == JumpMax(bars, t, window, threshold, limit)
  {
    seq(|bars|, t requires 0 <= t < |bars| => JumpMax(bars, t, window, threshold, limit))
  }

  /** The two records of one kept row: the maximum, then the count. */
  function JumpPair(id: int, bars: seq<Bar>, t: nat, window: nat, threshold: real, limit: real, version: string): seq<FactorRow>
    requires t < |bars| && FullWindow(t, window)
  {
    var args := JumpArgs(window, threshold, limit);
    [FactorRow(id, bars[t].date, JumpNames(window).0, JumpMax(bars, t, window, threshold, limit).value, version, args, [], "internal"),
     FactorRow(id, bars[t].date, JumpNames(window).1, JumpCount(bars, t, window, threshold, limit).value as real, version, args, [], "internal")]
  }

  /** The batch of jump records for the kept rows `ks`: two records per row,
      in order, the maximum then the count. */
  function JumpRows(id: int, bars: seq<Bar>, ks: seq<nat>, window: nat, threshold: real, limit: real, version: string): (rows: seq<FactorRow>)
    requires forall i :: 0 <= i < |ks| ==> ks[i] < |bars| && FullWindow(ks[i], window)
    ensures |rows| == 2 * |ks|
    ensures forall i :: 0 <= i < |ks| ==>
      (rows[2 * i] == JumpPair(id, bars, ks[i], window, threshold, limit, version)[0]
      && rows[2 * i + 1] == JumpPair(id, bars, ks[i], window, threshold, limit, version)[1])
  {
    if ks == [] then []
    else
      var init := JumpRows(id, bars, ks[..|ks| - 1], window, threshold, limit, version);
      var pair := JumpPair(id, bars, ks[|ks| - 1], window, threshold, limit, version);
      var rows := init + pair;
      assert forall j :: 0 <= j < |init| ==> rows[j] == init[j];
      assert forall i :: 0 <= i < |ks| - 1 ==> ks[..|ks| - 1][i] == ks[i];
      rows
  }

  /** The loop of `calc_single_instrument_jump_risk` that appends two
      records per kept row. */
  method JumpBatch(id: int, bars: seq<Bar>, ks: seq<nat>, window: nat, threshold: real, limit: real, version: string)
    returns (batch: seq<FactorRow>)
    requires forall i :: 0 <= i < |ks| ==> ks[i] < |bars| && FullWindow(ks[i], window)
    ensures batch == JumpRows(id, bars, ks, window, threshold, limit, version)
  {
    batch := [];
    var i := 0;
    while i < |ks|
      invariant 0 <= i <= |ks|
      invariant batch == JumpRows(id, bars, ks[..i], window, threshold, limit, version)
    {
      JumpRowsStep(id, bars, ks, i, window, threshold, limit, version);
      batch := batch + JumpPair(id, bars, ks[i], window, threshold, limit, version);
      i := i + 1;
    }
    assert ks[..i] == ks;
  }

  /** One more kept row appends its pair. */
  lemma {:induction false} JumpRowsStep(id: int, bars: seq<Bar>, ks: seq<nat>, i: nat, window: nat, threshold: real, limit: real,
                                        version: string)
    requires i < |ks| && forall j :: 0 <= j < |ks| ==> ks[j] < |bars| && FullWindow(ks[j], window)
    ensures JumpRows(id, bars, ks[..i + 1], window, threshold, limit, version)
         == JumpRows(id, bars, ks[..i], window, threshold, limit, version) + JumpPair(id, bars, ks[i], window, threshold, limit, version)
  {
    assert ks[..i + 1][..i] == ks[..i] && ks[..i + 1][i] == ks[i];
  }

  /** The batch of a jump-risk call on the loaded rows `bars`: for each row
      in range with a full window, its maximum and then its count, both for
      the instrument and that row's day. */
  function JumpRiskRows(id: int, bars: seq<Bar>, startDate: Date, endDate: Date, window: nat, threshold: real, limit: real,
                        version: string): (rows: seq<FactorRow>)
  {
    var vals := JumpMaxValues(bars, window, threshold, limit);
    var ks := Kept(bars, vals, startDate, endDate, |bars|);
    assert forall i :: 0 <= i < |ks| ==> Keep(bars, vals, startDate, endDate, ks[i]);
    JumpRows(id, bars, ks, window, threshold, limit, version)
  }

  /** Pair `i` of the batch is the maximum then the count, of the instrument
      and version, for one day of the range. */
  predicate PairShape(rows: seq<FactorRow>, i: int, id: int, startDate: Date, endDate: Date, window: nat, version: string)
    requires 0 <= 2 * i + 1 < |rows|
  {
    rows[2 * i].name == JumpNames(window).0 && rows[2 * i + 1].name == JumpNames(window).1
    && rows[2 * i].instrumentId == id && rows[2 * i + 1].instrumentId == id
    && rows[2 * i].version == version && rows[2 * i + 1].version == version
    && rows[2 * i].date == rows[2 * i + 1].date && startDate <= rows[2 * i].date <= endDate
  }

  /** The batch holds whole pairs only. */
  lemma {:induction false} JumpRiskRowsEven(id: int, bars: seq<Bar>, startDate: Date, endDate: Date, window: nat,
                                            threshold: real, limit: real, version: string)
    ensures |JumpRiskRows(id, bars, startDate, endDate, window, threshold, limit, version)| % 2 == 0
  {
    var vals := JumpMaxValues(bars, window, threshold, limit);
    var ks := Kept(bars, vals, startDate, endDate, |bars|);
    assert forall i :: 0 <= i < |ks| ==> Keep(bars, vals, startDate, endDate, ks[i]);
    var rows := JumpRows(id, bars, ks, window, threshold, limit, version);
    assert rows == JumpRiskRows(id, bars, startDate, endDate, window, threshold, limit, version);
    DoubleIsEven(|ks|);
  }

  /** Kept outside the lemma above, whose large context makes `%` costly. */
  lemma {:induction false} DoubleIsEven(k: nat)
    ensures (2 * k) % 2 == 0
  {
  }

  lemma {:induction false} JumpRiskRowsShape(id: int, bars: seq<Bar>, startDate: Date, endDate: Date, window: nat,
                                             threshold: real, limit: real, version: string)
    ensures var rows := JumpRiskRows(id, bars, startDate, endDate, window, threshold, limit, version);
      forall i :: 0 <= 2 * i + 1 < |rows| ==> PairShape(rows, i, id, startDate, endDate, window, version)
  {
    var vals := JumpMaxValues(bars, window, threshold, limit);
    var ks := Kept(bars, vals, startDate, endDate, |bars|);
    assert forall i :: 0 <= i < |ks| ==> Keep(bars, vals, startDate, endDate, ks[i]);
    var rows := JumpRows(id, bars, ks, window, threshold, limit, version);
    assert JumpRiskRows(id, bars, startDate, endDate, window, threshold, limit, version) == rows;
    forall i | 0 <= 2 * i + 1 < |rows|
      ensures PairShape(rows, i, id, startDate, endDate, window, version)
    {
      assert i < |ks|;
      assert Keep(bars, vals, startDate, endDate, ks[i]);
    }
  }

  /** Records `2i` and `2i+1` of `rows` are the jump maximum and count of
      row `t`, which has a full window. */
  predicate PairFor(rows: seq<FactorRow>, i: int, bars: seq<Bar>, t: int, window: nat, threshold: real, limit: real) {
    0 <= 2 * i + 1 < |rows| && 0 <= t < |bars| && FullWindow(t, window) && rows[2 * i].date == bars[t].date
    && rows[2 * i].value == JumpMax(bars, t, window, threshold, limit).value
    && rows[2 * i + 1].value == JumpCount(bars, t, window, threshold, limit).value as real
  }

  /** Every pair of `JumpRiskRows` holds the jump statistics of a row with a
      full window. */
  lemma {:induction false} JumpRiskRowsSound(id: int, bars: seq<Bar>, startDate: Date, endDate: Date, window: nat,
                                             threshold: real, limit: real, version: string)
    ensures var rows := JumpRiskRows(id, bars, startDate, endDate, window, threshold, limit, version);
      forall i :: 0 <= 2 * i + 1 < |rows| ==> exists t :: PairFor(rows, i, bars, t, window, threshold, limit)
  {
    var rows := JumpRiskRows(id, bars, startDate, endDate, window, threshold, limit, version);
    forall i | 0 <= 2 * i + 1 < |rows|
      ensures exists t :: PairFor(rows, i, bars, t, window, threshold, limit)
    {
      JumpRiskRowsPairAt(id, bars, startDate, endDate, window, threshold, limit, version, i);
    }
  }

  /** `JumpRiskRowsSound` for one pair. */
  lemma {:induction false} JumpRiskRowsPairAt(id: int, bars: seq<Bar>, startDate: Date, endDate: Date, window: nat,
                                              threshold: real, limit: real, version: string, i: int)
    requires 0 <= 2 * i + 1 < |JumpRiskRows(id, bars, startDate, endDate, window, threshold, limit, version)|
    ensures exists t :: PairFor(JumpRiskRows(id, bars, startDate, endDate, window, threshold, limit, version), i, bars, t,
                                window, threshold, limit)
  {
    var vals := JumpMaxValues(bars, window, threshold, limit);
    var ks := Kept(bars, vals, startDate, endDate, |bars|);
    assert forall j :: 0 <= j < |ks| ==> Keep(bars, vals, startDate, endDate, ks[j]);
    assert JumpRiskRows(id, bars, startDate, endDate, window, threshold, limit, version)
        == JumpRows(id, bars, ks, window, threshold, limit, version);
    JumpRowsPair(id, bars, ks, i, window, threshold, limit, version);
  }

  /** Pair `i` of the batch is the one of the `i`-th kept row. */
  lemma {:induction false} JumpRowsPair(id: int, bars: seq<Bar>, ks: seq<nat>, i: int, window: nat, threshold: real, limit: real,
                                        version: string)
    requires forall j :: 0 <= j < |ks| ==> ks[j] < |bars| && FullWindow(ks[j], window)
    requires 0 <= i < |ks|
    ensures PairFor(JumpRows(id, bars, ks, window, threshold, limit, version), i, bars, ks[i], window, threshold, limit)
  {
  }

  /** Every row in range with a full window has its pair in `JumpRiskRows`. */
  lemma {:induction false} JumpRiskRowsComplete(id: int, bars: seq<Bar>, startDate: Date, endDate: Date, window: nat,
                                                threshold: real, limit: real, version: string)
    ensures var rows := JumpRiskRows(id, bars, startDate, endDate, window, threshold, limit, version);
      forall t :: 0 <= t < |bars| && FullWindow(t, window) && startDate <= bars[t].date <= endDate ==>
        exists i :: PairFor(rows, i, bars, t, window, threshold, limit)
  {
    var rows := JumpRiskRows(id, bars, startDate, endDate, window, threshold, limit, version);
    forall t | 0 <= t < |bars| && FullWindow(t, window) && startDate <= bars[t].date <= endDate
      ensures exists i :: PairFor(rows, i, bars, t, window, threshold, limit)
    {
      JumpRiskRowsHas(id, bars, startDate, endDate, window, threshold, limit, version, t);
    }
  }

  /** `JumpRiskRowsComplete` for one row. */
  lemma {:induction false} JumpRiskRowsHas(id: int, bars: seq<Bar>, startDate: Date, endDate: Date, window: nat,
                                           threshold: real, limit: real, version: string, t: nat)
    requires t < |bars| && FullWindow(t, window) && startDate <= bars[t].date <= endDate
    ensures exists i :: PairFor(JumpRiskRows(id, bars, startDate, endDate, window, threshold, limit, version), i, bars, t,
                                window, threshold, limit)
  {
    var vals := JumpMaxValues(bars, window, threshold, limit);
    var ks := Kept(bars, vals, startDate, endDate, |bars|);
    assert JumpRiskRows(id, bars, startDate, endDate, window, threshold, limit, version)
        == JumpRows(id, bars, ks, window, threshold, limit, version);
    assert Keep(bars, vals, startDate, endDate, t);
    var i :| 0 <= i < |ks| && ks[i] == t;
    JumpRowsPair(id, bars, ks, i, window, threshold, limit, version);
  }

  /** `calc_single_instrument_jump_risk`: nothing is loaded when the range is
      empty; otherwise the history from `JumpLoadStart` is loaded, and the
      batch `JumpRiskRows` is committed only for a usable table and a write
      that succeeds; the call returns the number of records committed. */
  function JumpRisk(id: int, startDate: Date, endDate: Date, window: nat, threshold: real, limit: real, version: string,
                    load: Load, writeOk: bool): (r: KernelResult)
    ensures startDate > endDate ==> r == KernelResult(None, 0, [])
    ensures startDate <= endDate ==> r.requested == Some((JumpLoadStart(startDate, window), endDate))
    ensures r.count == |r.committed|
    ensures r.committed ==
      (if startDate <= endDate && writeOk && Usable(load(id, JumpLoadStart(startDate, window), endDate), JumpColumns)
       then JumpRiskRows(id, load(id, JumpLoadStart(startDate, window), endDate).bars, startDate, endDate, window, threshold, limit, version)
       else [])
  {
    if startDate > endDate then KernelResult(None, 0, [])
    else
      var req := (JumpLoadStart(startDate, window), endDate);
      var p := load(id, req.0, req.1);
      if !Usable(p, JumpColumns) then Commit(req, [], writeOk)
      else Commit(req, JumpRiskRows(id, p.bars, startDate, endDate, window, threshold, limit, version), writeOk)
  }

  // ------------------------------------------------------------------
  // Dollar volume
  // ------------------------------------------------------------------

  /** `dv_{w}d_log`. */
  function DollarVolumeName(window: nat): string {
    "dv_" + Decimal(window) + "d_log"
  }

  function DollarVolumeArgs(window: nat): Json {
    [("window", JInt(window)), ("transform", JStr("log")), ("field", JStr("adj_close*adj_volume"))]
  }

  /** The first day loaded: `(window + 10) * 2` calendar days early. */
  function DollarVolumeLoadStart(startDate: Date, window: nat): (d: Date)
    ensures d < startDate
  {
    startDate - (window + 10) * 2
  }

  const DollarVolumeColumns: set<string> := {"instrument_id", "date", "adj_close", "adj_volume"}

  /** `price * volume` where price > 0, volume >= 0 and the product > 0;
      NaN elsewhere. */
  function Masked(bars: seq<Bar>, t: nat): Option<real>
    requires t < |bars|
  {
    var p := bars[t].close;
    var v := bars[t].volume;
    if p.Some? && v.Some? && p.value > 0.0 && v.value >= 0.0 && p.value * v.value > 0.0
    then Some(p.value * v.value) else None
  }

  predicate AllValid(bars: seq<Bar>, lo: nat, hi: nat)
    requires lo <= hi <= |bars|
  {
    forall i :: lo <= i < hi ==> Masked(bars, i).Some?
  }

  /** The sum of the dollar volumes of rows `lo .. hi-1`, all valid. */
  function MaskedSum(bars: seq<Bar>, lo: nat, hi: nat): (s: real)
    requires lo <= hi <= |bars| && AllValid(bars, lo, hi)
    ensures lo < hi ==> s > 0.0
    decreases hi - lo
  {
    if lo == hi then 0.0 else MaskedSum(bars, lo, hi - 1) + Masked(bars, hi - 1).value
  }

  /** `rolling(window).mean()` of the masked series: defined only when all
      `window` rows ending at `t` are valid. */
  function DollarVolumeMean(bars: seq<Bar>, t: nat, window: nat): Option<real>
    requires t < |bars|
  {
    if FullWindow(t, window) && AllValid(bars, t + 1 - window, t + 1)
    then Some(MaskedSum(bars, t + 1 - window, t + 1) / window as real)
    else None
  }

  /** The factor value: `log(mean)` when the mean is defined and positive. */
  function DollarVolumeAt(bars: seq<Bar>, t: nat, window: nat, ln: real -> real): Option<real>
    requires t < |bars|
  {
    var m := DollarVolumeMean(bars, t, window);
    if m.Some? && m.value > 0.0 then Some(ln(m.value)) else None
  }

  /** A dollar-volume value exists iff the window is full and every row in it
      is valid; the mean is then positive, so the value is the log of the
      mean and the `x > 0` test before the log never drops a defined mean. */
  lemma {:induction false} DollarVolumeMeaning(bars: seq<Bar>, t: nat, window: nat, ln: real -> real)
    requires t < |bars|
    ensures DollarVolumeAt(bars, t, window, ln).Some? <==> FullWindow(t, window) && AllValid(bars, t + 1 - window, t + 1)
    ensures DollarVolumeMean(bars, t, window).Some? ==>
      (DollarVolumeMean(bars, t, window).value > 0.0
      && DollarVolumeAt(bars, t, window, ln) == Some(ln(DollarVolumeMean(bars, t, window).value)))
  {
    if FullWindow(t, window) && AllValid(bars, t + 1 - window, t + 1) {
      var s := MaskedSum(bars, t + 1 - window, t + 1);
      assert s > 0.0;
      assert s / window as real > 0.0;
    }
  }

  function DollarVolumeValues(bars: seq<Bar>, window: nat, ln: real -> real): (vals: seq<Option<real>>)
    ensures |vals| == |bars|
    ensures forall t :: 0 <= t < |bars| ==> vals[t] == DollarVolumeAt(bars, t, window, ln)
  {
    seq(|bars|, t requires 0 <= t < |bars| => DollarVolumeAt(bars, t, window, ln))
  }

  /** The batch of a dollar-volume call on the loaded rows `bars`: one
      record per row in range with a value, for the instrument and the factor
      `dv_{w}d_log`. */
  function DollarVolumeRows(id: int, bars: seq<Bar>, startDate: Date, endDate: Date, window: nat, version: string,
                            ln: real -> real): (rows: seq<FactorRow>)
    ensures forall i :: 0 <= i < |rows| ==>
      (rows[i].instrumentId == id && rows[i].name == DollarVolumeName(window)
      && rows[i].version == version && rows[i].args == DollarVolumeArgs(window)
      && startDate <= rows[i].date <= endDate)
  {
    Emit(id, bars, DollarVolumeValues(bars, window, ln), startDate, endDate, DollarVolumeName(window), version,
         DollarVolumeArgs(window), |bars|)
  }

  /** The records of `DollarVolumeRows` are exactly the dollar-volume values
      of the rows in range whose window is full and valid. */
  lemma {:induction false} DollarVolumeRowsMeaning(id: int, bars: seq<Bar>, startDate: Date, endDate: Date, window: nat,
                                                   version: string, ln: real -> real)
    ensures var rows := DollarVolumeRows(id, bars, startDate, endDate, window, version, ln);
      (forall i :: 0 <= i < |rows| ==> FromSomeRow(rows[i], bars, DollarVolumeValues(bars, window, ln)))
      && (forall t :: (0 <= t < |bars| && FullWindow(t, window) && AllValid(bars, t + 1 - window, t + 1)
          && startDate <= bars[t].date <= endDate) ==>
        Recorded(rows, bars, DollarVolumeValues(bars, window, ln), t))
  {
    var vals := DollarVolumeValues(bars, window, ln);
    var name, args := DollarVolumeName(window), DollarVolumeArgs(window);
    EmitSound(id, bars, vals, startDate, endDate, name, version, args);
    EmitComplete(id, bars, vals, startDate, endDate, name, version, args);
    forall t | (0 <= t < |bars| && FullWindow(t, window) && AllValid(bars, t + 1 - window, t + 1)
      && startDate <= bars[t].date <= endDate)
      ensures Keep(bars, vals, startDate, endDate, t)
    {
      DollarVolumeMeaning(bars, t, window, ln);
    }
  }

  /** `calc_single_instrument_dollar_volume`: nothing is loaded when the
      range is empty; otherwise the history from `DollarVolumeLoadStart` is
      loaded, and the batch `DollarVolumeRows` is committed only for a usable
      table and a write that succeeds; the call returns the number of records
      committed. */
  function DollarVolume(id: int, startDate: Date, endDate: Date, window: nat, version: string, ln: real -> real,
                        load: Load, writeOk: bool): (r: KernelResult)
    ensures startDate > endDate ==> r == KernelResult(None, 0, [])
    ensures startDate <= endDate ==> r.requested == Some((DollarVolumeLoadStart(startDate, window), endDate))
    ensures r.count == |r.committed|
    ensures r.committed ==
      (if startDate <= endDate && writeOk && Usable(load(id, DollarVolumeLoadStart(startDate, window), endDate), DollarVolumeColumns)
       then DollarVolumeRows(id, load(id, DollarVolumeLoadStart(startDate, window), endDate).bars, startDate, endDate, window, version, ln)
       else [])
  {
    if startDate > endDate then KernelResult(None, 0, [])
    else
      var req := (DollarVolumeLoadStart(startDate, window), endDate);
      var p := load(id, req.0, req.1);
      if !Usable(p, DollarVolumeColumns) then Commit(req, [], writeOk)
      else Commit(req, DollarVolumeRows(id, p.bars, startDate, endDate, window, version, ln), writeOk)
  }
}
