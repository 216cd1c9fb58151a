/** The incremental checkpoint machine shared by the factor drivers under
    engine/compute_factors/. For each factor spec a driver resolves where to
    startDate from the stored checkpoint, skips the spec when it is already
    current, runs the per-instrument kernel over the tradable universe, and
    advances the checkpoint only when rows were written.

    The checkpoint store (`system_state`) is a map from state key to the
    stored `last_done_date`. The kernel is the parameter `kernel`: for a state
    key, an instrument and a date range it returns the number of rows written
    or the exception it raised. */
module FactorCheckpoint {
  import opened Common
  import opened Text

  type Store = map<string, Date>

  /** A kernel run: (state key, instrument id, startDate, endDate) to rows written. */
  type Kernel = (string, int, Date, Date) -> Result<nat>

  // ------------------------------------------------------------------
  // State keys and spec tables
  // ------------------------------------------------------------------

  function OneFieldKey(prefix: string, a: nat): string {
    prefix + Decimal(a) + ":v1"
  }

  function TwoFieldKey(prefix: string, a: nat, b: nat): string {
    prefix + Decimal(a) + ":" + Decimal(b) + ":v1"
  }

  /** Keys built from different numbers are different. */
  lemma {:induction false} OneFieldKeyInjective(prefix: string, a: nat, a': nat)
    requires OneFieldKey(prefix, a) == OneFieldKey(prefix, a')
    ensures a == a'
  {
    DecimalHasNo(a, ':');
    DecimalHasNo(a', ':');
    assert OneFieldKey(prefix, a) == prefix + Decimal(a) + [':'] + "v1";
    assert OneFieldKey(prefix, a') == prefix + Decimal(a') + [':'] + "v1";
    SplitAtSeparator(prefix, Decimal(a), "v1", Decimal(a'), "v1", ':');
    DecimalInjective(a, a');
  }

  lemma {:induction false} TwoFieldKeyInjective(prefix: string, a: nat, b: nat, a': nat, b': nat)
    requires TwoFieldKey(prefix, a, b) == TwoFieldKey(prefix, a', b')
    ensures a == a' && b == b'
  {
    DecimalHasNo(a, ':');
    DecimalHasNo(a', ':');
    assert TwoFieldKey(prefix, a, b) == prefix + Decimal(a) + [':'] + (Decimal(b) + ":v1");
    assert TwoFieldKey(prefix, a', b') == prefix + Decimal(a') + [':'] + (Decimal(b') + ":v1");
    SplitAtSeparator(prefix, Decimal(a), Decimal(b) + ":v1", Decimal(a'), Decimal(b') + ":v1", ':');
    SuffixCancel(Decimal(b), Decimal(b'), ":v1");
    DecimalInjective(a, a');
    DecimalInjective(b, b');
  }

  /** `factor:momentum:{lookback}:{skip}:v1` over MOMENTUM_SPECS
      (lookback, skip) = (252, 21), (126, 0), (63, 0), (21, 0): one key per spec. */
  function MomentumKeys(): (ks: seq<string>)
    ensures |ks| == 4 && Distinct(ks)
  {
    var ps := [(252, 21), (126, 0), (63, 0), (21, 0)];
    var ks := [TwoFieldKey("factor:momentum:", 252, 21), TwoFieldKey("factor:momentum:", 126, 0),
               TwoFieldKey("factor:momentum:", 63, 0), TwoFieldKey("factor:momentum:", 21, 0)];
    assert forall i, j :: 0 <= i < j < 4 ==> ks[i] != ks[j] by {
      forall i, j | 0 <= i < j < 4 ensures ks[i] != ks[j] {
        assert ks[i] == TwoFieldKey("factor:momentum:", ps[i].0, ps[i].1);
        assert ks[j] == TwoFieldKey("factor:momentum:", ps[j].0, ps[j].1);
        if ks[i] == ks[j] {
          TwoFieldKeyInjective("factor:momentum:", ps[i].0, ps[i].1, ps[j].0, ps[j].1);
          assert false;
        }
      }
    }
    ks
  }

  /** `factor:volatility:{window}:{annualize}:v1` over VOL_SPECS
      (window, annualize) = (60, 252), (20, 252). */
  function VolatilityKeys(): (ks: seq<string>)
    ensures |ks| == 2 && Distinct(ks)
  {
    var ks := [TwoFieldKey("factor:volatility:", 60, 252), TwoFieldKey("factor:volatility:", 20, 252)];
    assert ks[0] != ks[1] by {
      if ks[0] == ks[1] {
        TwoFieldKeyInjective("factor:volatility:", 60, 252, 20, 252);
        assert false;
      }
    }
    ks
  }

  /** `factor:dollar_volume:{window}:v1` over DV_SPECS, windows 20 and 60. */
  function DollarVolumeKeys(): (ks: seq<string>)
    ensures |ks| == 2 && Distinct(ks)
  {
    var ks := [OneFieldKey("factor:dollar_volume:", 20), OneFieldKey("factor:dollar_volume:", 60)];
    assert ks[0] != ks[1] by {
      if ks[0] == ks[1] {
        OneFieldKeyInjective("factor:dollar_volume:", 20, 60);
        assert false;
      }
    }
    ks
  }

  /** `factor:max_drawdown:{window}:v1` over MDD_SPECS (window 252). */
  function MaxDrawdownKeys(): seq<string> {
    [OneFieldKey("factor:max_drawdown:", 252)]
  }

  /** `factor:volvol:{vol_window}:{volvol_window}:v1` over VOLVOL_SPECS (20, 60). */
  function VolVolKeys(): seq<string> {
    [TwoFieldKey("factor:volvol:", 20, 60)]
  }

  /** `factor:jump:{window}:v1` over JUMP_SPECS (window 60). */
  function JumpKeys(): seq<string> {
    [OneFieldKey("factor:jump:", 60)]
  }

  // ------------------------------------------------------------------
  // One spec
  // ------------------------------------------------------------------

  /** The stored `last_done_date` of a key, if any. */
  function LastDone(store: Store, key: string): (r: Option<Date>)
    ensures r.Some? <==> key in store
    ensures r.Some? ==> r.value == store[key]
  {
    if key in store then Some(store[key]) else None
  }

  /** `actual_start`: the requested startDate, or the stored checkpoint itself
      (not the day after) when that is later and `force` is off. */
  function ActualStart(reqStart: Date, stored: Option<Date>, force: bool): (r: Date)
    ensures r >= reqStart
    ensures force || stored.None? ==> r == reqStart
    ensures !force && stored.Some? ==> r == MaxInt(reqStart, stored.value)
  {
    if !force && stored.Some? && stored.value > reqStart then stored.value else reqStart
  }

  /** The counters of the instrument loop. */
  datatype Tally = Tally(written: nat, failed: nat, zeroWritten: nat)

  /** The instrument loop of the five guarded drivers: an exception is counted
      as a failure and the loop goes on. */
  function CountedTally(kernel: Kernel, key: string, ids: seq<int>, startDate: Date, endDate: Date): (t: Tally)
    ensures t.failed + t.zeroWritten <= |ids|
  {
    if ids == [] then Tally(0, 0, 0)
    else
      var t := CountedTally(kernel, key, ids[..|ids| - 1], startDate, endDate);
      var r := kernel(key, ids[|ids| - 1], startDate, endDate);
      if r.Err? then Tally(t.written, t.failed + 1, t.zeroWritten)
      else Tally(t.written + r.value, t.failed, t.zeroWritten + (if r.value == 0 then 1 else 0))
  }

  /** The instruments whose kernel raised. */
  function FailedIds(kernel: Kernel, key: string, ids: seq<int>, startDate: Date, endDate: Date): seq<int> {
    if ids == [] then []
    else
      FailedIds(kernel, key, ids[..|ids| - 1], startDate, endDate)
        + (if kernel(key, ids[|ids| - 1], startDate, endDate).Err? then [ids[|ids| - 1]] else [])
  }

  /** The failure counter counts exactly the instruments that raised, and the
      written counter is positive exactly when some instrument wrote a row. */
  lemma {:induction false} TallyCounts(kernel: Kernel, key: string, ids: seq<int>, startDate: Date, endDate: Date)
    ensures CountedTally(kernel, key, ids, startDate, endDate).failed == |FailedIds(kernel, key, ids, startDate, endDate)|
    ensures forall id :: id in FailedIds(kernel, key, ids, startDate, endDate) ==> id in ids && kernel(key, id, startDate, endDate).Err?
    ensures CountedTally(kernel, key, ids, startDate, endDate).written > 0
      <==> exists i :: 0 <= i < |ids| && kernel(key, ids[i], startDate, endDate).Ok? && kernel(key, ids[i], startDate, endDate).value > 0
  {
    TallyFailed(kernel, key, ids, startDate, endDate);
    FailedIdsRaised(kernel, key, ids, startDate, endDate);
    TallyWritten(kernel, key, ids, startDate, endDate);
  }

  lemma {:induction false} TallyFailed(kernel: Kernel, key: string, ids: seq<int>, startDate: Date, endDate: Date)
    ensures CountedTally(kernel, key, ids, startDate, endDate).failed == |FailedIds(kernel, key, ids, startDate, endDate)|
  {
    if ids != [] {
      TallyFailed(kernel, key, ids[..|ids| - 1], startDate, endDate);
    }
  }

  lemma {:induction false} FailedIdsRaised(kernel: Kernel, key: string, ids: seq<int>, startDate: Date, endDate: Date)
    ensures forall id :: id in FailedIds(kernel, key, ids, startDate, endDate) ==> id in ids && kernel(key, id, startDate, endDate).Err?
  {
    if ids != [] {
      var init := ids[..|ids| - 1];
      FailedIdsRaised(kernel, key, init, startDate, endDate);
      assert forall id :: id in init ==> id in ids;
    }
  }

  lemma {:induction false} TallyWritten(kernel: Kernel, key: string, ids: seq<int>, startDate: Date, endDate: Date)
    ensures CountedTally(kernel, key, ids, startDate, endDate).written > 0
      <==> exists i :: 0 <= i < |ids| && kernel(key, ids[i], startDate, endDate).Ok? && kernel(key, ids[i], startDate, endDate).value > 0
  {
    if ids != [] {
      var init := ids[..|ids| - 1];
      TallyWritten(kernel, key, init, startDate, endDate);
      var last := kernel(key, ids[|ids| - 1], startDate, endDate);
      if CountedTally(kernel, key, init, startDate, endDate).written > 0 {
        var i :| 0 <= i < |init| && kernel(key, init[i], startDate, endDate).Ok? && kernel(key, init[i], startDate, endDate).value > 0;
        assert init[i] == ids[i];
      } else if last.Ok? && last.value > 0 {
        assert kernel(key, ids[|ids| - 1], startDate, endDate).Ok?;
      } else {
        forall i | 0 <= i < |ids| ensures !(kernel(key, ids[i], startDate, endDate).Ok? && kernel(key, ids[i], startDate, endDate).value > 0) {
          if i < |init| {
            assert ids[i] == init[i];
          }
        }
      }
    }
  }

  /** The new checkpoint of the guarded drivers: `req_end`, but never below
      the stored one. */
  function NewLastDone(reqEnd: Date, stored: Option<Date>): (d: Date)
    ensures d >= reqEnd && (stored.Some? ==> d == MaxInt(reqEnd, stored.value))
  {
    if stored.Some? && stored.value > reqEnd then stored.value else reqEnd
  }

  /** What a driver reports for one spec. */
  datatype SpecReport = UpToDate | Ran(tally: Tally)

  /** One spec of a guarded driver: the new store and the report. */
  function CountedSpec(store: Store, key: string, ids: seq<int>, reqStart: Date, reqEnd: Date,
                       force: bool, kernel: Kernel): (Store, SpecReport)
  {
    var stored := LastDone(store, key);
    var startDate := ActualStart(reqStart, stored, force);
    if startDate > reqEnd then (store, UpToDate)
    else
      var t := CountedTally(kernel, key, ids, startDate, reqEnd);
      if t.written > 0 then (store[key := NewLastDone(reqEnd, stored)], Ran(t)) else (store, Ran(t))
  }

  /** A guarded spec touches only its own key, writes it exactly when it ran
      and wrote rows, and never moves it backwards. */
  lemma {:induction false} CountedSpecAdvance(store: Store, key: string, ids: seq<int>, reqStart: Date, reqEnd: Date,
                                              force: bool, kernel: Kernel)
    ensures var (store', report) := CountedSpec(store, key, ids, reqStart, reqEnd, force, kernel);
      var startDate := ActualStart(reqStart, LastDone(store, key), force);
      (forall k :: k != key ==> (k in store' <==> k in store) && (k in store ==> store'[k] == store[k]))
      && (report.UpToDate? <==> startDate > reqEnd)
      && (report.Ran? ==> report.tally == CountedTally(kernel, key, ids, startDate, reqEnd))
      && (store' != store <== report.Ran? && report.tally.written > 0 && (key !in store || store[key] < reqEnd))
      && (store' == store <== !(report.Ran? && report.tally.written > 0))
      && (report.Ran? && report.tally.written > 0 ==> key in store' && store'[key] == NewLastDone(reqEnd, LastDone(store, key)))
      && (key in store ==> key in store' && store'[key] >= store[key])
  {
  }

  // ------------------------------------------------------------------
  // The guarded drivers
  // ------------------------------------------------------------------

  /** What a driver run leaves behind. */
  datatype RunResult = RunResult(store: Store, reports: seq<SpecReport>, outcome: Outcome)

  function CountedSpecs(store: Store, keys: seq<string>, ids: seq<int>, reqStart: Date, reqEnd: Date,
                        force: bool, kernel: Kernel): (r: (Store, seq<SpecReport>))
    ensures |r.1| == |keys|
  {
    if keys == [] then (store, [])
    else
      var (s, reports) := CountedSpecs(store, keys[..|keys| - 1], ids, reqStart, reqEnd, force, kernel);
      var (s', report) := CountedSpec(s, keys[|keys| - 1], ids, reqStart, reqEnd, force, kernel);
      (s', reports + [report])
  }

  /** `run` of a guarded driver: nothing happens without tradable instruments
      or without any price (no checkpoint is even read); otherwise every spec
      in order. No exception escapes. */
  function CountedRun(store: Store, keys: seq<string>, ids: seq<int>, reqStart: Date, maxPriceDate: Option<Date>,
                      force: bool, kernel: Kernel): RunResult
  {
    if ids == [] || maxPriceDate.None? then RunResult(store, [], Done)
    else
      var (s, reports) := CountedSpecs(store, keys, ids, reqStart, maxPriceDate.value, force, kernel);
      RunResult(s, reports, Done)
  }

  /** The checkpoints never regress: every stored key stays, at the same date or
      later, and only the driver's own keys can appear. */
  lemma {:induction false} CountedSpecsMonotone(store: Store, keys: seq<string>, ids: seq<int>, reqStart: Date, reqEnd: Date,
                                                force: bool, kernel: Kernel)
    ensures var s := CountedSpecs(store, keys, ids, reqStart, reqEnd, force, kernel).0;
      (forall k :: k in store ==> k in s && s[k] >= store[k])
      && (forall k :: k in s ==> k in store || k in keys)
  {
    if keys != [] {
      var init := keys[..|keys| - 1];
      CountedSpecsMonotone(store, init, ids, reqStart, reqEnd, force, kernel);
      var s0 := CountedSpecs(store, init, ids, reqStart, reqEnd, force, kernel).0;
      CountedSpecAdvance(s0, keys[|keys| - 1], ids, reqStart, reqEnd, force, kernel);
      assert forall k :: k in init ==> k in keys;
    }
  }

  lemma {:induction false} CountedRunMonotone(store: Store, keys: seq<string>, ids: seq<int>, reqStart: Date,
                                              maxPriceDate: Option<Date>, force: bool, kernel: Kernel)
    ensures var r := CountedRun(store, keys, ids, reqStart, maxPriceDate, force, kernel);
      r.outcome == Done
      && (forall k :: k in store ==> k in r.store && r.store[k] >= store[k])
      && (forall k :: k in r.store ==> k in store || k in keys)
      && (ids == [] || maxPriceDate.None? ==> r.store == store && r.reports == [])
  {
    if ids != [] && maxPriceDate.Some? {
      CountedSpecsMonotone(store, keys, ids, reqStart, maxPriceDate.value, force, kernel);
    }
  }

  /** The instrument loop, counting failures and rows. */
  method TallyInstruments(kernel: Kernel, key: string, ids: seq<int>, startDate: Date, endDate: Date) returns (t: Tally)
    ensures t == CountedTally(kernel, key, ids, startDate, endDate)
  {
    var totalWritten, failed, zeroWritten := 0, 0, 0;
    var i := 0;
    while i < |ids|
      invariant 0 <= i <= |ids|
      invariant Tally(totalWritten, failed, zeroWritten) == CountedTally(kernel, key, ids[..i], startDate, endDate)
    {
      assert ids[..i + 1][..i] == ids[..i];
      var n := kernel(key, ids[i], startDate, endDate);
      if n.Err? {
        failed := failed + 1;
      } else {
        totalWritten := totalWritten + n.value;
        if n.value == 0 {
          zeroWritten := zeroWritten + 1;
        }
      }
      i := i + 1;
    }
    assert ids[..|ids|] == ids;
    t := Tally(totalWritten, failed, zeroWritten);
  }

  /** `run` of compute_momentum, compute_volatility, compute_dollar_volume,
      compute_max_drawdown and compute_volatility_of_volatility over their
      spec keys. */
  method RunCounted(keys: seq<string>, ids: seq<int>, reqStart: Date, maxPriceDate: Option<Date>,
                    force: bool, kernel: Kernel, store: Store)
    returns (store': Store, reports: seq<SpecReport>, outcome: Outcome)
    ensures RunResult(store', reports, outcome) == CountedRun(store, keys, ids, reqStart, maxPriceDate, force, kernel)
  {
    store', reports, outcome := store, [], Done;
    if ids == [] {
      return;
    }
    if maxPriceDate.None? {
      return;
    }
    var reqEnd := maxPriceDate.value;
    var j := 0;
    while j < |keys|
      invariant 0 <= j <= |keys|
      invariant (store', reports) == CountedSpecs(store, keys[..j], ids, reqStart, reqEnd, force, kernel)
    {
      assert keys[..j + 1][..j] == keys[..j];
      var key := keys[j];
      var stored := LastDone(store', key);
      var startDate := ActualStart(reqStart, stored, force);
      if startDate > reqEnd {
        reports := reports + [UpToDate];
      } else {
        var t := TallyInstruments(kernel, key, ids, startDate, reqEnd);
        if t.written > 0 {
          store' := store'[key := NewLastDone(reqEnd, stored)];
        }
        reports := reports + [Ran(t)];
      }
      j := j + 1;
    }
    assert keys[..|keys|] == keys;
  }

  // ------------------------------------------------------------------
  // compute_jump_risk: no exception guard, no max against the stored date
  // ------------------------------------------------------------------

  /** The instrument loop without a guard: the first exception aborts it. */
  function UnguardedTotal(kernel: Kernel, key: string, ids: seq<int>, startDate: Date, endDate: Date): Result<nat> {
    if ids == [] then Ok(0)
    else
      var t := UnguardedTotal(kernel, key, ids[..|ids| - 1], startDate, endDate);
      var r := kernel(key, ids[|ids| - 1], startDate, endDate);
      if t.Err? then t else if r.Err? then Err(r.error) else Ok(t.value + r.value)
  }

  lemma {:induction false} UnguardedTotalFails(kernel: Kernel, key: string, ids: seq<int>, startDate: Date, endDate: Date)
    ensures UnguardedTotal(kernel, key, ids, startDate, endDate).Err?
      <==> exists i :: 0 <= i < |ids| && kernel(key, ids[i], startDate, endDate).Err?
  {
    if ids != [] {
      var init := ids[..|ids| - 1];
      UnguardedTotalFails(kernel, key, init, startDate, endDate);
      assert forall i :: 0 <= i < |init| ==> init[i] == ids[i];
      if UnguardedTotal(kernel, key, init, startDate, endDate).Err? {
        var i :| 0 <= i < |init| && kernel(key, init[i], startDate, endDate).Err?;
        assert kernel(key, ids[i], startDate, endDate).Err?;
      } else if kernel(key, ids[|ids| - 1], startDate, endDate).Err? {
      } else {
        forall i | 0 <= i < |ids| ensures kernel(key, ids[i], startDate, endDate).Ok? {
          if i < |init| {
            assert ids[i] == init[i];
          }
        }
      }
    }
  }

  /** One spec of compute_jump_risk; an exception propagates out of `run`. */
  function UnguardedSpec(store: Store, key: string, ids: seq<int>, reqStart: Date, reqEnd: Date,
                         force: bool, kernel: Kernel): Result<(Store, SpecReport)>
  {
    var startDate := ActualStart(reqStart, LastDone(store, key), force);
    if startDate > reqEnd then Ok((store, UpToDate))
    else
      var t := UnguardedTotal(kernel, key, ids, startDate, reqEnd);
      if t.Err? then Err(t.error)
      else if t.value > 0 then Ok((store[key := reqEnd], Ran(Tally(t.value, 0, 0))))
      else Ok((store, Ran(Tally(t.value, 0, 0))))
  }

  /** The specs in order; on an exception the checkpoints already written stay. */
  function UnguardedSpecs(store: Store, keys: seq<string>, ids: seq<int>, reqStart: Date, reqEnd: Date,
                          force: bool, kernel: Kernel): RunResult
  {
    if keys == [] then RunResult(store, [], Done)
    else
      var r := UnguardedSpecs(store, keys[..|keys| - 1], ids, reqStart, reqEnd, force, kernel);
      if r.outcome.Raised? then r
      else
        var step := UnguardedSpec(r.store, keys[|keys| - 1], ids, reqStart, reqEnd, force, kernel);
        if step.Err? then RunResult(r.store, r.reports, Raised(step.error))
        else RunResult(step.value.0, r.reports + [step.value.1], Done)
  }

  function UnguardedRun(store: Store, keys: seq<string>, ids: seq<int>, reqStart: Date, maxPriceDate: Option<Date>,
                        force: bool, kernel: Kernel): RunResult
  {
    if ids == [] || maxPriceDate.None? then RunResult(store, [], Done)
    else UnguardedSpecs(store, keys, ids, reqStart, maxPriceDate.value, force, kernel)
  }

  /** An exception in any instrument aborts the spec without writing its
      checkpoint; otherwise the checkpoint becomes `req_end` exactly when rows
      were written, and without `force` it cannot move backwards. */
  lemma {:induction false} UnguardedSpecEffect(store: Store, key: string, ids: seq<int>, reqStart: Date, reqEnd: Date,
                                               force: bool, kernel: Kernel)
    ensures var startDate := ActualStart(reqStart, LastDone(store, key), force);
      var r := UnguardedSpec(store, key, ids, reqStart, reqEnd, force, kernel);
      (r.Err? <==> startDate <= reqEnd && exists i :: 0 <= i < |ids| && kernel(key, ids[i], startDate, reqEnd).Err?)
      && (r.Ok? ==> (forall k :: k != key ==> (k in r.value.0 <==> k in store) && (k in store ==> r.value.0[k] == store[k]))
                    && (r.value.0 != store ==> key in r.value.0 && r.value.0[key] == reqEnd))
      && (r.Ok? && !force && key in store ==> key in r.value.0 && r.value.0[key] >= store[key])
  {
    var startDate := ActualStart(reqStart, LastDone(store, key), force);
    if startDate <= reqEnd {
      UnguardedTotalFails(kernel, key, ids, startDate, reqEnd);
    }
  }

  /** Without `force`, no checkpoint of the jump driver regresses. */
  lemma {:induction false} UnguardedSpecsMonotone(store: Store, keys: seq<string>, ids: seq<int>, reqStart: Date, reqEnd: Date,
                                                  kernel: Kernel)
    ensures var r := UnguardedSpecs(store, keys, ids, reqStart, reqEnd, false, kernel);
      forall k :: k in store ==> k in r.store && r.store[k] >= store[k]
  {
    if keys != [] {
      var init := keys[..|keys| - 1];
      UnguardedSpecsMonotone(store, init, ids, reqStart, reqEnd, kernel);
      var r := UnguardedSpecs(store, init, ids, reqStart, reqEnd, false, kernel);
      if r.outcome.Done? {
        UnguardedSpecEffect(r.store, keys[|keys| - 1], ids, reqStart, reqEnd, false, kernel);
      }
    }
  }

  /** With `force`, the jump checkpoint is set to `req_end` even when that is
      earlier than the stored date. */
  lemma {:induction false} ForcedJumpRegresses()
    ensures var key := OneFieldKey("factor:jump:", 60);
      var kernel: Kernel := (k, id, s, e) => Ok(1);
      var r := UnguardedRun(map[key := 200], [key], [7], 0, Some(100), true, kernel);
      r.outcome == Done && r.store[key] == 100
  {
    var key := OneFieldKey("factor:jump:", 60);
    var kernel: Kernel := (k, id, s, e) => Ok(1);
    assert [7][..0] == [] && [key][..0] == [];
    assert UnguardedTotal(kernel, key, [7], 0, 100) == Ok(1);
  }

  /** The jump driver's instrument loop. */
  method TotalInstruments(kernel: Kernel, key: string, ids: seq<int>, startDate: Date, endDate: Date) returns (r: Result<nat>)
    ensures r == UnguardedTotal(kernel, key, ids, startDate, endDate)
  {
    var totalWritten := 0;
    var i := 0;
    while i < |ids|
      invariant 0 <= i <= |ids|
      invariant UnguardedTotal(kernel, key, ids[..i], startDate, endDate) == Ok(totalWritten)
    {
      assert ids[..i + 1][..i] == ids[..i];
      var n := kernel(key, ids[i], startDate, endDate);
      if n.Err? {
        UnguardedPrefixErr(kernel, key, ids, i + 1, startDate, endDate);
        return Err(n.error);
      }
      totalWritten := totalWritten + n.value;
      i := i + 1;
    }
    assert ids[..|ids|] == ids;
    r := Ok(totalWritten);
  }

  lemma {:induction false} UnguardedPrefixErr(kernel: Kernel, key: string, ids: seq<int>, k: nat, startDate: Date, endDate: Date)
    requires k <= |ids| && UnguardedTotal(kernel, key, ids[..k], startDate, endDate).Err?
    ensures UnguardedTotal(kernel, key, ids, startDate, endDate) == UnguardedTotal(kernel, key, ids[..k], startDate, endDate)
    decreases |ids| - k
  {
    if k < |ids| {
      assert ids[..k + 1][..k] == ids[..k];
      UnguardedPrefixErr(kernel, key, ids, k + 1, startDate, endDate);
    } else {
      assert ids[..k] == ids;
    }
  }

  /** `run` of compute_jump_risk. */
  method RunUnguarded(keys: seq<string>, ids: seq<int>, reqStart: Date, maxPriceDate: Option<Date>,
                      force: bool, kernel: Kernel, store: Store)
    returns (store': Store, reports: seq<SpecReport>, outcome: Outcome)
    ensures RunResult(store', reports, outcome) == UnguardedRun(store, keys, ids, reqStart, maxPriceDate, force, kernel)
  {
    store', reports, outcome := store, [], Done;
    if ids == [] {
      return;
    }
    if maxPriceDate.None? {
      return;
    }
    var reqEnd := maxPriceDate.value;
    var j := 0;
    while j < |keys|
      invariant 0 <= j <= |keys|
      invariant UnguardedSpecs(store, keys[..j], ids, reqStart, reqEnd, force, kernel) == RunResult(store', reports, Done)
    {
      UnguardedSpecsStep(store, keys, j, ids, reqStart, reqEnd, force, kernel, store', reports);
      var step := RunUnguardedSpec(store', keys[j], ids, reqStart, reqEnd, force, kernel);
      if step.Err? {
        UnguardedSpecsPrefixRaised(store, keys, j + 1, ids, reqStart, reqEnd, force, kernel);
        return store', reports, Raised(step.error);
      }
      store', reports := step.value.0, reports + [step.value.1];
      j := j + 1;
    }
    assert keys[..|keys|] == keys;
  }

  /** One more spec either raises, keeping what the earlier specs wrote, or
      extends the reports. */
  lemma {:induction false} UnguardedSpecsStep(store: Store, keys: seq<string>, j: nat, ids: seq<int>, reqStart: Date,
                                              reqEnd: Date, force: bool, kernel: Kernel, s: Store, reports: seq<SpecReport>)
    requires j < |keys| && UnguardedSpecs(store, keys[..j], ids, reqStart, reqEnd, force, kernel) == RunResult(s, reports, Done)
    ensures var step := UnguardedSpec(s, keys[j], ids, reqStart, reqEnd, force, kernel);
      UnguardedSpecs(store, keys[..j + 1], ids, reqStart, reqEnd, force, kernel)
        == if step.Err? then RunResult(s, reports, Raised(step.error))
           else RunResult(step.value.0, reports + [step.value.1], Done)
  {
    assert keys[..j + 1][..j] == keys[..j];
  }

  /** One spec of compute_jump_risk's `run`. */
  method RunUnguardedSpec(store: Store, key: string, ids: seq<int>, reqStart: Date, reqEnd: Date,
                          force: bool, kernel: Kernel)
    returns (r: Result<(Store, SpecReport)>)
    ensures r == UnguardedSpec(store, key, ids, reqStart, reqEnd, force, kernel)
  {
    var startDate := ActualStart(reqStart, LastDone(store, key), force);
    if startDate > reqEnd {
      return Ok((store, UpToDate));
    }
    var t := TotalInstruments(kernel, key, ids, startDate, reqEnd);
    if t.Err? {
      return Err(t.error);
    }
    if t.value > 0 {
      return Ok((store[key := reqEnd], Ran(Tally(t.value, 0, 0))));
    }
    return Ok((store, Ran(Tally(t.value, 0, 0))));
  }

  lemma {:induction false} UnguardedSpecsPrefixRaised(store: Store, keys: seq<string>, k: nat, ids: seq<int>, reqStart: Date,
                                                      reqEnd: Date, force: bool, kernel: Kernel)
    requires k <= |keys| && UnguardedSpecs(store, keys[..k], ids, reqStart, reqEnd, force, kernel).outcome.Raised?
    ensures UnguardedSpecs(store, keys, ids, reqStart, reqEnd, force, kernel)
      == UnguardedSpecs(store, keys[..k], ids, reqStart, reqEnd, force, kernel)
    decreases |keys| - k
  {
    if k < |keys| {
      assert keys[..k + 1][..k] == keys[..k];
      UnguardedSpecsPrefixRaised(store, keys, k + 1, ids, reqStart, reqEnd, force, kernel);
    } else {
      assert keys[..k] == keys;
    }
  }
}

/** The six factor drivers: the checkpoint machine over each driver's spec
    table. `reqStart` is DEFAULT_START_DATE, `maxPriceDate` the latest date in
    market_prices (None when the table is empty) and `ids` the tradable
    universe. */
module FactorDrivers {
  import opened Common
  import opened FactorCheckpoint

  method RunMomentum(force: bool, ids: seq<int>, reqStart: Date, maxPriceDate: Option<Date>, kernel: Kernel, store: Store)
    returns (store': Store, reports: seq<SpecReport>, outcome: Outcome)
    ensures RunResult(store', reports, outcome) == CountedRun(store, MomentumKeys(), ids, reqStart, maxPriceDate, force, kernel)
  {
    store', reports, outcome := RunCounted(MomentumKeys(), ids, reqStart, maxPriceDate, force, kernel, store);
  }

  method RunVolatility(force: bool, ids: seq<int>, reqStart: Date, maxPriceDate: Option<Date>, kernel: Kernel, store: Store)
    returns (store': Store, reports: seq<SpecReport>, outcome: Outcome)
    ensures RunResult(store', reports, outcome) == CountedRun(store, VolatilityKeys(), ids, reqStart, maxPriceDate, force, kernel)
  {
    store', reports, outcome := RunCounted(VolatilityKeys(), ids, reqStart, maxPriceDate, force, kernel, store);
  }

  method RunDollarVolume(force: bool, ids: seq<int>, reqStart: Date, maxPriceDate: Option<Date>, kernel: Kernel, store: Store)
    returns (store': Store, reports: seq<SpecReport>, outcome: Outcome)
    ensures RunResult(store', reports, outcome) == CountedRun(store, DollarVolumeKeys(), ids, reqStart, maxPriceDate, force, kernel)
  {
    store', reports, outcome := RunCounted(DollarVolumeKeys(), ids, reqStart, maxPriceDate, force, kernel, store);
  }

  method RunMaxDrawdown(force: bool, ids: seq<int>, reqStart: Date, maxPriceDate: Option<Date>, kernel: Kernel, store: Store)
    returns (store': Store, reports: seq<SpecReport>, outcome: Outcome)
    ensures RunResult(store', reports, outcome) == CountedRun(store, MaxDrawdownKeys(), ids, reqStart, maxPriceDate, force, kernel)
  {
    store', reports, outcome := RunCounted(MaxDrawdownKeys(), ids, reqStart, maxPriceDate, force, kernel, store);
  }

  method RunVolVol(force: bool, ids: seq<int>, reqStart: Date, maxPriceDate: Option<Date>, kernel: Kernel, store: Store)
    returns (store': Store, reports: seq<SpecReport>, outcome: Outcome)
    ensures RunResult(store', reports, outcome) == CountedRun(store, VolVolKeys(), ids, reqStart, maxPriceDate, force, kernel)
  {
    store', reports, outcome := RunCounted(VolVolKeys(), ids, reqStart, maxPriceDate, force, kernel, store);
  }

  method RunJumpRisk(force: bool, ids: seq<int>, reqStart: Date, maxPriceDate: Option<Date>, kernel: Kernel, store: Store)
    returns (store': Store, reports: seq<SpecReport>, outcome: Outcome)
    ensures RunResult(store', reports, outcome) == UnguardedRun(store, JumpKeys(), ids, reqStart, maxPriceDate, force, kernel)
  {
    store', reports, outcome := RunUnguarded(JumpKeys(), ids, reqStart, maxPriceDate, force, kernel, store);
  }
}
