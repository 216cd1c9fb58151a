/** The decision logic of `download_prices` in
    data_download/input/price_downloader.py: the date range to request, the
    per-instrument success / failure / skip counting, the batch buffer that is
    flushed at `batch_size` and at the end, and the rule that decides whether
    the `last_price_download` checkpoint advances.

    The Tiingo response of each ticker is the parameter `fetch`, whether the
    k-th batch write commits is `flushOk(k)`, and the store reads (previous
    trading day, greatest price date before and after the run) are
    parameters. */
module PriceIngest {
  import opened Common
  import opened TiingoRecords

  // ------------------------------------------------------------------
  // Date range
  // ------------------------------------------------------------------

  /** `_resolve_date_range`: the end is the given one or the previous
      trading day (a `RuntimeError` if the calendar has none); the start is
      the given one, else the day after the greatest stored price date, else
      the default start. */
  function ResolveDateRange(startArg: Option<Date>, endArg: Option<Date>, prevTradingDay: Option<Date>,
                            maxPriceDate: Option<Date>, defaultStart: Date): (r: Result<(Date, Date)>)
    ensures r.Err? <==> endArg.None? && prevTradingDay.None?
    ensures r.Err? ==> r.error == RuntimeError
    ensures r.Ok? ==> r.value.1 == (if endArg.Some? then endArg.value else prevTradingDay.value)
    ensures r.Ok? && startArg.Some? ==> r.value.0 == startArg.value
    ensures r.Ok? && startArg.None? && maxPriceDate.Some? ==> r.value.0 == maxPriceDate.value + 1
    ensures r.Ok? && startArg.None? && maxPriceDate.None? ==> r.value.0 == defaultStart
  {
    if endArg.None? && prevTradingDay.None? then Err(RuntimeError)
    else
      var endDate := if endArg.Some? then endArg.value else prevTradingDay.value;
      if startArg.Some? then Ok((startArg.value, endDate))
      else if maxPriceDate.Some? then Ok((maxPriceDate.value + 1, endDate))
      else Ok((defaultStart, endDate))
  }

  /** Resuming after stored prices never re-requests a stored day. */
  lemma {:induction false} ResumeAfterStored(endArg: Option<Date>, prevTradingDay: Option<Date>, maxPriceDate: Date,
                                             defaultStart: Date)
    requires endArg.Some? || prevTradingDay.Some?
    ensures ResolveDateRange(None, endArg, prevTradingDay, Some(maxPriceDate), defaultStart).value.0 > maxPriceDate
  {
  }

  // ------------------------------------------------------------------
  // Advancing the checkpoint
  // ------------------------------------------------------------------

  /** `int(0.005 * requested)` for a positive count, taken as exact. */
  function AbsoluteFailureAllowance(requested: nat): (a: nat)
    ensures a * 200 <= requested < (a + 1) * 200
  {
    requested / 200
  }

  /** `_should_advance_state`. */
  function ShouldAdvance(requested: int, success: int, failed: int, maxFailureRate: real, minSuccess: int): bool {
    if success < minSuccess then false
    else if requested <= 0 then false
    else failed as real / requested as real < maxFailureRate && failed <= MaxInt(20, AbsoluteFailureAllowance(requested))
  }

  /** The rule with its defaults: a failure rate below 1% and at least one success. */
  function ShouldAdvanceByDefault(requested: int, success: int, failed: int): bool {
    ShouldAdvance(requested, success, failed, 0.01, 1)
  }

  /** The checkpoint advances exactly when there are enough successes, some
      requests, a failure rate below the bound and at most
      max(20, requested / 200) failures. */
  lemma {:induction false} ShouldAdvanceMeaning(requested: int, success: int, failed: int, maxFailureRate: real, minSuccess: int)
    ensures ShouldAdvance(requested, success, failed, maxFailureRate, minSuccess) <==>
      (success >= minSuccess && requested > 0
      && failed as real < maxFailureRate * requested as real
      && (failed <= 20 || failed * 200 <= requested))
  {
    if success >= minSuccess && requested > 0 {
      var q := failed as real / requested as real;
      assert q * requested as real == failed as real;
      RateBound(failed as real, requested as real, maxFailureRate);
      var a := AbsoluteFailureAllowance(requested);
      assert failed <= a ==> failed * 200 <= requested;
      assert failed * 200 <= requested ==> failed <= a;
    }
  }

  /** `f / r < m` exactly when `f < m * r`, for a positive `r`. */
  lemma {:induction false} RateBound(f: real, r: real, m: real)
    requires r > 0.0
    ensures f / r < m <==> f < m * r
  {
    var q := f / r;
    assert q * r == f;
    if q < m {
      PositiveProduct(m - q, r);
    } else {
      NonNegativeProduct(q - m, r);
    }
    assert (m - q) * r == m * r - f;
  }

  /** Fewer failures never stop a checkpoint that would advance. */
  lemma {:induction false} ShouldAdvanceMonotone(requested: int, success: int, failed: int, fewer: int,
                                                 maxFailureRate: real, minSuccess: int)
    requires 0 <= fewer <= failed
    requires ShouldAdvance(requested, success, failed, maxFailureRate, minSuccess)
    ensures ShouldAdvance(requested, success, fewer, maxFailureRate, minSuccess)
  {
    ShouldAdvanceMeaning(requested, success, failed, maxFailureRate, minSuccess);
    ShouldAdvanceMeaning(requested, success, fewer, maxFailureRate, minSuccess);
  }

  /** With the defaults and at most 2000 requests the absolute allowance
      never binds: the checkpoint advances iff something succeeded and fewer
      than 1% of the requests failed. */
  lemma {:induction false} DefaultRuleSmallUniverse(requested: int, success: int, failed: int)
    requires 0 < requested <= 2000 && failed >= 0
    ensures ShouldAdvanceByDefault(requested, success, failed) <==> success >= 1 && failed * 100 < requested
  {
    ShouldAdvanceMeaning(requested, success, failed, 0.01, 1);
    assert failed as real < 0.01 * requested as real <==> failed * 100 < requested;
  }

  // ------------------------------------------------------------------
  // Counting and batching
  // ------------------------------------------------------------------

  /** What `fetch_tiingo_prices` gave: it raised, it returned `None`, or a list. */
  datatype Fetch = FetchRaised | NoResponse | Records(recs: seq<Raw>)

  datatype Instrument = Instrument(instrumentId: int, ticker: string, assetType: string)

  /** The fate of one instrument at the fetch / transform stage. */
  datatype Fate = Failed | Skipped | Fetched(rows: seq<PriceRow>)

  /** A raising fetch, a `None` or a raising transform fail; an empty list or
      an empty transform is skipped; otherwise the rows are fetched. */
  function FateOf(f: Fetch, id: int): (fate: Fate)
    ensures fate.Fetched? ==> (f.Records? && Transform(f.recs, id) == Ok(fate.rows) && fate.rows != [])
    ensures fate == Failed <==> (f.FetchRaised? || f.NoResponse? || (f.Records? && f.recs != [] && Transform(f.recs, id).Err?))
  {
    match f
    case FetchRaised => Failed
    case NoResponse => Failed
    case Records(recs) =>
      if recs == [] then Skipped
      else
        var t := Transform(recs, id);
        if t.Err? then Failed
        else if t.value == [] then Skipped
        else Fetched(t.value)
  }

  /** The counters of the loop, the pending batch, and the number of
      batch writes attempted so far. */
  datatype Tally = Tally(requested: nat, success: nat, failed: nat, skipped: nat, records: nat,
                         pending: seq<PriceRow>, flushes: nat)

  const Start: Tally := Tally(0, 0, 0, 0, 0, [], 0)

  /** One batch write: on commit the rows are counted, on failure one more
      failure is counted; either way the batch is discarded. */
  function Flush(t: Tally, flushOk: nat -> bool): (t': Tally)
    ensures t'.pending == [] && t'.flushes == t.flushes + 1
    ensures t'.requested == t.requested && t'.success == t.success && t'.skipped == t.skipped
    ensures flushOk(t.flushes) ==> t'.records == t.records + |t.pending| && t'.failed == t.failed
    ensures !flushOk(t.flushes) ==> t'.records == t.records && t'.failed == t.failed + 1
  {
    if flushOk(t.flushes) then t.(records := t.records + |t.pending|, pending := [], flushes := t.flushes + 1)
    else t.(failed := t.failed + 1, pending := [], flushes := t.flushes + 1)
  }

  /** One iteration of the instrument loop. */
  function Step(t: Tally, inst: Instrument, fetch: string -> Fetch, batchSize: int, flushOk: nat -> bool): Tally {
    var t1 := t.(requested := t.requested + 1);
    match FateOf(fetch(inst.ticker), inst.instrumentId)
    case Failed => t1.(failed := t1.failed + 1)
    case Skipped => t1.(skipped := t1.skipped + 1)
    case Fetched(rows) =>
      var t2 := t1.(pending := t.pending + rows, success := t.success + 1);
      if |t2.pending| >= batchSize then Flush(t2, flushOk) else t2
  }

  /** The loop over the first instruments. */
  function Loop(insts: seq<Instrument>, fetch: string -> Fetch, batchSize: int, flushOk: nat -> bool): Tally {
    if insts == [] then Start
    else Step(Loop(insts[..|insts| - 1], fetch, batchSize, flushOk), insts[|insts| - 1], fetch, batchSize, flushOk)
  }

  /** The loop followed by the final flush of a non-empty batch. */
  function Finish(t: Tally, flushOk: nat -> bool): Tally {
    if t.pending != [] then Flush(t, flushOk) else t
  }

  function FateAt(insts: seq<Instrument>, fetch: string -> Fetch, i: nat): Fate
    requires i < |insts|
  {
    FateOf(fetch(insts[i].ticker), insts[i].instrumentId)
  }

  /** How many of the instruments had the given kind of fate. */
  function CountFailed(insts: seq<Instrument>, fetch: string -> Fetch): nat {
    if insts == [] then 0
    else CountFailed(insts[..|insts| - 1], fetch) + (if FateAt(insts, fetch, |insts| - 1) == Failed then 1 else 0)
  }

  function CountSkipped(insts: seq<Instrument>, fetch: string -> Fetch): nat {
    if insts == [] then 0
    else CountSkipped(insts[..|insts| - 1], fetch) + (if FateAt(insts, fetch, |insts| - 1) == Skipped then 1 else 0)
  }

  function CountFetched(insts: seq<Instrument>, fetch: string -> Fetch): nat {
    if insts == [] then 0
    else CountFetched(insts[..|insts| - 1], fetch) + (if FateAt(insts, fetch, |insts| - 1).Fetched? then 1 else 0)
  }

  /** The number of rows all fetched instruments produced. */
  function RowsFetched(insts: seq<Instrument>, fetch: string -> Fetch): nat {
    if insts == [] then 0
    else
      var f := FateAt(insts, fetch, |insts| - 1);
      RowsFetched(insts[..|insts| - 1], fetch) + (if f.Fetched? then |f.rows| else 0)
  }

  lemma {:induction false} FateAtPrefix(insts: seq<Instrument>, fetch: string -> Fetch, i: nat)
    requires i < |insts| - 1
    ensures FateAt(insts[..|insts| - 1], fetch, i) == FateAt(insts, fetch, i)
  {
  }

  /** The loop's bookkeeping after `n` instruments of which `fetched` were
      fetched, `skipped` skipped and `failed` failed, producing `rows` rows:
      every instrument is requested once and counted as exactly one of
      success, skipped or failed; the only further failures are the batch
      writes that rolled back, one each. The committed records and the
      pending batch together never exceed the fetched rows, and they equal
      them while every write commits. The pending batch stays below the
      batch size. */
  ghost predicate Accounts(t: Tally, n: nat, fetched: nat, skipped: nat, failed: nat, rows: nat, batchSize: int,
                           flushOk: nat -> bool)
  {
    t.requested == n
    && t.success == fetched && t.skipped == skipped
    && failed <= t.failed <= failed + t.flushes
    && fetched + skipped + failed == n
    && t.records + |t.pending| <= rows
    && ((forall k :: 0 <= k < t.flushes ==> flushOk(k)) ==> (t.records + |t.pending| == rows && t.failed == failed))
    && |t.pending| < MaxInt(batchSize, 1)
  }

  /** One iteration keeps the bookkeeping, counting the instrument under its fate. */
  lemma {:induction false} StepAccounts(t0: Tally, inst: Instrument, fetch: string -> Fetch, batchSize: int, flushOk: nat -> bool,
                                        n: nat, fetched: nat, skipped: nat, failed: nat, rows: nat, f: Fate,
                                        t: Tally, n': nat, fetched': nat, skipped': nat, failed': nat, rows': nat)
    requires Accounts(t0, n, fetched, skipped, failed, rows, batchSize, flushOk)
    requires f == FateOf(fetch(inst.ticker), inst.instrumentId) && t == Step(t0, inst, fetch, batchSize, flushOk)
    requires n' == n + 1 && fetched' == fetched + (if f.Fetched? then 1 else 0)
    requires skipped' == skipped + (if f == Skipped then 1 else 0) && failed' == failed + (if f == Failed then 1 else 0)
    requires rows' == rows + (if f.Fetched? then |f.rows| else 0)
    ensures Accounts(t, n', fetched', skipped', failed', rows', batchSize, flushOk)
  {
    assert t.flushes >= t0.flushes;
    if (forall k :: 0 <= k < t.flushes ==> flushOk(k)) {
      assert forall k :: 0 <= k < t0.flushes ==> flushOk(k);
    }
  }

  /** The loop and the counts over the instruments, one instrument at a time. */
  lemma {:induction false} LoopLast(insts: seq<Instrument>, fetch: string -> Fetch, batchSize: int, flushOk: nat -> bool)
    requires insts != []
    ensures var prefix, f := insts[..|insts| - 1], FateAt(insts, fetch, |insts| - 1);
      Loop(insts, fetch, batchSize, flushOk) == Step(Loop(prefix, fetch, batchSize, flushOk), insts[|insts| - 1], fetch, batchSize, flushOk)
      && f == FateOf(fetch(insts[|insts| - 1].ticker), insts[|insts| - 1].instrumentId)
      && CountFetched(insts, fetch) == CountFetched(prefix, fetch) + (if f.Fetched? then 1 else 0)
      && CountSkipped(insts, fetch) == CountSkipped(prefix, fetch) + (if f == Skipped then 1 else 0)
      && CountFailed(insts, fetch) == CountFailed(prefix, fetch) + (if f == Failed then 1 else 0)
      && RowsFetched(insts, fetch) == RowsFetched(prefix, fetch) + (if f.Fetched? then |f.rows| else 0)
  {
  }

  /** The loop keeps its bookkeeping over the fates of all instruments. */
  lemma {:induction false} LoopAccounting(insts: seq<Instrument>, fetch: string -> Fetch, batchSize: int, flushOk: nat -> bool)
    ensures Accounts(Loop(insts, fetch, batchSize, flushOk), |insts|, CountFetched(insts, fetch), CountSkipped(insts, fetch),
                     CountFailed(insts, fetch), RowsFetched(insts, fetch), batchSize, flushOk)
  {
    if insts != [] {
      var n := |insts|;
      var prefix := insts[..n - 1];
      LoopAccounting(prefix, fetch, batchSize, flushOk);
      LoopLast(insts, fetch, batchSize, flushOk);
      StepAccounts(Loop(prefix, fetch, batchSize, flushOk), insts[n - 1], fetch, batchSize, flushOk, n - 1,
                   CountFetched(prefix, fetch), CountSkipped(prefix, fetch), CountFailed(prefix, fetch),
                   RowsFetched(prefix, fetch), FateAt(insts, fetch, n - 1),
                   Loop(insts, fetch, batchSize, flushOk), n, CountFetched(insts, fetch), CountSkipped(insts, fetch),
                   CountFailed(insts, fetch), RowsFetched(insts, fetch));
    }
  }

  /** After the final flush nothing is pending; when every write commits,
      every fetched row is recorded and the failures are exactly the
      instruments that failed. */
  lemma {:induction false} FinishAccounting(insts: seq<Instrument>, fetch: string -> Fetch, batchSize: int, flushOk: nat -> bool)
    ensures var t := Finish(Loop(insts, fetch, batchSize, flushOk), flushOk);
      (t.pending == [] && t.requested == |insts|
      && t.success + t.skipped + CountFailed(insts, fetch) == |insts|
      && CountFailed(insts, fetch) <= t.failed <= CountFailed(insts, fetch) + t.flushes
      && t.records <= RowsFetched(insts, fetch)
      && ((forall k :: 0 <= k < t.flushes ==> flushOk(k)) ==>
          (t.records == RowsFetched(insts, fetch) && t.failed == CountFailed(insts, fetch))))
  {
    LoopAccounting(insts, fetch, batchSize, flushOk);
    var t0 := Loop(insts, fetch, batchSize, flushOk);
    var t := Finish(t0, flushOk);
    if (forall k :: 0 <= k < t.flushes ==> flushOk(k)) {
      assert forall k :: 0 <= k < t0.flushes ==> flushOk(k);
    }
  }

  // ------------------------------------------------------------------
  // The whole run
  // ------------------------------------------------------------------

  /** The returned summary; `requested` is absent from the early returns
      that leave it out of the dict. */
  datatype Summary = Summary(success: nat, failed: nat, skipped: nat, total: nat, records: nat, requested: Option<nat>)

  const Zero: Summary := Summary(0, 0, 0, 0, 0, None)

  const StateKey: string := "last_price_download"

  /** The environment of one run: the configured token, the connection,
      the store reads and the outcomes of the calls. */
  datatype Env = Env(hasToken: bool, hasConnection: bool, prevTradingDay: Option<Date>, maxDateBefore: Option<Date>,
                     maxDateAfter: Option<Date>, defaultStart: Date, fetch: string -> Fetch, flushOk: nat -> bool)

  /** `asset_types` given and non-empty keeps the instruments of those types. */
  function Selected(insts: seq<Instrument>, assetTypes: seq<string>): (s: seq<Instrument>)
    ensures assetTypes == [] ==> s == insts
    ensures forall x :: x in s <==> x in insts && (assetTypes == [] || x.assetType in assetTypes)
  {
    if assetTypes == [] then insts
    else if insts == [] then []
    else
      var init := Selected(insts[..|insts| - 1], assetTypes);
      assert forall x :: x in insts <==> x in insts[..|insts| - 1] || x == insts[|insts| - 1];
      if insts[|insts| - 1].assetType in assetTypes then init + [insts[|insts| - 1]] else init
  }

  /** The checkpoint after a run whose counters are `t`. */
  function Advanced(store: map<string, Date>, t: Tally, maxDateAfter: Option<Date>): map<string, Date> {
    if ShouldAdvanceByDefault(t.requested, t.success, t.failed) && maxDateAfter.Some?
    then store[StateKey := maxDateAfter.value] else store
  }

  /** `download_prices` as a function of its inputs: the summary it returns
      (or the exception of the date resolution) and the new checkpoint store. */
  function Download(startArg: Option<Date>, endArg: Option<Date>, assetTypes: seq<string>, batchSize: int,
                    insts: seq<Instrument>, env: Env, store: map<string, Date>): (r: (Result<Summary>, map<string, Date>))
    ensures !env.hasToken || !env.hasConnection ==> r == (Ok(Zero), store)
    ensures r.1 == store || (StateKey in r.1 && r.1 == store[StateKey := r.1[StateKey]])
    ensures r.0.Err? ==> r.0.error == RuntimeError && r.1 == store
  {
    if !env.hasToken || !env.hasConnection then (Ok(Zero), store)
    else
      var range := ResolveDateRange(startArg, endArg, env.prevTradingDay, env.maxDateBefore, env.defaultStart);
      if range.Err? then (Err(range.error), store)
      else if range.value.0 > range.value.1 then (Ok(Zero.(requested := Some(0))), store)
      else
        var sel := Selected(insts, assetTypes);
        if sel == [] then (Ok(Zero), store)
        else
          var t := Finish(Loop(sel, env.fetch, batchSize, env.flushOk), env.flushOk);
          (Ok(Summary(t.success, t.failed, t.skipped, |sel|, t.records, Some(t.requested))),
           Advanced(store, t, env.maxDateAfter))
  }

  /** A range that is already up to date makes no request and leaves the
      checkpoint alone; nothing else in the store ever changes. */
  lemma {:induction false} UpToDateIsNoOp(startArg: Option<Date>, endArg: Option<Date>, assetTypes: seq<string>, batchSize: int,
                                          insts: seq<Instrument>, env: Env, store: map<string, Date>)
    requires env.hasToken && env.hasConnection
    requires ResolveDateRange(startArg, endArg, env.prevTradingDay, env.maxDateBefore, env.defaultStart).Ok?
    requires ResolveDateRange(startArg, endArg, env.prevTradingDay, env.maxDateBefore, env.defaultStart).value.0
           > ResolveDateRange(startArg, endArg, env.prevTradingDay, env.maxDateBefore, env.defaultStart).value.1
    ensures Download(startArg, endArg, assetTypes, batchSize, insts, env, store) == (Ok(Summary(0, 0, 0, 0, 0, Some(0))), store)
  {
  }

  /** The checkpoint moves only to the greatest stored price date after the
      run, and only when the advance rule holds for the run's counters. */
  lemma {:induction false} CheckpointRule(startArg: Option<Date>, endArg: Option<Date>, assetTypes: seq<string>, batchSize: int,
                                          insts: seq<Instrument>, env: Env, store: map<string, Date>)
    ensures var r := Download(startArg, endArg, assetTypes, batchSize, insts, env, store);
      (r.1 != store ==>
        (r.0.Ok? && r.0.value.requested.Some? && env.maxDateAfter.Some? && r.1 == store[StateKey := env.maxDateAfter.value]
        && ShouldAdvanceByDefault(r.0.value.requested.value, r.0.value.success, r.0.value.failed)))
  {
  }

  /** The next run's start as written: it resumes from the greatest stored
      price date and never reads the checkpoint, so a run the advance rule
      refused still moves the next start past every day it stored, and the
      days its failed instruments are missing are not requested again. */
  lemma {:induction false} HeldCheckpointDoesNotHoldResume(startArg: Option<Date>, endArg: Option<Date>, assetTypes: seq<string>,
                                                           batchSize: int, insts: seq<Instrument>, env: Env, store: map<string, Date>,
                                                           nextEnd: Option<Date>, nextPrev: Option<Date>)
    requires Download(startArg, endArg, assetTypes, batchSize, insts, env, store).0.Ok?
    requires Download(startArg, endArg, assetTypes, batchSize, insts, env, store).0.value.requested.Some?
    requires !ShouldAdvanceByDefault(Download(startArg, endArg, assetTypes, batchSize, insts, env, store).0.value.requested.value,
                                     Download(startArg, endArg, assetTypes, batchSize, insts, env, store).0.value.success,
                                     Download(startArg, endArg, assetTypes, batchSize, insts, env, store).0.value.failed)
    requires env.maxDateAfter.Some? && (nextEnd.Some? || nextPrev.Some?)
    ensures Download(startArg, endArg, assetTypes, batchSize, insts, env, store).1 == store
    ensures ResolveDateRange(None, nextEnd, nextPrev, env.maxDateAfter, env.defaultStart).value.0 > env.maxDateAfter.value
  {
    CheckpointRule(startArg, endArg, assetTypes, batchSize, insts, env, store);
    ResumeAfterStored(nextEnd, nextPrev, env.maxDateAfter.value, env.defaultStart);
  }

  /** The resume the checkpoint rule implies: the start is the given one,
      else the day after the checkpoint, else the default start. */
  function StateResolveDateRange(startArg: Option<Date>, endArg: Option<Date>, prevTradingDay: Option<Date>,
                                 store: map<string, Date>, defaultStart: Date): (r: Result<(Date, Date)>)
    ensures r.Err? <==> endArg.None? && prevTradingDay.None?
    ensures r.Ok? ==> r.value.1 == (if endArg.Some? then endArg.value else prevTradingDay.value)
    ensures r.Ok? && startArg.Some? ==> r.value.0 == startArg.value
    ensures r.Ok? && startArg.None? && StateKey in store ==> r.value.0 == store[StateKey] + 1
    ensures r.Ok? && startArg.None? && StateKey !in store ==> r.value.0 == defaultStart
  {
    ResolveDateRange(startArg, endArg, prevTradingDay, if StateKey in store then Some(store[StateKey]) else None, defaultStart)
  }

  /** Resuming from the checkpoint, a run the advance rule refuses leaves the
      next start where it was, so the refused days are requested again; a
      run that advances moves it to the day after the greatest stored date. */
  lemma {:induction false} StateResumeRetriesHeldRun(startArg: Option<Date>, endArg: Option<Date>, assetTypes: seq<string>,
                                                     batchSize: int, insts: seq<Instrument>, env: Env, store: map<string, Date>,
                                                     nextEnd: Option<Date>, nextPrev: Option<Date>)
    requires nextEnd.Some? || nextPrev.Some?
    ensures var r := Download(startArg, endArg, assetTypes, batchSize, insts, env, store);
      var before := StateResolveDateRange(None, nextEnd, nextPrev, store, env.defaultStart).value.0;
      var after := StateResolveDateRange(None, nextEnd, nextPrev, r.1, env.defaultStart).value.0;
      (r.1 == store ==> after == before)
      && (r.1 != store ==> env.maxDateAfter.Some? && after == env.maxDateAfter.value + 1)
  {
    CheckpointRule(startArg, endArg, assetTypes, batchSize, insts, env, store);
  }

  /** The loop of `download_prices`, over the selected instruments. */
  method DownloadLoop(insts: seq<Instrument>, fetch: string -> Fetch, batchSize: int, flushOk: nat -> bool)
    returns (t: Tally)
    ensures t == Finish(Loop(insts, fetch, batchSize, flushOk), flushOk)
  {
    t := Start;
    var i := 0;
    while i < |insts|
      invariant 0 <= i <= |insts|
      invariant t == Loop(insts[..i], fetch, batchSize, flushOk)
    {
      assert insts[..i + 1][..i] == insts[..i];
      var inst := insts[i];
      t := t.(requested := t.requested + 1);
      var fate := FateOf(fetch(inst.ticker), inst.instrumentId);
      if fate == Failed {
        t := t.(failed := t.failed + 1);
      } else if fate == Skipped {
        t := t.(skipped := t.skipped + 1);
      } else {
        t := t.(pending := t.pending + fate.rows, success := t.success + 1);
        if |t.pending| >= batchSize {
          if flushOk(t.flushes) {
            t := t.(records := t.records + |t.pending|, pending := [], flushes := t.flushes + 1);
          } else {
            t := t.(failed := t.failed + 1, pending := [], flushes := t.flushes + 1);
          }
        }
      }
      i := i + 1;
    }
    assert insts[..i] == insts;
    if t.pending != [] {
      t := Flush(t, flushOk);
    }
  }
}
