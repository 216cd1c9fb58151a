/** The extraction of dividends and splits from the stored daily prices into
    corporate-action rows, with its checkpoint rule:
    data_download/input/corporate_actions_extractor.py. */
module CorporateActions {
  import opened Common

  // ------------------------------------------------------------------
  // The date range
  // ------------------------------------------------------------------

  /** The pair `_resolve_date_range` returns. `Sentinel` is its
      `(date.max, date.min)`, whose start lies after its end. */
  datatype Range = Sentinel | Span(first: Date, last: Date)

  /** The run stops at once: the `start_date > end_date` test. */
  predicate IsNoOp(r: Range) {
    r.Sentinel? || r.first > r.last
  }

  /** `_resolve_date_range`: a missing end is the latest stored price date;
      the start is the caller's, else the day after the checkpoint, else the
      earliest stored price date. An empty price table gives the sentinel. */
  function ResolveRange(startArg: Option<Date>, endArg: Option<Date>, lastDone: Option<Date>,
                        maxPriceDate: Option<Date>, minPriceDate: Option<Date>): (r: Range)
    ensures r.Sentinel? <==>
      (endArg.None? && maxPriceDate.None?) || (startArg.None? && lastDone.None? && minPriceDate.None?)
    ensures r.Span? ==> r.last == (if endArg.Some? then endArg.value else maxPriceDate.value)
    ensures r.Span? && startArg.Some? ==> r.first == startArg.value
    ensures r.Span? && startArg.None? && lastDone.Some? ==> r.first == lastDone.value + 1
    ensures r.Span? && startArg.None? && lastDone.None? ==> r.first == minPriceDate.value
  {
    if endArg.None? && maxPriceDate.None? then Sentinel
    else
      var last := if endArg.Some? then endArg.value else maxPriceDate.value;
      if startArg.Some? then Span(startArg.value, last)
      else if lastDone.Some? then Span(lastDone.value + 1, last)
      else if minPriceDate.None? then Sentinel
      else Span(minPriceDate.value, last)
  }

  /** Once the checkpoint has reached the latest stored price date, a run
      without dates has nothing to do. */
  lemma {:induction false} CaughtUpIsNoOp(maxPriceDate: Date, minPriceDate: Option<Date>)
    ensures IsNoOp(ResolveRange(None, None, Some(maxPriceDate), Some(maxPriceDate), minPriceDate))
  {
    var r := ResolveRange(None, None, Some(maxPriceDate), Some(maxPriceDate), minPriceDate);
    assert r.first == maxPriceDate + 1 && r.last == maxPriceDate;
  }

  // ------------------------------------------------------------------
  // Classification of price rows
  // ------------------------------------------------------------------

  /** The columns of a `market_prices` row the extractor reads; `None` is SQL NULL. */
  datatype PriceRow = PriceRow(instrumentId: int, date: Date, dividends: Option<real>, splits: Option<real>)

  predicate HasDividend(p: PriceRow) {
    p.dividends.Some? && p.dividends.value != 0.0
  }

  predicate HasSplit(p: PriceRow) {
    p.splits.Some? && p.splits.value != 1.0
  }

  /** The rows the extraction query returns: those of the range with a
      dividend or a split, in the table order. */
  function Query(prices: seq<PriceRow>, first: Date, last: Date): (rows: seq<PriceRow>)
    ensures |rows| <= |prices|
    ensures forall p :: p in rows <==> p in prices && first <= p.date <= last && (HasDividend(p) || HasSplit(p))
  {
    if prices == [] then []
    else
      var n := |prices|;
      var p := prices[n - 1];
      assert forall q :: q in prices <==> q in prices[..n - 1] || q == p;
      Query(prices[..n - 1], first, last) + (if first <= p.date <= last && (HasDividend(p) || HasSplit(p)) then [p] else [])
  }

  datatype ActionType = DividendCash | Split | ReverseSplit

  /** A `corporate_actions` row; its raw payload is always null. */
  datatype Action = Action(instrumentId: int, actionDate: Date, actionType: ActionType, actionValue: real,
                           currency: string, dataSource: string)

  /** The actions of one row: a cash dividend first when the dividend is
      non-zero, then a split (factor above 1) or reverse split (below 1)
      when the split factor is not 1. */
  function ActionsOf(p: PriceRow): (acts: seq<Action>)
    ensures |acts| == (if HasDividend(p) then 1 else 0) + (if HasSplit(p) then 1 else 0)
    ensures forall a :: a in acts ==>
      (a.instrumentId == p.instrumentId && a.actionDate == p.date && a.currency == "USD" && a.dataSource == "tiingo")
    ensures HasDividend(p) <==> (|acts| > 0 && acts[0].actionType == DividendCash)
    ensures HasDividend(p) ==> acts[0].actionValue == p.dividends.value
    ensures HasSplit(p) <==> (|acts| > 0 && acts[|acts| - 1].actionType != DividendCash)
    ensures HasSplit(p) ==> acts[|acts| - 1].actionValue == p.splits.value
    ensures HasSplit(p) ==> (acts[|acts| - 1].actionType == Split <==> p.splits.value > 1.0)
  {
    (if HasDividend(p) then [Action(p.instrumentId, p.date, DividendCash, p.dividends.value, "USD", "tiingo")] else [])
    + (if HasSplit(p)
       then [Action(p.instrumentId, p.date, if p.splits.value > 1.0 then Split else ReverseSplit, p.splits.value, "USD", "tiingo")]
       else [])
  }

  /** The actions of the rows, row by row. */
  function AllActions(rows: seq<PriceRow>): (acts: seq<Action>)
    ensures forall a :: a in acts ==> a.currency == "USD" && a.dataSource == "tiingo"
  {
    if rows == [] then [] else AllActions(rows[..|rows| - 1]) + ActionsOf(rows[|rows| - 1])
  }

  /** Row order is kept: the actions of two runs of rows are those of the
      first run followed by those of the second. */
  lemma {:induction false} AllActionsAppend(r1: seq<PriceRow>, r2: seq<PriceRow>)
    ensures AllActions(r1 + r2) == AllActions(r1) + AllActions(r2)
    decreases |r2|
  {
    if r2 == [] {
      assert r1 + r2 == r1;
    } else {
      var n := |r2|;
      assert (r1 + r2)[..|r1 + r2| - 1] == r1 + r2[..n - 1];
      assert (r1 + r2)[|r1 + r2| - 1] == r2[n - 1];
      AllActionsAppend(r1, r2[..n - 1]);
    }
  }

  /** Every action belongs to a row's instrument and date. */
  lemma {:induction false} AllActionsFromRows(rows: seq<PriceRow>)
    ensures forall a :: a in AllActions(rows) ==>
      exists p :: p in rows && a.instrumentId == p.instrumentId && a.actionDate == p.date
    decreases |rows|
  {
    if rows != [] {
      var n := |rows|;
      AllActionsFromRows(rows[..n - 1]);
      forall a | a in AllActions(rows)
        ensures exists p :: p in rows && a.instrumentId == p.instrumentId && a.actionDate == p.date
      {
        if a in AllActions(rows[..n - 1]) {
          var p :| p in rows[..n - 1] && a.instrumentId == p.instrumentId && a.actionDate == p.date;
          assert p in rows;
        } else {
          assert a in ActionsOf(rows[n - 1]);
        }
      }
    }
  }

  /** The number of actions is the number of dividends plus the number of splits. */
  function Events(rows: seq<PriceRow>): nat {
    if rows == [] then 0
    else Events(rows[..|rows| - 1]) + (if HasDividend(rows[|rows| - 1]) then 1 else 0)
         + (if HasSplit(rows[|rows| - 1]) then 1 else 0)
  }

  lemma {:induction false} AllActionsCount(rows: seq<PriceRow>)
    ensures |AllActions(rows)| == Events(rows)
    decreases |rows|
  {
    if rows != [] {
      AllActionsCount(rows[..|rows| - 1]);
    }
  }

  /** The loop of `_extract_actions_from_market_prices`, appending to `actions`. */
  method ExtractActions(rows: seq<PriceRow>) returns (actions: seq<Action>)
    ensures actions == AllActions(rows)
  {
    actions := [];
    var i := 0;
    while i < |rows|
      invariant 0 <= i <= |rows|
      invariant actions == AllActions(rows[..i])
    {
      assert rows[..i + 1][..i] == rows[..i];
      var p := rows[i];
      if HasDividend(p) {
        actions := actions + [Action(p.instrumentId, p.date, DividendCash, p.dividends.value, "USD", "tiingo")];
      }
      if HasSplit(p) {
        var sf := p.splits.value;
        var actionType := if sf > 1.0 then Split else ReverseSplit;
        actions := actions + [Action(p.instrumentId, p.date, actionType, sf, "USD", "tiingo")];
      }
      i := i + 1;
    }
    assert rows[..i] == rows;
  }

  // ------------------------------------------------------------------
  // Chunked writes
  // ------------------------------------------------------------------

  /** The chunks `actions[i : i + size]` for `i` in `range(0, n, size)`. */
  function Chunks(s: seq<Action>, size: nat): (cs: seq<seq<Action>>)
    requires size > 0
    decreases |s|
  {
    if s == [] then []
    else if |s| <= size then [s]
    else [s[..size]] + Chunks(s[size..], size)
  }

  /** The chunks one after the other. */
  function Concat(cs: seq<seq<Action>>): seq<Action> {
    if cs == [] then [] else Concat(cs[..|cs| - 1]) + cs[|cs| - 1]
  }

  /** Every chunk holds between one and `size` actions, and the chunks are
      as many as `size`-sized steps cover the input. */
  lemma {:induction false} ChunksBounded(s: seq<Action>, size: nat)
    requires size > 0
    ensures forall c :: c in Chunks(s, size) ==> 0 < |c| <= size
    ensures (|Chunks(s, size)| - 1) * size < |s| <= |Chunks(s, size)| * size
    decreases |s|
  {
    if s != [] && |s| > size {
      ChunksBounded(s[size..], size);
      var k := |Chunks(s[size..], size)|;
      assert |Chunks(s, size)| == k + 1;
      assert (k + 1) * size == k * size + size;
    }
  }

  /** One step of the chunk loop: the chunk starting at `i` is the first of
      the rest, and the ones after it start at its end. */
  lemma {:induction false} ChunksStep(s: seq<Action>, i: nat, hi: nat, size: nat)
    requires size > 0 && i < |s|
    requires hi == if i + size <= |s| then i + size else |s|
    ensures Chunks(s[i..], size) == [s[i..hi]] + Chunks(s[hi..], size)
  {
    var rest := s[i..];
    if hi < |s| {
      assert rest[..size] == s[i..hi];
      assert rest[size..] == s[hi..];
    } else {
      assert rest == s[i..hi];
      assert s[hi..] == [];
    }
  }

  /** The chunk loop's invariant carried past one more written chunk. */
  lemma {:induction false} ChunkLoopStep(actions: seq<Action>, size: nat, cs: seq<seq<Action>>, i: nat, hi: nat, k: nat,
                                    written: seq<Action>)
    requires size > 0 && i < |actions| && hi == if i + size <= |actions| then i + size else |actions|
    requires k <= |cs| && cs[k..] == Chunks(actions[i..], size)
    requires written == actions[..i] && written == Concat(cs[..k])
    ensures k < |cs| && cs[k] == actions[i..hi] && cs[k + 1..] == Chunks(actions[hi..], size)
    ensures actions[..hi] == written + actions[i..hi] && written + actions[i..hi] == Concat(cs[..k + 1])
  {
    ChunksStep(actions, i, hi, size);
    assert cs[k..][0] == cs[k] && cs[k..][1..] == cs[k + 1..];
    assert cs[..k + 1][..k] == cs[..k];
  }

  /** The chunk loop: `range(0, len(actions), batch_size)` raises
      `ValueError` for a zero step and is empty for a negative one; each
      chunk is written and counted, and a write that fails (`insertOk` false
      for its chunk number, raising `RuntimeError`) stops the loop. */
  method InsertChunks(actions: seq<Action>, batchSize: int, insertOk: nat -> bool)
    returns (r: Result<nat>, written: seq<Action>)
    ensures batchSize == 0 ==> r == Err(ValueError) && written == []
    ensures batchSize < 0 ==> r == Ok(0) && written == []
    ensures batchSize > 0 ==>
      (r.Ok? <==> forall k :: 0 <= k < |Chunks(actions, batchSize)| ==> insertOk(k))
    ensures batchSize > 0 && r.Ok? ==> r.value == |actions| && written == actions
    ensures batchSize > 0 && r.Err? ==>
      (r.error == RuntimeError
       && exists k :: 0 <= k < |Chunks(actions, batchSize)| && !insertOk(k)
            && (forall j :: 0 <= j < k ==> insertOk(j)) && written == Concat(Chunks(actions, batchSize)[..k]))
  {
    if batchSize == 0 {
      return Err(ValueError), [];
    }
    if batchSize < 0 {
      return Ok(0), [];
    }
    var n := |actions|;
    ghost var cs := Chunks(actions, batchSize);
    var inserted := 0;
    written := [];
    var i := 0;
    var k := 0;
    assert actions[0..] == actions;
    while i < n
      invariant 0 <= i <= n && 0 <= k <= |cs|
      invariant cs[k..] == Chunks(actions[i..], batchSize)
      invariant forall j :: 0 <= j < k ==> insertOk(j)
      invariant inserted == |written| && written == actions[..i] && written == Concat(cs[..k])
      decreases n - i
    {
      var hi := if i + batchSize <= n then i + batchSize else n;
      var chunk := actions[i..hi];
      ChunkLoopStep(actions, batchSize, cs, i, hi, k, written);
      if !insertOk(k) {
        return Err(RuntimeError), written;
      }
      written := written + chunk;
      inserted := inserted + |chunk|;
      i := hi;
      k := k + 1;
    }
    assert k == |cs|;
    assert written == actions;
    r := Ok(inserted);
  }

  // ------------------------------------------------------------------
  // The whole run
  // ------------------------------------------------------------------

  /** What the run reads: whether a connection opens, `MAX(date)` and
      `MIN(date)` of `market_prices`, the price rows in the order the query
      sorts them, and which chunk writes succeed. */
  datatype Env = Env(hasConnection: bool, maxPriceDate: Option<Date>, minPriceDate: Option<Date>,
                     prices: seq<PriceRow>, insertOk: nat -> bool)

  /** The returned `{"inserted": …, "events": …}`. */
  datatype Counts = Counts(inserted: nat, events: nat)

  const DefaultStateKey := "last_corporate_actions_extract"

  function StoredDate(store: map<string, Date>, key: string): Option<Date> {
    if key in store then Some(store[key]) else None
  }

  /** `extract_corporate_actions`: resolve the range, extract, write in
      chunks, then set the checkpoint to the latest stored price date. */
  method Extract(startArg: Option<Date>, endArg: Option<Date>, batchSize: int, stateKey: string,
                 env: Env, store: map<string, Date>)
    returns (r: Result<Counts>, store': map<string, Date>, written: seq<Action>)
    ensures !env.hasConnection ==> r == Ok(Counts(0, 0)) && store' == store && written == []
    ensures (env.hasConnection &&
      IsNoOp(ResolveRange(startArg, endArg, StoredDate(store, stateKey), env.maxPriceDate, env.minPriceDate))) ==>
      r == Ok(Counts(0, 0)) && store' == store && written == []
    ensures r.Err? ==> store' == store
    ensures (env.hasConnection && r.Ok? &&
      !IsNoOp(ResolveRange(startArg, endArg, StoredDate(store, stateKey), env.maxPriceDate, env.minPriceDate))) ==>
      var range := ResolveRange(startArg, endArg, StoredDate(store, stateKey), env.maxPriceDate, env.minPriceDate);
      r.value.events == Events(Query(env.prices, range.first, range.last))
      && store' == (if env.maxPriceDate.Some? then store[stateKey := env.maxPriceDate.value] else store)
    ensures r.Ok? && batchSize <= 0 ==> r.value.inserted == 0 || r.value.events == 0
    ensures r.Ok? && batchSize > 0 ==> r.value.inserted == r.value.events && |written| == r.value.events
    ensures r.Err? ==> (batchSize == 0 && r.error == ValueError) || (batchSize > 0 && r.error == RuntimeError)
    ensures batchSize <= 0 ==> written == []
    ensures (env.hasConnection && r.Ok? && batchSize > 0 &&
      !IsNoOp(ResolveRange(startArg, endArg, StoredDate(store, stateKey), env.maxPriceDate, env.minPriceDate))) ==>
      var range := ResolveRange(startArg, endArg, StoredDate(store, stateKey), env.maxPriceDate, env.minPriceDate);
      written == AllActions(Query(env.prices, range.first, range.last))
    ensures r.Err? && batchSize > 0 ==>
      var range := ResolveRange(startArg, endArg, StoredDate(store, stateKey), env.maxPriceDate, env.minPriceDate);
      var cs := Chunks(AllActions(Query(env.prices, range.first, range.last)), batchSize);
      exists k :: 0 <= k < |cs| && !env.insertOk(k) && (forall j :: 0 <= j < k ==> env.insertOk(j))
        && written == Concat(cs[..k])
  {
    if !env.hasConnection {
      return Ok(Counts(0, 0)), store, [];
    }
    var range := ResolveRange(startArg, endArg, StoredDate(store, stateKey), env.maxPriceDate, env.minPriceDate);
    if IsNoOp(range) {
      return Ok(Counts(0, 0)), store, [];
    }
    var actions := ExtractActions(Query(env.prices, range.first, range.last));
    var events := |actions|;
    AllActionsCount(Query(env.prices, range.first, range.last));
    var inserted := 0;
    written := [];
    if actions != [] {
      var res;
      res, written := InsertChunks(actions, batchSize, env.insertOk);
      if res.Err? {
        return Err(res.error), store, written;
      }
      inserted := res.value;
    }
    store' := if env.maxPriceDate.Some? then store[stateKey := env.maxPriceDate.value] else store;
    r := Ok(Counts(inserted, events));
  }
}
