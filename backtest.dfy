/** The backtest orchestrator of engine/backtest_runner.py: the choice of
    monthly rebalance dates from the trading calendar, equal weighting of the
    selected instruments, and the day loop that rebalances a portfolio and
    writes one snapshot per rebalance date.

    The collaborators the runner calls (trading calendar, universe provider,
    scoring strategy, selector, price lookup, snapshot table) are parameters:
    an `Env` of functions, and a log of the writes the runner issues. */
module Backtest {
  import opened Common
  import opened Text
  import opened PortfolioSim

  // ------------------------------------------------------------------
  // Calendar dates
  // ------------------------------------------------------------------

  /** A calendar date, as the `YYYY-MM-DD` strings the runner handles. */
  datatype Ymd = Ymd(year: nat, month: nat, day: nat)

  function MonthOf(d: Ymd): (nat, nat) {
    (d.year, d.month)
  }

  /** Chronological order, which is also the order of the ISO strings. */
  predicate Before(a: Ymd, b: Ymd) {
    a.year < b.year
    || (a.year == b.year && (a.month < b.month || (a.month == b.month && a.day < b.day)))
  }

  /** The ISO form `YYYY-MM-DD` under which the snapshot rows are stored. */
  function Iso(d: Ymd): string {
    ZFill(Decimal(d.year), 4) + "-" + ZFill(Decimal(d.month), 2) + "-" + ZFill(Decimal(d.day), 2)
  }

  /** The `rebalance_day` setting: 'last', 'first', an int, or any other value. */
  datatype RebalanceDay = Last | First | DayOfMonth(n: int) | Unsupported

  // ------------------------------------------------------------------
  // Equal weights (`_equal_weight`)
  // ------------------------------------------------------------------

  /** Each id paired with the same weight `w`. */
  function Weighted(ids: seq<int>, w: real): (ts: seq<(int, real)>)
    ensures |ts| == |ids|
    ensures forall i :: 0 <= i < |ids| ==> ts[i] == (ids[i], w)
  {
    if ids == [] then [] else Weighted(ids[..|ids| - 1], w) + [(ids[|ids| - 1], w)]
  }

  /** `{i: 1 / len(ids) for i in ids}`: the dict keeps one entry per distinct
      id, each weighted by one over the length of the list (repetitions
      included); an empty list is a ValueError. */
  function EqualWeight(ids: seq<int>): (r: Result<seq<(int, real)>>)
  {
    if ids == [] then Err(ValueError) else Ok(Weighted(Dedup(ids), 1.0 / |ids| as real))
  }

  /** The sum of the weights of a target list. */
  function TotalWeight(ts: seq<(int, real)>): real {
    if ts == [] then 0.0 else TotalWeight(ts[..|ts| - 1]) + ts[|ts| - 1].1
  }

  lemma {:induction false} WeightedKeys(ids: seq<int>, w: real)
    ensures KeysOf(Weighted(ids, w)) == ids
  {
    var ks := KeysOf(Weighted(ids, w));
    assert |ks| == |ids|;
    assert forall i :: 0 <= i < |ids| ==> ks[i] == ids[i];
  }

  lemma {:induction false} WeightedTotal(ids: seq<int>, w: real)
    ensures TotalWeight(Weighted(ids, w)) == |ids| as real * w
  {
    if ids != [] {
      var n := |ids|;
      WeightedTotal(ids[..n - 1], w);
      assert Weighted(ids, w)[..n - 1] == Weighted(ids[..n - 1], w);
      ScaleSum(w, (n - 1) as real, 1.0, n as real);
    }
  }

  /** `_equal_weight` fails exactly on the empty list, with ValueError;
      otherwise its keys are the distinct ids, each with weight 1/len(ids). */
  lemma {:induction false} EqualWeightSpec(ids: seq<int>)
    ensures EqualWeight(ids).Err? <==> ids == []
    ensures EqualWeight(ids).Err? ==> EqualWeight(ids).error == ValueError
    ensures EqualWeight(ids).Ok? ==>
      var ts := EqualWeight(ids).value;
      Distinct(KeysOf(ts))
      && (forall id :: id in KeysOf(ts) <==> id in ids)
      && (forall i :: 0 <= i < |ts| ==> ts[i].1 == 1.0 / |ids| as real)
  {
    if ids != [] {
      WeightedKeys(Dedup(ids), 1.0 / |ids| as real);
    }
  }

  /** Distinct ids get weights that sum to 1. */
  lemma {:induction false} EqualWeightSumsToOne(ids: seq<int>)
    requires ids != [] && Distinct(ids)
    ensures TotalWeight(EqualWeight(ids).value) == 1.0
  {
    var n := |ids| as real;
    DedupDistinct(ids);
    WeightedTotal(ids, 1.0 / n);
    assert n * (1.0 / n) == 1.0;
  }

  // ------------------------------------------------------------------
  // Rebalance dates (`_generate_rebalance_dates`)
  // ------------------------------------------------------------------

  /** For 'last' (`latest`) a later date of the same month replaces the one
      kept so far; for 'first' an earlier one does. */
  predicate Better(latest: bool, d: Ymd, e: Ymd) {
    if latest then Before(e, d) else Before(d, e)
  }

  /** The group-by over (year, month): the date kept for each month present. */
  function Picks(days: seq<Ymd>, latest: bool): map<(nat, nat), Ymd> {
    if days == [] then map[]
    else
      var m := Picks(days[..|days| - 1], latest);
      var d := days[|days| - 1];
      if MonthOf(d) in m && !Better(latest, d, m[MonthOf(d)]) then m else m[MonthOf(d) := d]
  }

  lemma {:induction false} PicksSpec(days: seq<Ymd>, latest: bool)
    ensures forall k :: k in Picks(days, latest) ==> MonthOf(Picks(days, latest)[k]) == k && Picks(days, latest)[k] in days
    ensures forall d :: d in days ==> MonthOf(d) in Picks(days, latest) && !Better(latest, d, Picks(days, latest)[MonthOf(d)])
  {
    if days != [] {
      var n := |days|;
      PicksSpec(days[..n - 1], latest);
      assert forall d :: d in days <==> d in days[..n - 1] || d == days[n - 1];
    }
  }

  /** The month of each trading day, in order. */
  function Months(days: seq<Ymd>): (ms: seq<(nat, nat)>)
    ensures |ms| == |days|
    ensures forall i :: 0 <= i < |days| ==> ms[i] == MonthOf(days[i])
  {
    if days == [] then [] else Months(days[..|days| - 1]) + [MonthOf(days[|days| - 1])]
  }

  /** The rebalance date of one month for an int `rebalance_day`: the literal
      date if it is a trading day; else the calendar's next trading day after
      it, provided that day is among the run's trading days (whatever its
      month). */
  function DayTarget(ym: (nat, nat), n: nat, days: seq<Ymd>, next: Ymd -> Option<Ymd>): Option<Ymd> {
    var target := Ymd(ym.0, ym.1, n);
    if target in days then Some(target)
    else
      match next(target)
      case None => None
      case Some(t) => if t in days then Some(t) else None
  }

  /** The dates the int branch adds, one month after the other. */
  function DayDates(months: seq<(nat, nat)>, n: nat, days: seq<Ymd>, next: Ymd -> Option<Ymd>): set<Ymd> {
    if months == [] then {}
    else
      DayDates(months[..|months| - 1], n, days, next)
        + match DayTarget(months[|months| - 1], n, days, next)
          case None => {}
          case Some(t) => {t}
  }

  /** `_generate_rebalance_dates`: a set of trading days, or ValueError for an
      int outside 1..28 or a setting that is none of 'last', 'first', int. */
  function RebalanceDates(days: seq<Ymd>, rule: RebalanceDay, next: Ymd -> Option<Ymd>): Result<set<Ymd>> {
    match rule
    case Last => Ok(Picks(days, true).Values)
    case First => Ok(Picks(days, false).Values)
    case DayOfMonth(n) => if 1 <= n <= 28 then Ok(DayDates(Dedup(Months(days)), n, days, next)) else Err(ValueError)
    case Unsupported => Err(ValueError)
  }

  /** 'last' keeps, for each (year, month) of the trading days, exactly one
      date: the latest trading day of that month. */
  lemma {:induction false} LastDatesAreMonthEnds(days: seq<Ymd>, next: Ymd -> Option<Ymd>)
    ensures RebalanceDates(days, Last, next).Ok?
    ensures var r := RebalanceDates(days, Last, next).value;
      (forall d :: d in r ==> d in days && forall e :: e in days && MonthOf(e) == MonthOf(d) ==> !Before(d, e))
      && (forall e :: e in days ==> exists d :: d in r && MonthOf(d) == MonthOf(e))
      && (forall d, d' :: d in r && d' in r && MonthOf(d) == MonthOf(d') ==> d == d')
  {
    PicksSpec(days, true);
    var m := Picks(days, true);
    forall e | e in days ensures exists d :: d in m.Values && MonthOf(d) == MonthOf(e) {
      assert m[MonthOf(e)] in m.Values;
    }
  }

  /** 'first' keeps, for each (year, month) of the trading days, exactly one
      date: the earliest trading day of that month. */
  lemma {:induction false} FirstDatesAreMonthStarts(days: seq<Ymd>, next: Ymd -> Option<Ymd>)
    ensures RebalanceDates(days, First, next).Ok?
    ensures var r := RebalanceDates(days, First, next).value;
      (forall d :: d in r ==> d in days && forall e :: e in days && MonthOf(e) == MonthOf(d) ==> !Before(e, d))
      && (forall e :: e in days ==> exists d :: d in r && MonthOf(d) == MonthOf(e))
      && (forall d, d' :: d in r && d' in r && MonthOf(d) == MonthOf(d') ==> d == d')
  {
    PicksSpec(days, false);
    var m := Picks(days, false);
    forall e | e in days ensures exists d :: d in m.Values && MonthOf(d) == MonthOf(e) {
      assert m[MonthOf(e)] in m.Values;
    }
  }

  lemma {:induction false} DayDatesSpec(months: seq<(nat, nat)>, n: nat, days: seq<Ymd>, next: Ymd -> Option<Ymd>)
    ensures forall d :: d in DayDates(months, n, days, next) ==> d in days
    ensures forall d :: d in DayDates(months, n, days, next) <==>
      exists k :: 0 <= k < |months| && DayTarget(months[k], n, days, next) == Some(d)
  {
    if months != [] {
      var l := |months|;
      DayDatesSpec(months[..l - 1], n, days, next);
      assert forall k :: 0 <= k < l - 1 ==> months[..l - 1][k] == months[k];
    }
  }

  /** For an int day in 1..28, each month's literal date is chosen when it is
      a trading day, and every chosen date is either a month's literal date or
      the calendar's next trading day after a literal date that is not a
      trading day; nothing requires it to fall in the same month. */
  lemma {:induction false} DayOfMonthDates(days: seq<Ymd>, n: int, next: Ymd -> Option<Ymd>)
    requires 1 <= n <= 28
    ensures RebalanceDates(days, DayOfMonth(n), next).Ok?
    ensures var r := RebalanceDates(days, DayOfMonth(n), next).value;
      (forall e :: e in days && Ymd(e.year, e.month, n) in days ==> Ymd(e.year, e.month, n) in r)
      && (forall d :: d in r ==> d in days && DayOrigin(days, n, next, d))
  {
    var ms := Dedup(Months(days));
    DayDatesSpec(ms, n, days, next);
    DayOfMonthHit(days, n, next, ms);
    DayOfMonthOrigin(days, n, next, ms);
  }

  /** `d` is the day-`n` date of a month with trading days, or the next
      trading day after it when that date is not one. */
  ghost predicate DayOrigin(days: seq<Ymd>, n: nat, next: Ymd -> Option<Ymd>, d: Ymd) {
    exists e :: e in days &&
      (d == Ymd(e.year, e.month, n) || (Ymd(e.year, e.month, n) !in days && next(Ymd(e.year, e.month, n)) == Some(d)))
  }

  lemma {:induction false} DayOfMonthHit(days: seq<Ymd>, n: int, next: Ymd -> Option<Ymd>, ms: seq<(nat, nat)>)
    requires 1 <= n <= 28 && ms == Dedup(Months(days))
    ensures forall e :: e in days && Ymd(e.year, e.month, n) in days ==>
      Ymd(e.year, e.month, n) in DayDates(ms, n, days, next)
  {
    DayDatesSpec(ms, n, days, next);
    var r := DayDates(ms, n, days, next);
    forall e | e in days && Ymd(e.year, e.month, n) in days ensures Ymd(e.year, e.month, n) in r {
      assert MonthOf(e) in Months(days);
      var k :| 0 <= k < |ms| && ms[k] == MonthOf(e);
      assert DayTarget(ms[k], n, days, next) == Some(Ymd(e.year, e.month, n));
    }
  }

  lemma {:induction false} DayOfMonthOrigin(days: seq<Ymd>, n: int, next: Ymd -> Option<Ymd>, ms: seq<(nat, nat)>)
    requires 1 <= n <= 28 && ms == Dedup(Months(days))
    ensures forall d :: d in DayDates(ms, n, days, next) ==> DayOrigin(days, n, next, d)
  {
    DayDatesSpec(ms, n, days, next);
    var r := DayDates(ms, n, days, next);
    forall d | d in r ensures DayOrigin(days, n, next, d)
    {
      var k :| 0 <= k < |ms| && DayTarget(ms[k], n, days, next) == Some(d);
      MonthOrigin(days, n, next, ms, k, d);
    }
  }

  /** The date one month gives comes from a trading day of that month. */
  lemma {:induction false} MonthOrigin(days: seq<Ymd>, n: int, next: Ymd -> Option<Ymd>, ms: seq<(nat, nat)>, k: nat, d: Ymd)
    requires 1 <= n <= 28 && ms == Dedup(Months(days))
    requires k < |ms| && DayTarget(ms[k], n, days, next) == Some(d)
    ensures DayOrigin(days, n, next, d)
  {
    assert ms[k] in Months(days);
    var i :| 0 <= i < |days| && Months(days)[i] == ms[k];
    var e := days[i];
    assert Ymd(e.year, e.month, n) == Ymd(ms[k].0, ms[k].1, n);
  }

  /** Every generated rebalance date is one of the trading days; the only
      failures are the ValueErrors of an int outside 1..28 and of an
      unsupported setting. */
  lemma {:induction false} RebalanceDatesAreTradingDays(days: seq<Ymd>, rule: RebalanceDay, next: Ymd -> Option<Ymd>)
    ensures RebalanceDates(days, rule, next).Err? <==> rule.Unsupported? || (rule.DayOfMonth? && !(1 <= rule.n <= 28))
    ensures RebalanceDates(days, rule, next).Err? ==> RebalanceDates(days, rule, next).error == ValueError
    ensures RebalanceDates(days, rule, next).Ok? ==> forall d :: d in RebalanceDates(days, rule, next).value ==> d in days
  {
    match rule
    case Last => LastDatesAreMonthEnds(days, next);
    case First => FirstDatesAreMonthStarts(days, next);
    case DayOfMonth(n) =>
      if 1 <= n <= 28 {
        DayOfMonthDates(days, n, next);
      }
    case Unsupported =>
  }

  /** A calendar with no trading day between 2024-01-02 and 2024-02-01. */
  function GapCalendar(d: Ymd): Option<Ymd> {
    if d == Ymd(2024, 1, 28) then Some(Ymd(2024, 2, 1)) else None
  }

  /** With a gap in the calendar, the day-28 rule of January picks a
      February trading day: the roll-forward has no same-month check. */
  lemma {:induction false} RollsIntoNextMonth()
    ensures RebalanceDates([Ymd(2024, 1, 2), Ymd(2024, 2, 1)], DayOfMonth(28), GapCalendar) == Ok({Ymd(2024, 2, 1)})
  {
    var days := [Ymd(2024, 1, 2), Ymd(2024, 2, 1)];
    GapMonths();
    GapDayDates();
    assert RebalanceDates(days, DayOfMonth(28), GapCalendar) == Ok(DayDates(Dedup(Months(days)), 28, days, GapCalendar));
  }

  /** The two calendar months of `RollsIntoNextMonth`, each once. */
  lemma {:induction false} GapMonths()
    ensures Dedup(Months([Ymd(2024, 1, 2), Ymd(2024, 2, 1)])) == [(2024, 1), (2024, 2)]
  {
    var days := [Ymd(2024, 1, 2), Ymd(2024, 2, 1)];
    var m: seq<(nat, nat)> := [(2024, 1), (2024, 2)];
    assert days[..1] == [Ymd(2024, 1, 2)] && days[..1][..0] == [];
    assert Months(days) == m;
    assert m[..1] == [(2024, 1)] && m[..1][..0] == [];
    assert Dedup(m[..1]) == [(2024, 1)];
  }

  /** January's day 28 rolls to February 1; February's has no successor. */
  lemma {:induction false} GapDayDates()
    ensures DayDates([(2024, 1), (2024, 2)], 28, [Ymd(2024, 1, 2), Ymd(2024, 2, 1)], GapCalendar) == {Ymd(2024, 2, 1)}
  {
    var days := [Ymd(2024, 1, 2), Ymd(2024, 2, 1)];
    var m: seq<(nat, nat)> := [(2024, 1), (2024, 2)];
    assert m[..1] == [(2024, 1)] && m[..1][..0] == [];
    assert Ymd(2024, 1, 28) !in days && Ymd(2024, 2, 28) !in days;
    assert DayTarget((2024, 1), 28, days, GapCalendar) == Some(Ymd(2024, 2, 1));
    assert DayTarget((2024, 2), 28, days, GapCalendar) == None;
    assert DayDates(m[..1], 28, days, GapCalendar) == {Ymd(2024, 2, 1)};
  }

  /** The roll-forward the comment at engine/backtest_runner.py:196 asks
      for: the calendar's next trading day is taken only when it is a
      trading day of the run in the same month. */
  function SameMonthDayTarget(ym: (nat, nat), n: nat, days: seq<Ymd>, next: Ymd -> Option<Ymd>): (r: Option<Ymd>)
    ensures r.Some? ==> r.value in days && MonthOf(r.value) == ym
  {
    var target := Ymd(ym.0, ym.1, n);
    if target in days then Some(target)
    else
      match next(target)
      case None => None
      case Some(t) => if t in days && MonthOf(t) == ym then Some(t) else None
  }

  /** The same-month rule keeps the code's choice exactly when that choice
      lies in the target's month, and picks nothing otherwise. */
  lemma {:induction false} SameMonthRestrictsCode(ym: (nat, nat), n: nat, days: seq<Ymd>, next: Ymd -> Option<Ymd>)
    ensures var code := DayTarget(ym, n, days, next);
      SameMonthDayTarget(ym, n, days, next) == (if code.Some? && MonthOf(code.value) == ym then code else None)
  {
  }

  /** The dates the same-month rule adds, one month after the other. */
  function SameMonthDayDates(months: seq<(nat, nat)>, n: nat, days: seq<Ymd>, next: Ymd -> Option<Ymd>): set<Ymd> {
    if months == [] then {}
    else
      SameMonthDayDates(months[..|months| - 1], n, days, next)
        + match SameMonthDayTarget(months[|months| - 1], n, days, next)
          case None => {}
          case Some(t) => {t}
  }

  /** Every date the same-month rule adds is a trading day of one of the
      months it was asked about. */
  lemma {:induction false} SameMonthDatesInMonth(months: seq<(nat, nat)>, n: nat, days: seq<Ymd>, next: Ymd -> Option<Ymd>)
    ensures forall d :: d in SameMonthDayDates(months, n, days, next) ==> d in days && MonthOf(d) in months
  {
    if months != [] {
      var m := |months|;
      SameMonthDatesInMonth(months[..m - 1], n, days, next);
      forall d | d in SameMonthDayDates(months[..m - 1], n, days, next) ensures MonthOf(d) in months {
        assert MonthOf(d) in months[..m - 1];
      }
    }
  }

  /** On the calendar of `RollsIntoNextMonth` the same-month rule adds no
      date at all, where the code adds 2024-02-01 for January. */
  lemma {:induction false} SameMonthGap()
    ensures SameMonthDayDates([(2024, 1), (2024, 2)], 28, [Ymd(2024, 1, 2), Ymd(2024, 2, 1)], GapCalendar) == {}
  {
    var days := [Ymd(2024, 1, 2), Ymd(2024, 2, 1)];
    var m: seq<(nat, nat)> := [(2024, 1), (2024, 2)];
    assert m[..1] == [(2024, 1)] && m[..1][..0] == [];
    assert Ymd(2024, 1, 28) !in days && Ymd(2024, 2, 28) !in days;
    assert SameMonthDayTarget((2024, 1), 28, days, GapCalendar) == None;
    assert SameMonthDayTarget((2024, 2), 28, days, GapCalendar) == None;
  }

  /** The loop of the int branch, adding each month's date to the set. */
  method CollectDayDates(months: seq<(nat, nat)>, n: nat, days: seq<Ymd>, next: Ymd -> Option<Ymd>)
    returns (rebalance: set<Ymd>)
    ensures rebalance == DayDates(months, n, days, next)
  {
    rebalance := {};
    var i := 0;
    while i < |months|
      invariant 0 <= i <= |months|
      invariant rebalance == DayDates(months[..i], n, days, next)
    {
      assert months[..i + 1][..i] == months[..i];
      var target := Ymd(months[i].0, months[i].1, n);
      if target in days {
        rebalance := rebalance + {target};
      } else {
        var nextDay := next(target);
        if nextDay.Some? && nextDay.value in days {
          rebalance := rebalance + {nextDay.value};
        }
      }
      i := i + 1;
    }
    assert months[..|months|] == months;
  }

  method GenerateRebalanceDates(days: seq<Ymd>, rule: RebalanceDay, next: Ymd -> Option<Ymd>)
    returns (r: Result<set<Ymd>>)
    ensures r == RebalanceDates(days, rule, next)
  {
    match rule
    case Last => r := Ok(Picks(days, true).Values);
    case First => r := Ok(Picks(days, false).Values);
    case DayOfMonth(n) =>
      if !(1 <= n <= 28) {
        return Err(ValueError);
      }
      var dates := CollectDayDates(Dedup(Months(days)), n, days, next);
      r := Ok(dates);
    case Unsupported => r := Err(ValueError);
  }

  // ------------------------------------------------------------------
  // The day loop (`run`)
  // ------------------------------------------------------------------

  /** The collaborators of one run: the universe of a date, the scoring
      strategy (which may raise), the selector's chosen ids (which may raise)
      and the non-strict price lookup for a set of ids on a date. */
  datatype Env<!S> = Env(universe: Ymd -> seq<int>,
                        score: (Ymd, seq<int>) -> Result<S>,
                        select: S -> Result<seq<int>>,
                        pricesOn: (set<int>, Ymd) -> map<int, real>)

  /** The writes of the runner to the snapshot table. */
  datatype SinkOp = DeleteDate(date: Ymd) | InsertRows(date: Ymd, rows: seq<SnapshotRow>)

  /** The portfolio, the writes issued so far and whether an exception ended
      the run. */
  datatype Progress = Progress(book: Book, log: seq<SinkOp>, outcome: Outcome)

  /** `[i for i in ids if i in prices]`. */
  function Priced(ids: seq<int>, prices: map<int, real>): (r: seq<int>)
    ensures forall i :: i in r <==> i in ids && i in prices
  {
    if ids == [] then []
    else
      var init := Priced(ids[..|ids| - 1], prices);
      assert forall i :: i in ids <==> i in ids[..|ids| - 1] || i == ids[|ids| - 1];
      if ids[|ids| - 1] in prices then init + [ids[|ids| - 1]] else init
  }

  /** The ids that need a price: the selection and the current holdings. */
  function Needed(selected: seq<int>, b: Book): set<int> {
    (set i | i in selected) + b.positions.Keys
  }

  /** One rebalance date of the loop, starting from book `b`. */
  function DayStep<S>(b: Book, c: Costs, date: Ymd, overwrite: bool, env: Env<S>): (r: Progress)
    requires WellFormed(b)
    ensures WellFormed(r.book)
  {
    var deleted := if overwrite then [DeleteDate(date)] else [];
    var scored := env.score(date, env.universe(date));
    if scored.Err? then
      if scored.error == KeyError || scored.error == ValueError then Progress(b, deleted, Done)
      else Progress(b, deleted, Raised(scored.error))
    else
      var selected := env.select(scored.value);
      if selected.Err? then Progress(b, deleted, Raised(selected.error))
      else
        var prices := env.pricesOn(Needed(selected.value, b), date);
        var valid := Priced(selected.value, prices);
        if valid == [] then Progress(b, deleted, Done)
        else
          var weights := EqualWeight(valid).value;
          EqualWeightSpec(valid);
          var after := Rebalanced(b, c, weights, prices);
          if after.Err? then Progress(b, deleted, Raised(after.error))
          else
            SnapshotAfterRebalance(b, c, weights, prices, Iso(date));
            Progress(after.value, deleted + [InsertRows(date, SnapshotOf(after.value, Iso(date), prices).value)], Done)
  }

  /** The loop over the trading days, from the initial book, stopping at the
      first exception. */
  function RunDays<S>(days: seq<Ymd>, dates: set<Ymd>, c: Costs, overwrite: bool, env: Env<S>, start: Book): (r: Progress)
    requires WellFormed(start)
    ensures WellFormed(r.book)
  {
    if days == [] then Progress(start, [], Done)
    else
      var st := RunDays(days[..|days| - 1], dates, c, overwrite, env, start);
      var date := days[|days| - 1];
      if st.outcome.Raised? || date !in dates then st
      else
        var day := DayStep(st.book, c, date, overwrite, env);
        Progress(day.book, st.log + day.log, day.outcome)
  }

  /** `BacktestRunner.run`: a fresh portfolio with the initial cash, the
      rebalance dates, then the day loop. */
  function RunBacktest<S>(days: seq<Ymd>, rule: RebalanceDay, next: Ymd -> Option<Ymd>, initialCash: real,
                          c: Costs, overwrite: bool, env: Env<S>): Progress
  {
    var start := Book(initialCash, [], map[]);
    var dates := RebalanceDates(days, rule, next);
    if dates.Err? then Progress(start, [], Raised(dates.error))
    else RunDays(days, dates.value, c, overwrite, env, start)
  }

  /** A date on which scoring raises KeyError or ValueError, or on which no
      selected id has a price, is skipped: the portfolio is unchanged, the run
      goes on, and the only write is the delete of an overwrite run. */
  lemma {:induction false} DayStepSkips<S>(b: Book, c: Costs, date: Ymd, overwrite: bool, env: Env<S>)
    requires WellFormed(b)
    ensures var scored := env.score(date, env.universe(date));
      var deleted := if overwrite then [DeleteDate(date)] else [];
      ((scored.Err? && (scored.error == KeyError || scored.error == ValueError))
       || (scored.Ok? && env.select(scored.value).Ok?
           && Priced(env.select(scored.value).value, env.pricesOn(Needed(env.select(scored.value).value, b), date)) == []))
      ==> DayStep(b, c, date, overwrite, env) == Progress(b, deleted, Done)
  {
  }

  /** A rebalance date that is not skipped and raises nothing rebalances to
      the priced selected ids with equal weights and writes exactly one
      snapshot after the optional delete: one row per new position and the
      cash row last. */
  lemma {:induction false} DayStepWrites<S>(b: Book, c: Costs, date: Ymd, overwrite: bool, env: Env<S>)
    requires WellFormed(b)
    ensures var r := DayStep(b, c, date, overwrite, env);
      var deleted := if overwrite then [DeleteDate(date)] else [];
      r.log == deleted || (|r.log| == |deleted| + 1 && r.log[..|deleted|] == deleted)
    ensures var r := DayStep(b, c, date, overwrite, env);
      var deleted := if overwrite then [DeleteDate(date)] else [];
      |r.log| == |deleted| + 1 ==>
        var scored := env.score(date, env.universe(date));
        scored.Ok? && env.select(scored.value).Ok? && r.outcome == Done
        && var selected := env.select(scored.value).value;
        var prices := env.pricesOn(Needed(selected, b), date);
        (forall id :: id in r.book.positions <==> id in selected && id in prices)
        && r.log[|deleted|].InsertRows? && r.log[|deleted|].date == date
        && var rows := r.log[|deleted|].rows;
        |rows| == |r.book.order| + 1
        && rows[|r.book.order|] == SnapshotRow(Iso(date), CASH_INSTRUMENT_ID, r.book.cash, 1.0, 1.0, r.book.cash)
  {
    var r := DayStep(b, c, date, overwrite, env);
    var deleted := if overwrite then [DeleteDate(date)] else [];
    var scored := env.score(date, env.universe(date));
    if scored.Ok? && env.select(scored.value).Ok? {
      var selected := env.select(scored.value).value;
      var prices := env.pricesOn(Needed(selected, b), date);
      var valid := Priced(selected, prices);
      if valid != [] {
        EqualWeightSpec(valid);
        var weights := EqualWeight(valid).value;
        if Rebalanced(b, c, weights, prices).Ok? {
          RebalanceKeys(b, c, weights, prices);
          SnapshotAfterRebalance(b, c, weights, prices, Iso(date));
          SnapshotShape(Rebalanced(b, c, weights, prices).value, Iso(date), prices);
          assert (deleted + [r.log[|deleted|]])[..|deleted|] == deleted;
        }
      }
    }
  }

  /** Every write of one day is for that day. */
  lemma {:induction false} DayStepDates<S>(b: Book, c: Costs, date: Ymd, overwrite: bool, env: Env<S>)
    requires WellFormed(b)
    ensures forall k :: 0 <= k < |DayStep(b, c, date, overwrite, env).log| ==> DayStep(b, c, date, overwrite, env).log[k].date == date
  {
    var r := DayStep(b, c, date, overwrite, env);
    var deleted := if overwrite then [DeleteDate(date)] else [];
    assert AllOn(deleted, date);
    var scored := env.score(date, env.universe(date));
    if scored.Ok? {
      var selected := env.select(scored.value);
      if selected.Ok? {
        var prices := env.pricesOn(Needed(selected.value, b), date);
        var valid := Priced(selected.value, prices);
        if valid != [] {
          var weights := EqualWeight(valid).value;
          EqualWeightSpec(valid);
          var after := Rebalanced(b, c, weights, prices);
          if after.Ok? {
            SnapshotAfterRebalance(b, c, weights, prices, Iso(date));
            var rows := SnapshotOf(after.value, Iso(date), prices).value;
            assert r.log == deleted + [InsertRows(date, rows)];
            AllOnInsert(deleted, date, rows);
          }
        }
      }
    }
    assert AllOn(r.log, date);
  }

  /** Every write in `log` is for `date`. */
  predicate AllOn(log: seq<SinkOp>, date: Ymd) {
    forall k :: 0 <= k < |log| ==> log[k].date == date
  }

  lemma {:induction false} AllOnInsert(log: seq<SinkOp>, date: Ymd, rows: seq<SnapshotRow>)
    requires AllOn(log, date)
    ensures AllOn(log + [InsertRows(date, rows)], date)
  {
    var l := log + [InsertRows(date, rows)];
    assert forall k :: 0 <= k < |log| ==> l[k] == log[k];
  }

  /** Every write in `log` is for a rebalance date that is a trading day. */
  predicate WritesIn(log: seq<SinkOp>, dates: set<Ymd>, days: seq<Ymd>) {
    forall k :: 0 <= k < |log| ==> log[k].date in dates && log[k].date in days
  }

  lemma {:induction false} WritesInAppend(l1: seq<SinkOp>, l2: seq<SinkOp>, dates: set<Ymd>, days: seq<Ymd>)
    requires WritesIn(l1, dates, days) && WritesIn(l2, dates, days)
    ensures WritesIn(l1 + l2, dates, days)
  {
    var l := l1 + l2;
    forall k | 0 <= k < |l| ensures l[k].date in dates && l[k].date in days {
      if k < |l1| {
        assert l[k] == l1[k];
      } else {
        assert l[k] == l2[k - |l1|];
      }
    }
  }

  /** Every write of a run concerns a rebalance date that is a trading day. */
  lemma {:induction false} WritesOnRebalanceDates<S>(days: seq<Ymd>, dates: set<Ymd>, c: Costs, overwrite: bool,
                                                      env: Env<S>, start: Book)
    requires WellFormed(start)
    ensures WritesIn(RunDays(days, dates, c, overwrite, env, start).log, dates, days)
    decreases |days|
  {
    if days != [] {
      var n := |days|;
      var init := days[..n - 1];
      WritesOnRebalanceDates(init, dates, c, overwrite, env, start);
      var st := RunDays(init, dates, c, overwrite, env, start);
      var date := days[n - 1];
      assert forall k :: 0 <= k < |st.log| ==> st.log[k].date in init;
      assert forall d :: d in init ==> d in days;
      assert WritesIn(st.log, dates, days);
      if !st.outcome.Raised? && date in dates {
        var day := DayStep(st.book, c, date, overwrite, env);
        DayStepDates(st.book, c, date, overwrite, env);
        assert WritesIn(day.log, dates, days);
        WritesInAppend(st.log, day.log, dates, days);
        assert RunDays(days, dates, c, overwrite, env, start).log == st.log + day.log;
      }
    }
  }

  /** One more day of the loop, after days that raised nothing. */
  lemma {:induction false} RunDaysNext<S>(days: seq<Ymd>, i: nat, dates: set<Ymd>, c: Costs, overwrite: bool,
                                           env: Env<S>, start: Book)
    requires WellFormed(start) && i < |days|
    requires RunDays(days[..i], dates, c, overwrite, env, start).outcome == Done
    ensures var st := RunDays(days[..i], dates, c, overwrite, env, start);
      var r := RunDays(days[..i + 1], dates, c, overwrite, env, start);
      (days[i] !in dates ==> r == st)
      && (days[i] in dates ==>
            var day := DayStep(st.book, c, days[i], overwrite, env);
            r.book == day.book && r.log == st.log + day.log && r.outcome == day.outcome)
  {
    assert days[..i + 1][..i] == days[..i];
  }

  /** Once an exception is raised the run stops there: later days add nothing. */
  lemma {:induction false} RunDaysPrefixRaised<S>(days: seq<Ymd>, k: nat, dates: set<Ymd>, c: Costs, overwrite: bool,
                                                   env: Env<S>, start: Book)
    requires WellFormed(start) && k <= |days|
    requires RunDays(days[..k], dates, c, overwrite, env, start).outcome.Raised?
    ensures RunDays(days, dates, c, overwrite, env, start) == RunDays(days[..k], dates, c, overwrite, env, start)
    decreases |days| - k
  {
    if k < |days| {
      var n := k + 1;
      assert days[..n][..k] == days[..k];
      RunDaysPrefixRaised(days, n, dates, c, overwrite, env, start);
    } else {
      assert days[..k] == days;
    }
  }

  function TestUniverse(d: Ymd): seq<int> { [1, 2] }
  function PassThroughScore(d: Ymd, u: seq<int>): Result<seq<int>> { Ok(u) }
  function SelectAll(s: seq<int>): Result<seq<int>> { Ok(s) }
  function FlatPrices(ids: set<int>, d: Ymd): map<int, real> { map i | i in ids :: 100.0 }
  function NoCalendar(d: Ymd): Option<Ymd> { None }

  lemma {:induction false} SingleDayPrices(b: Book)
    requires b == Book(100000.0, [], map[])
    ensures FlatPrices(Needed([1, 2], b), Ymd(2024, 1, 31)) == map[1 := 100.0, 2 := 100.0]
  {
    assert Needed([1, 2], b) == {1, 2};
  }

  lemma {:induction false} SingleDayPriced(prices: map<int, real>)
    requires prices == map[1 := 100.0, 2 := 100.0]
    ensures Priced([1, 2], prices) == [1, 2]
  {
    assert [1, 2][..1] == [1] && [1][..0] == [];
    assert Priced([1], prices) == [1];
  }

  lemma {:induction false} SingleDayWeights()
    ensures EqualWeight([1, 2]) == Ok([(1, 0.5), (2, 0.5)])
  {
    DedupDistinct([1, 2]);
    assert 1.0 / |[1, 2]| as real == 0.5;
    assert Weighted([1, 2], 0.5) == [(1, 0.5), (2, 0.5)];
  }

  lemma {:induction false} SingleDayRebalance(b: Book, c: Costs, prices: map<int, real>)
    requires b == Book(100000.0, [], map[]) && c == Costs(0.0, 0.0, 0.0, 1.0)
    requires prices == map[1 := 100.0, 2 := 100.0]
    ensures Rebalanced(b, c, [(1, 0.5), (2, 0.5)], prices).Ok?
  {
    var tt := TargetTotal(b, c, prices);
    assert FillFor(1, 0.5, b, c, tt, prices).Ok?;
    assert FillFor(2, 0.5, b, c, tt, prices).Ok?;
    RebalanceFailure(b, c, [(1, 0.5), (2, 0.5)], prices);
  }

  /** The test calendar: one trading day, 'last', a universe of two ids, a
      pass-through strategy and selector and a price of 100 for every id. The
      run deletes the old snapshot, then writes exactly one non-empty batch. */
  lemma {:induction false} SingleDayWritesOnce()
    ensures var r := RunBacktest([Ymd(2024, 1, 31)], Last, NoCalendar, 100000.0, Costs(0.0, 0.0, 0.0, 1.0), true,
                                 Env(TestUniverse, PassThroughScore, SelectAll, FlatPrices));
      r.outcome == Done && |r.log| == 2 && r.log[0] == DeleteDate(Ymd(2024, 1, 31))
      && r.log[1].InsertRows? && r.log[1].date == Ymd(2024, 1, 31) && |r.log[1].rows| >= 1
  {
    var d := Ymd(2024, 1, 31);
    var env := Env(TestUniverse, PassThroughScore, SelectAll, FlatPrices);
    var c := Costs(0.0, 0.0, 0.0, 1.0);
    var b := Book(100000.0, [], map[]);
    assert [d][..0] == [];
    assert Picks([d], true) == map[(2024, 1) := d];
    assert Picks([d], true).Values == {d};
    assert RebalanceDates([d], Last, NoCalendar) == Ok({d});
    SingleDayPrices(b);
    SingleDayPriced(map[1 := 100.0, 2 := 100.0]);
    SingleDayWeights();
    SingleDayRebalance(b, c, map[1 := 100.0, 2 := 100.0]);
    DayStepWrites(b, c, d, true, env);
    var day := DayStep(b, c, d, true, env);
    assert |day.log| == 2;
    assert RunDays([d], {d}, c, true, env, b) == Progress(day.book, [] + day.log, day.outcome);
  }

  /** The runner of the backtest: a fresh portfolio, the rebalance dates,
      then for each trading day that is a rebalance date the day's deletes,
      rebalance and snapshot write; an exception other than a skipped
      KeyError or ValueError ends the run. */
  method Run<S>(days: seq<Ymd>, rule: RebalanceDay, next: Ymd -> Option<Ymd>, initialCash: real, c: Costs,
                overwrite: bool, env: Env<S>)
    returns (outcome: Outcome, log: seq<SinkOp>)
    ensures outcome == RunBacktest(days, rule, next, initialCash, c, overwrite, env).outcome
    ensures log == RunBacktest(days, rule, next, initialCash, c, overwrite, env).log
  {
    var p := new Portfolio(initialCash, c.slippage, c.transactionCost, c.exchangeCost, c.reinvestRatio);
    var dates := GenerateRebalanceDates(days, rule, next);
    RunBacktestIs(days, rule, next, initialCash, c, overwrite, env, dates);
    if dates.Err? {
      return Raised(dates.error), [];
    }
    outcome, log := RunLoop(p, days, dates.value, overwrite, env, c, p.State());
  }

  /** The loop over the trading days of one run. */
  method RunLoop<S>(p: Portfolio, days: seq<Ymd>, dates: set<Ymd>, overwrite: bool, env: Env<S>,
                    ghost c: Costs, ghost start: Book)
    returns (outcome: Outcome, log: seq<SinkOp>)
    requires WellFormed(start) && p.Valid() && p.Params() == c && p.State() == start
    modifies p
    ensures outcome == RunDays(days, dates, c, overwrite, env, start).outcome
    ensures log == RunDays(days, dates, c, overwrite, env, start).log
  {
    outcome, log := Done, [];
    var i := 0;
    while i < |days|
      invariant 0 <= i <= |days|
      invariant p.Valid() && p.Params() == c && outcome == Done
      invariant RunDays(days[..i], dates, c, overwrite, env, start) == Progress(p.State(), log, Done)
    {
      var ops;
      ops, outcome := NextDay(p, days, i, dates, overwrite, env, c, start, log);
      log := log + ops;
      if outcome.Raised? {
        RunDaysPrefixRaised(days, i + 1, dates, c, overwrite, env, start);
        return;
      }
      i := i + 1;
    }
    assert days[..|days|] == days;
  }

  /** One iteration of the runner's loop: trading day `days[i]`, run only
      when it is a rebalance date. */
  method NextDay<S>(p: Portfolio, days: seq<Ymd>, i: nat, dates: set<Ymd>, overwrite: bool, env: Env<S>,
                    ghost c: Costs, ghost start: Book, ghost log: seq<SinkOp>)
    returns (ops: seq<SinkOp>, outcome: Outcome)
    requires WellFormed(start) && i < |days|
    requires p.Valid() && p.Params() == c
    requires RunDays(days[..i], dates, c, overwrite, env, start) == Progress(p.State(), log, Done)
    modifies p
    ensures p.Valid()
    ensures RunDays(days[..i + 1], dates, c, overwrite, env, start) == Progress(p.State(), log + ops, outcome)
  {
    RunDaysNext(days, i, dates, c, overwrite, env, start);
    var date := days[i];
    if date in dates {
      ops, outcome := RunDay(p, date, overwrite, env, old(p.State()), c);
    } else {
      ops, outcome := [], Done;
      assert log + ops == log;
    }
  }

  lemma {:induction false} RunBacktestIs<S>(days: seq<Ymd>, rule: RebalanceDay, next: Ymd -> Option<Ymd>, initialCash: real,
                                            c: Costs, overwrite: bool, env: Env<S>, dates: Result<set<Ymd>>)
    requires dates == RebalanceDates(days, rule, next)
    ensures var r := RunBacktest(days, rule, next, initialCash, c, overwrite, env);
      (dates.Err? ==> r.outcome == Raised(dates.error) && r.log == [])
      && (dates.Ok? ==> r == RunDays(days, dates.value, c, overwrite, env, Book(initialCash, [], map[])))
  {
  }

  /** One rebalance date: delete, score, select, price, rebalance, snapshot. */
  method RunDay<S>(p: Portfolio, date: Ymd, overwrite: bool, env: Env<S>, ghost b: Book, ghost c: Costs)
    returns (ops: seq<SinkOp>, outcome: Outcome)
    requires p.Valid() && p.State() == b && p.Params() == c
    modifies p
    ensures p.Valid()
    ensures p.State() == DayStep(b, c, date, overwrite, env).book
    ensures ops == DayStep(b, c, date, overwrite, env).log
    ensures outcome == DayStep(b, c, date, overwrite, env).outcome
  {
    ops := if overwrite then [DeleteDate(date)] else [];
    var universe := env.universe(date);
    var scored := env.score(date, universe);
    if scored.Err? {
      outcome := if scored.error == KeyError || scored.error == ValueError then Done else Raised(scored.error);
      return;
    }
    var selected := env.select(scored.value);
    if selected.Err? {
      return ops, Raised(selected.error);
    }
    var prices := env.pricesOn((set i | i in selected.value) + p.positions.Keys, date);
    var valid := Priced(selected.value, prices);
    if valid == [] {
      return ops, Done;
    }
    EqualWeightSpec(valid);
    var weights := EqualWeight(valid).value;
    outcome := p.Rebalance(weights, prices);
    if outcome.Raised? {
      return;
    }
    SnapshotAfterRebalance(b, c, weights, prices, Iso(date));
    var rows := p.Snapshot(Iso(date), prices);
    ops := ops + [InsertRows(date, rows.value)];
  }
}
